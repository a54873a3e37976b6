/** The "confirm your email" screen: it starts out checking, settles on confirmed or
    unconfirmed after asking the backend, re-checks on sign-in and user-update events, and
    shows an error in preference to anything else. */
module ConfirmEmail {
  import opened Js
  import opened Backend

  datatype Status = Checking | Confirmed | Unconfirmed

  /** What the component renders. */
  datatype Screen =
    | ErrorScreen(message: string)   // "Error: …" with a "Try Again" button
    | CheckingScreen                 // the spinner
    | ConfirmScreen                  // "Confirm Your Email" with a "Sign Out" button
    | NoScreen                       // `null`: the application shows the dashboard instead

  /** The render: a truthy error wins, then the checking spinner, then the unconfirmed
      screen, and a confirmed status renders nothing. */
  function ScreenFor(status: Status, error: Option<string>): (s: Screen)
    ensures s.ErrorScreen? <==> Truthy(error)
    ensures s.ErrorScreen? ==> s.message == error.value
    ensures s == CheckingScreen <==> !Truthy(error) && status == Checking
    ensures s == ConfirmScreen <==> !Truthy(error) && status == Unconfirmed
    ensures s == NoScreen <==> !Truthy(error) && status == Confirmed
  {
    if Truthy(error) then ErrorScreen(error.value)
    else match status
      case Checking => CheckingScreen
      case Unconfirmed => ConfirmScreen
      case Confirmed => NoScreen
  }

  /** The auth events that trigger a new check. */
  const SignedIn: string := "SIGNED_IN"
  const UserUpdated: string := "USER_UPDATED"

  predicate TriggersCheck(event: string)
  {
    event == SignedIn || event == UserUpdated
  }

  /** The backend call a check makes. */
  datatype Call = CheckUserStatus(userId: string)

  /** The status and error after `checkEmailConfirmation`, given the session the backend
      reports, the reply of the status RPC and the error before: with no session user the
      status is unconfirmed; otherwise the RPC's error (if any) is recorded and forces
      unconfirmed, and else the status follows the user's confirmation timestamps. The RPC's
      data is not looked at, and an earlier error is never cleared. */
  function Checked(session: Option<Session>, rpc: Ack, error: Option<string>): (r: (Status, Option<string>))
    ensures r.0 != Checking
    ensures session.None? || session.value.user.None? ==> r == (Unconfirmed, error)
    ensures session.Some? && session.value.user.Some? && rpc.Err? ==> r == (Unconfirmed, Some(rpc.message))
    ensures session.Some? && session.value.user.Some? && rpc.Ok? ==>
              r.1 == error && (r.0 == Confirmed <==> EmailConfirmed(session.value.user.value))
    ensures r.0 == Confirmed ==> r.1 == error
  {
    if session.None? || session.value.user.None? then (Unconfirmed, error)
    else if rpc.Err? then (Unconfirmed, Some(rpc.message))
    else if EmailConfirmed(session.value.user.value) then (Confirmed, error)
    else (Unconfirmed, error)
  }

  /** The calls a check makes: the status RPC, only when there is a session user. */
  function CheckCalls(session: Option<Session>): (calls: seq<Call>)
    ensures calls == [] <==> session.None? || session.value.user.None?
    ensures calls != [] ==> calls == [CheckUserStatus(session.value.user.value.id)]
  {
    if session.None? || session.value.user.None? then []
    else [CheckUserStatus(session.value.user.value.id)]
  }

  class Confirmation {
    var status: Status
    var error: Option<string>

    constructor ()
      ensures status == Checking && error == None
    {
      status, error := Checking, None;
    }

    function View(): Screen
      reads this
    {
      ScreenFor(status, error)
    }

    /** `checkEmailConfirmation` against the current session. */
    method Check(session: Option<Session>, rpc: Ack) returns (calls: seq<Call>)
      modifies this
      ensures (status, error) == Checked(session, rpc, old(error))
      ensures calls == CheckCalls(session)
    {
      calls := [];
      if session.None? || session.value.user.None? {
        status := Unconfirmed;
        return;
      }
      var user := session.value.user.value;
      calls := [CheckUserStatus(user.id)];
      if rpc.Err? {
        error := Some(rpc.message);
        status := Unconfirmed;
        return;
      }
      if EmailConfirmed(user) {
        status := Confirmed;
      } else {
        status := Unconfirmed;
      }
    }

    /** The auth-state subscription: only a sign-in or a user update checks again (against
        the session the backend then reports); every other event changes nothing. */
    method OnAuthEvent(event: string, session: Option<Session>, rpc: Ack) returns (calls: seq<Call>)
      modifies this
      ensures !TriggersCheck(event) ==> calls == [] && status == old(status) && error == old(error)
      ensures TriggersCheck(event) ==>
                (status, error) == Checked(session, rpc, old(error)) && calls == CheckCalls(session)
    {
      calls := [];
      if TriggersCheck(event) {
        calls := Check(session, rpc);
      }
    }
  }

  /** A check never leaves the spinner up: after it, the screen is the error, the confirmation
      request, or nothing. */
  method CheckLeavesSpinner(session: Option<Session>, rpc: Ack) returns (s: Screen)
    ensures s != CheckingScreen
    ensures session.Some? && session.value.user.Some? && EmailConfirmed(session.value.user.value) && rpc.Ok? ==>
              s == NoScreen
    ensures rpc.Err? && rpc.message != "" && session.Some? && session.value.user.Some? ==>
              s == ErrorScreen(rpc.message)
  {
    var c := new Confirmation();
    var _ := c.Check(session, rpc);
    s := c.View();
  }

  /** An error with an empty message is recorded but is not truthy, so the screen falls back to
      the confirmation request. */
  method EmptyErrorShowsConfirmScreen() returns (s: Screen, error: Option<string>)
    ensures error == Some("") && s == ConfirmScreen
  {
    var c := new Confirmation();
    var _ := c.Check(Some(Session(Some(User("u1", None, None)))), Err(""));
    s, error := c.View(), c.error;
  }
}
