/** The sign-in / sign-up form: the sign-up username validator, the order in which a submission
    checks its input and calls the backend, and the switch between the two modes. */
module AuthForm {
  import opened Js
  import opened Backend

  // ---------------------------------------------------------------------------------------
  // Username validation (sign-up)

  /** A character of the class `[a-zA-Z0-9_]`. */
  predicate IsUsernameChar(c: char)
  {
    ('a' <= c <= 'z') || ('A' <= c <= 'Z') || ('0' <= c <= '9') || c == '_'
  }

  predicate AllUsernameChars(s: string)
  {
    forall i :: 0 <= i < |s| ==> IsUsernameChar(s[i])
  }

  const UsernameRequired: string := "Username is required"
  const UsernameTooShort: string := "Username must be at least 3 characters"
  const UsernameTooLong: string := "Username must be less than 20 characters"
  const UsernameBadChars: string := "Username can only contain letters, numbers, and underscores"

  /** `validateUsername`: returns, or throws the message of the first check that fails. */
  function ValidateUsername(username: string): (r: Completion<()>)
    ensures r.Returns? <==> 3 <= |username| <= 20 && AllUsernameChars(username)
  {
    if username == "" then Throws(UsernameRequired)
    else if |username| < 3 then Throws(UsernameTooShort)
    else if |username| > 20 then Throws(UsernameTooLong)
    else if !AllUsernameChars(username) then Throws(UsernameBadChars)
    else Returns(())
  }

  /** The checks run in the order: required, too short, too long, character set; the first
      one that fails decides the message. */
  lemma ValidateUsernameOrder(username: string)
    ensures username == "" ==> ValidateUsername(username) == Throws(UsernameRequired)
    ensures 0 < |username| < 3 ==> ValidateUsername(username) == Throws(UsernameTooShort)
    ensures |username| > 20 ==> ValidateUsername(username) == Throws(UsernameTooLong)
    ensures 3 <= |username| <= 20 && !AllUsernameChars(username) ==>
              ValidateUsername(username) == Throws(UsernameBadChars)
  {
  }

  // ---------------------------------------------------------------------------------------
  // Submission

  datatype FormData = FormData(emailOrUsername: string, username: string, password: string, confirmPassword: string)

  const EmptyForm: FormData := FormData("", "", "", "")

  /** The backend calls a submission makes. */
  datatype Call =
    | CheckEmailStatus(email: string)
    | CheckUsernameAvailable(username: string)
    | SignUp(email: string, password: string, username: string)
    | CreateProfile(userId: string, username: string)
    | GetEmailByUsername(username: string)
    | SignIn(email: string, password: string)

  /** The replies the backend gives to each call a submission can make. */
  datatype Replies = Replies(
    emailExists: Reply<bool>,            // check_email_status → `exists`
    usernameAvailable: Reply<bool>,      // check_username_available
    signUp: Reply<Option<string>>,       // auth.signUp → `user.id`, possibly missing
    createProfile: Ack,                  // create_new_profile
    emailByUsername: Reply<Option<string>>, // get_email_by_username
    signIn: Ack)                         // auth.signInWithPassword

  const PasswordMismatch: string := "Passwords do not match"
  const PasswordTooShort: string := "Password must be at least 6 characters"
  const InvalidEmail: string := "Please enter a valid email address"
  const EmailCheckFailed: string := "Error checking email availability"
  const EmailTaken: string := "An account with this email already exists"
  const InvalidUsernamePrefix: string := "Invalid username: "
  const UsernameCheckFailed: string := "Error checking username availability"
  const UsernameUnavailable: string := "Username is not available"
  const SignUpFailedPrefix: string := "Failed to create account: "
  const NoUserIdMessage: string := "Failed to create account"
  const ProfileFailedPrefix: string := "Failed to create profile: "
  const CheckEmailMessage: string := "Please check your email for confirmation link"
  const LookupFailed: string := "Error finding account. Please try again."
  const UsernameNotFound: string := "Username not found. Please check your username or sign in with email."
  const BadCredentials: string := "Invalid login credentials"

  /** What a submission leaves behind: the error shown, the `loading` flag, and the calls made. */
  datatype Outcome = Outcome(error: Option<string>, loading: bool, calls: seq<Call>)

  /** Stop with a message: `setError(message); setLoading(false); return`. */
  function Stop(message: string, calls: seq<Call>): Outcome
  {
    Outcome(Some(message), false, calls)
  }

  /** The sign-up branch of `handleSubmit`: every path ends with a message and `loading`
      cleared, and the first backend call, if any, is the email-status check. */
  function SignUpFlow(f: FormData, r: Replies): (o: Outcome)
    ensures !o.loading && o.error.Some?
    ensures o.calls != [] ==> o.calls[0] == CheckEmailStatus(f.emailOrUsername)
    ensures |o.calls| <= 4
  {
    var email := f.emailOrUsername;
    if f.password != f.confirmPassword then Stop(PasswordMismatch, [])
    else if |f.password| < 6 then Stop(PasswordTooShort, [])
    else if !Includes(email, "@") then Stop(InvalidEmail, [])
    else
      var c1 := [CheckEmailStatus(email)];
      if r.emailExists.Err? then Stop(EmailCheckFailed, c1)
      else if r.emailExists.data then Stop(EmailTaken, c1)
      else if ValidateUsername(f.username).Throws? then
        Stop(InvalidUsernamePrefix + ValidateUsername(f.username).message, c1)
      else
        var c2 := c1 + [CheckUsernameAvailable(f.username)];
        if r.usernameAvailable.Err? then Stop(UsernameCheckFailed, c2)
        else if !r.usernameAvailable.data then Stop(UsernameUnavailable, c2)
        else
          var c3 := c2 + [SignUp(email, f.password, f.username)];
          if r.signUp.Err? then
            Stop(if Includes(r.signUp.message, "valid email") then InvalidEmail
                 else SignUpFailedPrefix + r.signUp.message, c3)
          else if !Truthy(r.signUp.data) then Stop(NoUserIdMessage, c3)
          else
            var c4 := c3 + [CreateProfile(r.signUp.data.value, f.username)];
            if r.createProfile.Err? then Stop(ProfileFailedPrefix + r.createProfile.message, c4)
            else Stop(CheckEmailMessage, c4)
  }

  /** The sign-in branch of `handleSubmit`: it always calls the backend, and it leaves
      `loading` set exactly when it ends without an error, which happens only after a sign-in
      call that succeeded. */
  function SignInFlow(f: FormData, r: Replies): (o: Outcome)
    ensures o.calls != []
    ensures o.loading <==> o.error.None?
    ensures o.loading ==> r.signIn.Ok? && o.calls[|o.calls| - 1].SignIn?
  {
    var input := f.emailOrUsername;
    if Includes(input, "@") then
      SignInWith(input, f.password, r.signIn, [])
    else
      var c1 := [GetEmailByUsername(Trim(input))];
      if r.emailByUsername.Err? then Stop(LookupFailed, c1)
      else if !Truthy(r.emailByUsername.data) then Stop(UsernameNotFound, c1)
      else SignInWith(r.emailByUsername.data.value, f.password, r.signIn, c1)
  }

  /** The final sign-in call; on success `loading` stays set (the form is about to unmount). */
  function SignInWith(email: string, password: string, reply: Ack, calls: seq<Call>): (o: Outcome)
    ensures o.calls == calls + [SignIn(email, password)]
    ensures o.loading <==> reply.Ok?
    ensures o.error.None? <==> reply.Ok?
    ensures reply.Err? ==> o.error == Some(BadCredentials)
  {
    var c := calls + [SignIn(email, password)];
    if reply.Err? then Stop(BadCredentials, c) else Outcome(None, true, c)
  }

  /** `handleSubmit`'s choice of branch: only a sign-in can end without an error, and that is
      exactly when `loading` stays set. */
  function SubmitFlow(isSignUp: bool, f: FormData, r: Replies): (o: Outcome)
    ensures o.loading <==> o.error.None?
    ensures o.loading ==> !isSignUp
    ensures isSignUp ==> o == SignUpFlow(f, r)
    ensures !isSignUp ==> o == SignInFlow(f, r)
  {
    if isSignUp then SignUpFlow(f, r) else SignInFlow(f, r)
  }

  /** The three local sign-up checks run in a fixed order and each stops the submission before
      any backend call. */
  lemma SignUpLocalChecks(f: FormData, r: Replies)
    ensures f.password != f.confirmPassword ==>
              SignUpFlow(f, r) == Outcome(Some(PasswordMismatch), false, [])
    ensures f.password == f.confirmPassword && |f.password| < 6 ==>
              SignUpFlow(f, r) == Outcome(Some(PasswordTooShort), false, [])
    ensures f.password == f.confirmPassword && |f.password| >= 6 && '@' !in f.emailOrUsername ==>
              SignUpFlow(f, r) == Outcome(Some(InvalidEmail), false, [])
    ensures SignUpFlow(f, r).calls != [] <==>
              f.password == f.confirmPassword && |f.password| >= 6 && '@' in f.emailOrUsername
  {
    IncludesChar(f.emailOrUsername, '@');
  }

  /** Once the local checks pass, an existing email, an invalid username and an unavailable
      username each stop the sign-up with their own message, before the account is created. */
  lemma SignUpRejections(f: FormData, r: Replies)
    requires f.password == f.confirmPassword && |f.password| >= 6 && '@' in f.emailOrUsername
    ensures r.emailExists == Ok(true) ==>
              SignUpFlow(f, r) == Outcome(Some(EmailTaken), false, [CheckEmailStatus(f.emailOrUsername)])
    ensures r.emailExists == Ok(false) && ValidateUsername(f.username).Throws? ==>
              SignUpFlow(f, r) == Outcome(Some(InvalidUsernamePrefix + ValidateUsername(f.username).message),
                                          false, [CheckEmailStatus(f.emailOrUsername)])
    ensures r.emailExists == Ok(false) && ValidateUsername(f.username).Returns? &&
            r.usernameAvailable == Ok(false) ==>
              SignUpFlow(f, r) == Outcome(Some(UsernameUnavailable), false,
                                          [CheckEmailStatus(f.emailOrUsername), CheckUsernameAvailable(f.username)])
  {
    IncludesChar(f.emailOrUsername, '@');
  }

  /** An account is only ever created for input that passed every check, and a sign-up never
      leaves `loading` set. */
  lemma SignUpCreatesOnlyValidAccounts(f: FormData, r: Replies)
    ensures !SignUpFlow(f, r).loading
    ensures (exists e, p, u :: SignUp(e, p, u) in SignUpFlow(f, r).calls) ==>
              && f.password == f.confirmPassword && |f.password| >= 6 && '@' in f.emailOrUsername
              && r.emailExists == Ok(false)
              && ValidateUsername(f.username).Returns?
              && r.usernameAvailable == Ok(true)
  {
    IncludesChar(f.emailOrUsername, '@');
  }

  /** Sign-in with a name instead of an address looks the trimmed name up first; a name with no
      address stops the submission before any sign-in is attempted. */
  lemma SignInByUsername(f: FormData, r: Replies)
    requires '@' !in f.emailOrUsername
    ensures |SignInFlow(f, r).calls| >= 1
    ensures SignInFlow(f, r).calls[0] == GetEmailByUsername(Trim(f.emailOrUsername))
    ensures r.emailByUsername.Ok? && !Truthy(r.emailByUsername.data) ==>
              SignInFlow(f, r) == Outcome(Some(UsernameNotFound), false, [GetEmailByUsername(Trim(f.emailOrUsername))])
    ensures r.emailByUsername.Ok? && Truthy(r.emailByUsername.data) ==>
              SignIn(r.emailByUsername.data.value, f.password) in SignInFlow(f, r).calls
  {
    IncludesChar(f.emailOrUsername, '@');
  }

  /** The sign-in call is reached: the input is an address, or a name the backend resolved. */
  predicate ReachesSignIn(f: FormData, r: Replies)
  {
    Includes(f.emailOrUsername, "@") || (r.emailByUsername.Ok? && Truthy(r.emailByUsername.data))
  }

  /** Whatever the backend says about a failed sign-in, the user sees one fixed message; only
      a successful sign-in leaves `loading` set. */
  lemma SignInFailureMessage(f: FormData, r: Replies)
    ensures ReachesSignIn(f, r) && r.signIn.Err? ==>
              SignInFlow(f, r).error == Some(BadCredentials) && !SignInFlow(f, r).loading
    ensures SignInFlow(f, r).loading <==> ReachesSignIn(f, r) && r.signIn.Ok?
    ensures SignInFlow(f, r).loading <==> SignInFlow(f, r).error == None
  {
  }

  // ---------------------------------------------------------------------------------------
  // The component

  class Form {
    var isSignUp: bool
    var loading: bool
    var error: Option<string>
    var data: FormData

    constructor ()
      ensures !isSignUp && !loading && error == None && data == EmptyForm
    {
      isSignUp, loading, error, data := false, false, None, EmptyForm;
    }

    /** `handleSubmit`: clear the error, set `loading`, then run the checks and calls of the
        current mode in order, stopping at the first failure. */
    method HandleSubmit(r: Replies) returns (calls: seq<Call>)
      modifies this`error, this`loading
      ensures var o := SubmitFlow(isSignUp, data, r);
              error == o.error && loading == o.loading && calls == o.calls
    {
      error := None;
      loading := true;
      if isSignUp {
        calls := SubmitSignUp(r);
      } else {
        calls := SubmitSignIn(r);
      }
    }

    /** The sign-up branch of `handleSubmit`. */
    method SubmitSignUp(r: Replies) returns (calls: seq<Call>)
      modifies this`error, this`loading
      ensures var o := SignUpFlow(data, r);
              error == o.error && loading == o.loading && calls == o.calls
    {
      calls := [];
      var f := data;
      if f.password != f.confirmPassword {
        error, loading := Some(PasswordMismatch), false;
        return;
      }
      if |f.password| < 6 {
        error, loading := Some(PasswordTooShort), false;
        return;
      }
      if !Includes(f.emailOrUsername, "@") {
        error, loading := Some(InvalidEmail), false;
        return;
      }
      calls := calls + [CheckEmailStatus(f.emailOrUsername)];
      if r.emailExists.Err? {
        error, loading := Some(EmailCheckFailed), false;
        return;
      }
      if r.emailExists.data {
        error, loading := Some(EmailTaken), false;
        return;
      }
      var valid := ValidateUsername(f.username);
      if valid.Throws? {
        error, loading := Some(InvalidUsernamePrefix + valid.message), false;
        return;
      }
      calls := calls + [CheckUsernameAvailable(f.username)];
      if r.usernameAvailable.Err? {
        error, loading := Some(UsernameCheckFailed), false;
        return;
      }
      if !r.usernameAvailable.data {
        error, loading := Some(UsernameUnavailable), false;
        return;
      }
      calls := calls + [SignUp(f.emailOrUsername, f.password, f.username)];
      if r.signUp.Err? {
        var m := r.signUp.message;
        error := Some(if Includes(m, "valid email") then InvalidEmail else SignUpFailedPrefix + m);
        loading := false;
        return;
      }
      if !Truthy(r.signUp.data) {
        error, loading := Some(NoUserIdMessage), false;
        return;
      }
      calls := calls + [CreateProfile(r.signUp.data.value, f.username)];
      if r.createProfile.Err? {
        error, loading := Some(ProfileFailedPrefix + r.createProfile.message), false;
        return;
      }
      error := Some(CheckEmailMessage);
      loading := false;
    }

    /** The sign-in branch of `handleSubmit`; a successful sign-in leaves the state as it was
        set on entry. */
    method SubmitSignIn(r: Replies) returns (calls: seq<Call>)
      requires error == None && loading
      modifies this`error, this`loading
      ensures var o := SignInFlow(data, r);
              error == o.error && loading == o.loading && calls == o.calls
    {
      calls := [];
      var f := data;
      var email := f.emailOrUsername;
      if !Includes(email, "@") {
        var name := Trim(email);
        calls := [GetEmailByUsername(name)];
        if r.emailByUsername.Err? {
          error, loading := Some(LookupFailed), false;
          return;
        }
        if !Truthy(r.emailByUsername.data) {
          error, loading := Some(UsernameNotFound), false;
          return;
        }
        email := r.emailByUsername.data.value;
      }
      calls := calls + [SignIn(email, f.password)];
      if r.signIn.Err? {
        error, loading := Some(BadCredentials), false;
        return;
      }
    }

    /** The link under the form: switch mode, clear the error and empty all four fields. */
    method ToggleMode()
      modifies this`isSignUp, this`error, this`data
      ensures isSignUp == !old(isSignUp) && error == None && data == EmptyForm
    {
      isSignUp := !isSignUp;
      error := None;
      data := EmptyForm;
    }
  }
}
