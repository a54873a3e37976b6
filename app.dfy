/** The application shell: which of the three views is shown for the current session, how the
    email-confirmed flag follows the session, and the dashboard's editable, saved title. */
module App {
  import opened Js
  import opened Backend
  import CodeEditor
  import PreviewPane

  // ---------------------------------------------------------------------------------------
  // View selection

  datatype View = AuthView | ConfirmEmailView | DashboardView

  /** No session: the sign-in form; a session whose address is not confirmed: the
      confirm-email screen; otherwise the dashboard. */
  function SelectView(session: Option<Session>, isEmailConfirmed: bool): (v: View)
    ensures v == AuthView <==> session.None?
    ensures v == ConfirmEmailView <==> session.Some? && !isEmailConfirmed
    ensures v == DashboardView <==> session.Some? && isEmailConfirmed
  {
    if session.None? then AuthView
    else if !isEmailConfirmed then ConfirmEmailView
    else DashboardView
  }

  /** The session has a user whose address is confirmed. */
  predicate ConfirmedUser(session: Option<Session>)
  {
    session.Some? && session.value.user.Some? && EmailConfirmed(session.value.user.value)
  }

  /** The `App` component's two pieces of state. */
  class Root {
    var session: Option<Session>
    var isEmailConfirmed: bool

    constructor ()
      ensures session == None && !isEmailConfirmed
      ensures Consistent()
    {
      session, isEmailConfirmed := None, false;
    }

    /** The flag says exactly whether the session's user has confirmed the address. */
    predicate Consistent()
      reads this
    {
      isEmailConfirmed <==> ConfirmedUser(session)
    }

    function CurrentView(): View
      reads this
    {
      SelectView(session, isEmailConfirmed)
    }

    /** The initial `getSession()` resolves: the session is stored, and the flag is derived
        from its user only when there is one (otherwise it is left as it was). */
    method OnInitialSession(s: Option<Session>)
      modifies this
      ensures session == s
      ensures s.Some? && s.value.user.Some? ==> isEmailConfirmed == EmailConfirmed(s.value.user.value)
      ensures s.None? || s.value.user.None? ==> isEmailConfirmed == old(isEmailConfirmed)
      ensures s.None? ==> CurrentView() == AuthView
      ensures s.Some? && s.value.user.Some? ==> Consistent()
    {
      session := s;
      if s.Some? && s.value.user.Some? {
        isEmailConfirmed := EmailConfirmed(s.value.user.value);
      }
    }

    /** An auth state change: the session is stored and the flag derived from it, false when
        there is no user. */
    method OnAuthStateChange(s: Option<Session>)
      modifies this
      ensures session == s
      ensures isEmailConfirmed == ConfirmedUser(s)
      ensures Consistent()
    {
      session := s;
      if s.Some? && s.value.user.Some? {
        isEmailConfirmed := EmailConfirmed(s.value.user.value);
      } else {
        isEmailConfirmed := false;
      }
    }
  }

  /** While the flag is consistent with the session, the dashboard is shown only to a user who
      has confirmed the address, and such a user always sees it. */
  lemma DashboardOnlyWhenConfirmed(session: Option<Session>, isEmailConfirmed: bool)
    requires isEmailConfirmed <==> ConfirmedUser(session)
    ensures SelectView(session, isEmailConfirmed) == DashboardView <==> ConfirmedUser(session)
  {
  }

  /** The initial session without a user keeps an earlier flag: a confirmed user's sign-in
      event followed by a session that has no user leaves the dashboard on screen. */
  method DashboardWithoutUser() returns (v: View, consistent: bool)
    ensures v == DashboardView && !consistent
  {
    var root := new Root();
    root.OnAuthStateChange(Some(Session(Some(User("u1", Some("2024-01-01"), None)))));
    root.OnInitialSession(Some(Session(None)));
    v, consistent := root.CurrentView(), root.Consistent();
  }

  // ---------------------------------------------------------------------------------------
  // The dashboard

  const InitialTitle: string := "Code Editor"
  const SegmentType: string := "component"
  const FallbackName: string := "user"

  /** `username || 'user'`: the name shown in the greeting and the menu button. */
  function DisplayName(username: string): (r: string)
    ensures r != ""
    ensures username != "" ==> r == username
    ensures username == "" ==> r == FallbackName
  {
    OrElse(username, FallbackName)
  }

  /** The backend calls the dashboard makes. */
  datatype Call =
    | FindLatestTitle(userId: string, segmentType: string)
    | FindLatestSegmentId(userId: string, segmentType: string)
    | InsertSegment(row: SegmentRow)
    | UpdateSegmentTitle(id: nat, title: string, updatedAt: string)

  /** The row `saveTitle` inserts when the user has none: no file path yet. */
  function TitleRow(userId: string, title: string, now: string): (row: SegmentRow)
    ensures row.userId == userId && row.segmentType == SegmentType && row.title == title
    ensures row.filePath == None && row.language == CodeEditor.Language && !row.isPublic
    ensures row.updatedAt == now
  {
    SegmentRow(userId, SegmentType, title, None, CodeEditor.Language, false, now)
  }

  class Dashboard {
    /** `session?.user?.id`. */
    const userId: Option<string>
    var username: string
    var editorTitle: string
    var isEditingTitle: bool
    var titleSaving: bool
    var previewCode: string

    constructor (userId: Option<string>)
      ensures this.userId == userId
      ensures username == "" && editorTitle == InitialTitle && previewCode == ""
      ensures !isEditingTitle && !titleSaving
    {
      this.userId := userId;
      username, editorTitle, previewCode := "", InitialTitle, "";
      isEditingTitle, titleSaving := false, false;
    }

    /** `fetchUsername` settles with `profile?.username`: only a non-empty name replaces the
        current one; a missing profile or a failed query changes nothing. */
    method OnProfileLoaded(name: Option<string>)
      modifies this`username
      ensures Truthy(name) ==> username == name.value
      ensures !Truthy(name) ==> username == old(username)
    {
      if Truthy(name) {
        username := name.value;
      }
    }

    /** `loadSavedTitle`: without a user id nothing is asked; otherwise the most recent
        segment's title, when it is non-empty, replaces the shown title. "No row" and any other
        query error leave the title as it is. */
    method LoadSavedTitle(query: SingleRow<Option<string>>) returns (calls: seq<Call>)
      modifies this`editorTitle
      ensures !Truthy(userId) ==> calls == [] && editorTitle == old(editorTitle)
      ensures Truthy(userId) ==> calls == [FindLatestTitle(userId.value, SegmentType)]
      ensures Truthy(userId) && query.Row? && Truthy(query.row) ==> editorTitle == query.row.value
      ensures !(Truthy(userId) && query.Row? && Truthy(query.row)) ==> editorTitle == old(editorTitle)
    {
      calls := [];
      if !Truthy(userId) {
        return;
      }
      calls := [FindLatestTitle(userId.value, SegmentType)];
      if query.Row? && Truthy(query.row) {
        editorTitle := query.row.value;
      }
    }

    /** Typing in the title field. */
    method HandleTitleChange(value: string)
      modifies this`editorTitle
      ensures editorTitle == value
    {
      editorTitle := value;
    }

    /** The pencil button opens the title for editing. */
    method StartEditingTitle()
      modifies this`isEditingTitle
      ensures isEditingTitle
    {
      isEditingTitle := true;
    }

    /** The editor hands its code to the preview. */
    method HandlePreviewCodeUpdate(code: string)
      modifies this`previewCode
      ensures previewCode == code
    {
      previewCode := code;
    }

    /** The synchronous start of `saveTitle`: nothing happens while a save is in flight or
        without a user id; otherwise the in-flight flag is raised. */
    method BeginSaveTitle() returns (started: bool)
      modifies this`titleSaving
      ensures started <==> !old(titleSaving) && Truthy(userId)
      ensures titleSaving == (old(titleSaving) || started)
    {
      started := !titleSaving && Truthy(userId);
      if started {
        titleSaving := true;
      }
    }

    /** The rest of `saveTitle`: find the most recent segment; with none, insert a title-only
        row, else update that segment's title; the shown title becomes the saved one only when
        the write succeeded, and the in-flight flag is lowered on every path. */
    method FinishSaveTitle(newTitle: string, query: SingleRow<nat>, write: Ack, now: string)
      returns (calls: seq<Call>)
      requires titleSaving && Truthy(userId)
      modifies this`titleSaving, this`editorTitle
      ensures !titleSaving
      ensures |calls| >= 1 && calls[0] == FindLatestSegmentId(userId.value, SegmentType)
      ensures query.QueryError? && !query.NotFound() ==>
                calls == [FindLatestSegmentId(userId.value, SegmentType)] && editorTitle == old(editorTitle)
      ensures query.NotFound() ==>
                calls == [FindLatestSegmentId(userId.value, SegmentType),
                          InsertSegment(TitleRow(userId.value, newTitle, now))]
      ensures query.Row? ==>
                calls == [FindLatestSegmentId(userId.value, SegmentType),
                          UpdateSegmentTitle(query.row, newTitle, now)]
      ensures |calls| == 2 && write.Ok? ==> editorTitle == newTitle
      ensures |calls| == 2 && write.Err? ==> editorTitle == old(editorTitle)
    {
      calls := [FindLatestSegmentId(userId.value, SegmentType)];
      if query.QueryError? && query.code != NotFoundCode {
        titleSaving := false;
        return;
      }
      if query.QueryError? {
        calls := calls + [InsertSegment(TitleRow(userId.value, newTitle, now))];
      } else {
        calls := calls + [UpdateSegmentTitle(query.row, newTitle, now)];
      }
      if write.Ok? {
        editorTitle := newTitle;
      }
      titleSaving := false;
    }

    /** `handleTitleFinish` (blur or Enter): leave edit mode and start saving the title as it
        now reads; the title handed to the save is returned. */
    method HandleTitleFinish() returns (started: bool, title: string)
      modifies this`isEditingTitle, this`titleSaving
      ensures !isEditingTitle
      ensures title == editorTitle
      ensures started <==> !old(titleSaving) && Truthy(userId)
      ensures titleSaving == (old(titleSaving) || started)
    {
      isEditingTitle := false;
      title := editorTitle;
      started := BeginSaveTitle();
    }
  }

  /** A second finish while a title save is in flight starts nothing and leaves the flag set,
      and the flag is down again once the first save settles. */
  method OverlappingTitleFinish() returns (first: bool, second: bool, savingAfter: bool)
    ensures first && !second && !savingAfter
  {
    var d := new Dashboard(Some("u1"));
    d.HandleTitleChange("My widget");
    var t1;
    first, t1 := d.HandleTitleFinish();
    var t2;
    second, t2 := d.HandleTitleFinish();
    var _ := d.FinishSaveTitle(t1, Row(7), Ok(()), "2024-01-01T00:00:00.000Z");
    savingAfter := d.titleSaving;
  }

  /** The snippet a new editor starts with passes the preview's marker check. */
  lemma DefaultSnippetReachesPreview()
    ensures Includes(CodeEditor.DefaultSnippet, PreviewPane.Marker)
  {
    IncludesMiddle(CodeEditor.SnippetHead, PreviewPane.Marker, CodeEditor.SnippetTail);
  }
}
