/** The code editor: a text buffer with a caret, the status-bar cursor position, the Tab key,
    the line-number gutter, the debounced highlight/preview step, and loading and saving the
    buffer through the backend. */
module CodeEditor {
  import opened Js
  import opened Backend

  // ---------------------------------------------------------------------------------------
  // Pure text arithmetic

  /** A 1-based line and column, as the status bar shows them. */
  datatype Position = Position(line: nat, column: nat)

  /** The cursor position for a caret at offset `caret` of `text`: the line is one more than the
      number of line breaks before the caret, the column one more than the length of the part
      of the caret's line that precedes it. */
  function CursorAt(text: string, caret: int): (p: Position)
    ensures p.line >= 1 && p.column >= 1
    ensures var before := Substring(text, 0, caret);
            && p.line == Count(before, '\n') + 1
            && p.column - 1 <= |before|
            && '\n' !in before[|before| - (p.column - 1)..]
            && (p.column - 1 < |before| ==> before[|before| - p.column] == '\n')
  {
    var before := Substring(text, 0, caret);
    var lines := Split(before, '\n');
    LastPieceIsTail(before, '\n');
    Position(|lines|, |lines[|lines| - 1]| + 1)
  }

  /** What the Tab key inserts in place of the selection. */
  const Indent: string := "  "

  /** The buffer after Tab with the selection `[start, end)`: the selection is replaced by two
      spaces; everything before and after it is kept. */
  function TabSplice(content: string, start: int, end: int): (r: string)
    ensures 0 <= start <= end <= |content| ==>
              && |r| == |content| - (end - start) + 2
              && r[..start] == content[..start]
              && r[start..start + 2] == Indent
              && r[start + 2..] == content[end..]
  {
    Substring(content, 0, start) + Indent + Substring(content, end, |content|)
  }

  /** `[1, 2, ..., n]`. */
  function Range(n: nat): (r: seq<nat>)
    ensures |r| == n
    ensures forall i :: 0 <= i < n ==> r[i] == i + 1
  {
    if n == 0 then [] else Range(n - 1) + [n]
  }

  /** The numbers of the gutter: one per line of the buffer, counting from 1. */
  function LineNumbers(content: string): (r: seq<nat>)
    ensures |r| == Count(content, '\n') + 1
    ensures forall i :: 0 <= i < |r| ==> r[i] == i + 1
  {
    var lines := Split(content, '\n');
    Range(if |lines| > 1 then |lines| else 1)
  }

  /** For one text and one caret, the line `CursorAt` computes lies within the gutter of that
      text, and a caret at the end of the text is on its last numbered line. (The status bar
      itself can fall behind the text: see `TabLeavesStatusBarStale`.) */
  lemma CursorWithinGutter(text: string, caret: int)
    ensures CursorAt(text, caret).line <= |LineNumbers(text)|
    ensures caret >= |text| ==> CursorAt(text, caret).line == |LineNumbers(text)|
  {
    var k := Clamp(caret, |text|);
    assert Substring(text, 0, caret) == text[..k];
    assert text == text[..k] + text[k..];
    CountConcat(text[..k], text[k..], '\n');
  }

  /** Tab with an empty selection only inserts: taking the two spaces out again gives back
      the buffer. */
  lemma TabInsertsIndent(content: string, caret: int)
    requires 0 <= caret <= |content|
    ensures var r := TabSplice(content, caret, caret);
            r[..caret] + r[caret + 2..] == content && r[caret..caret + 2] == Indent
  {
    assert content == content[..caret] + content[caret..];
  }

  // ---------------------------------------------------------------------------------------
  // Persistence

  /** The code a user starts from when nothing is stored. */
  const DefaultSnippet: string := SnippetHead + "React.createElement" + SnippetTail

  /** The default snippet up to its first `React.createElement`. */
  const SnippetHead: string :=
    "function elem() {\n" +
    "  return "

  /** The rest of the default snippet. */
  const SnippetTail: string :=
    "(\n" +
    "    'div',\n" +
    "    { style: { padding: '20px', textAlign: 'center' } },\n" +
    "    React.createElement(\n" +
    "      'h2',\n" +
    "      { style: { marginBottom: '10px' } },\n" +
    "      'Welcome to Code Editor'\n" +
    "    ),\n" +
    "    React.createElement(\n" +
    "      'p',\n" +
    "      null,\n" +
    "      'Start editing to create your component'\n" +
    "    )\n" +
    "  )\n" +
    "}"

  const LoadFailedMessage: string := "Failed to load saved code"
  const NoUserMessage: string := "No authenticated user found"
  const SaveFailedMessage: string := "Failed to save code"
  /** The fixed title, language and content type of a saved snippet. */
  const SavedTitle: string := "Code Editor"
  const Language: string := "jsx"
  const ContentType: string := "text/jsx"

  /** The backend calls the editor makes, in the order it makes them. */
  datatype Call =
    | GetUser
    | FindLatestSegment(userId: string, segmentType: string)
    | Download(path: string)
    | Upload(path: string, body: string, contentType: string, upsert: bool)
    | Insert(row: SegmentRow)

  /** Where a save stores the code: `<userId>/<segmentType>/<timestamp>.jsx`. */
  function BlobPath(userId: string, segmentType: string, timestamp: nat): (path: string)
    ensures |path| > |userId| + |segmentType| + 6
    ensures path[..|userId| + 1] == userId + "/"
    ensures path[|path| - 4..] == ".jsx"
  {
    userId + "/" + segmentType + "/" + NatToString(timestamp) + ".jsx"
  }

  /** The storage path names the owner, the segment type and the time of the save, and the
      time can be read back from it. */
  lemma BlobPathPieces(userId: string, segmentType: string, timestamp: nat)
    requires '/' !in userId && '/' !in segmentType
    ensures Split(BlobPath(userId, segmentType, timestamp), '/') ==
            [userId, segmentType, NatToString(timestamp) + ".jsx"]
    ensures var file := NatToString(timestamp);
            DigitsValue(file) == timestamp
  {
    var file := NatToString(timestamp) + ".jsx";
    assert '/' !in file by {
      assert forall i :: 0 <= i < |file| - 4 ==> IsDigit(file[i]);
    }
    var parts := [userId, segmentType, file];
    assert Join(parts, '/') == BlobPath(userId, segmentType, timestamp) by {
      assert parts[1..] == [segmentType, file];
      assert [segmentType, file][1..] == [file];
      assert Join([segmentType, file], '/') == segmentType + "/" + file;
    }
    JoinThenSplit(parts, '/');
    NatToStringRoundTrip(timestamp);
  }

  /** The table row a save inserts for the blob stored at `path`. */
  function SavedRow(userId: string, segmentType: string, path: string, now: string): (row: SegmentRow)
    ensures row.filePath == Some(path) && row.userId == userId && row.segmentType == segmentType
    ensures row.title == SavedTitle && row.language == Language && !row.isPublic
    ensures row.updatedAt == now
  {
    SegmentRow(userId, segmentType, SavedTitle, Some(path), Language, false, now)
  }

  // ---------------------------------------------------------------------------------------
  // The editor component

  class Editor {
    /** The kind of snippet this editor edits (a prop, e.g. "component"). */
    const segmentType: string
    /** The syntax highlighter, an opaque text-to-markup function. */
    const highlight: string -> string

    var content: string
    var highlighted: string
    var previewCode: string
    var error: Option<string>
    var saving: bool
    var cursor: Position
    /** The caret offset in the text area. */
    var caret: int
    /** A highlight/preview timer is waiting to fire (there is never more than one). */
    var timerPending: bool

    /** A fresh editor; the effect that watches `content` has already armed its timer. */
    constructor (segmentType: string, highlight: string -> string)
      ensures this.segmentType == segmentType && this.highlight == highlight
      ensures content == "" && highlighted == "" && previewCode == "" && error == None
      ensures !saving && cursor == Position(1, 1) && caret == 0 && timerPending
    {
      this.segmentType := segmentType;
      this.highlight := highlight;
      content, highlighted, previewCode, error := "", "", "", None;
      saving, cursor, caret, timerPending := false, Position(1, 1), 0, true;
    }

    /** `setContent`: a different value re-runs the effect, which cancels the pending timer
        and arms a new one; the same value changes nothing. */
    method SetContent(text: string)
      modifies this`content, this`timerPending
      ensures content == text
      ensures timerPending == (old(timerPending) || text != old(content))
    {
      if text != content {
        content := text;
        timerPending := true;
      }
    }

    /** The pending timer fires: the highlighted view and the preview code both catch up with
        the current buffer. Without a pending timer nothing happens. */
    method FireTimer()
      modifies this`highlighted, this`previewCode, this`timerPending
      ensures !timerPending
      ensures old(timerPending) ==> highlighted == highlight(content) && previewCode == content
      ensures !old(timerPending) ==> highlighted == old(highlighted) && previewCode == old(previewCode)
    {
      if timerPending {
        highlighted := highlight(content);
        previewCode := content;
        timerPending := false;
      }
    }

    /** Typing: the text area reports its new value and caret; the status bar follows. */
    method Edit(value: string, selectionStart: int)
      modifies this`content, this`timerPending, this`cursor, this`caret
      ensures content == value && caret == selectionStart
      ensures cursor == CursorAt(value, selectionStart)
      ensures timerPending == (old(timerPending) || value != old(content))
    {
      SetContent(value);
      cursor := CursorAt(value, selectionStart);
      caret := selectionStart;
    }

    /** The Tab key: the selection becomes two spaces and the caret moves past them. The status
        bar is not recomputed. */
    method PressTab(selectionStart: int, selectionEnd: int)
      modifies this`content, this`timerPending, this`caret
      ensures content == TabSplice(old(content), selectionStart, selectionEnd)
      ensures caret == selectionStart + 2
      ensures timerPending == (old(timerPending) || content != old(content))
    {
      SetContent(TabSplice(content, selectionStart, selectionEnd));
      caret := selectionStart + 2;
    }

    /** `loadSavedCode`: fetch the latest stored segment of this type and show it, or the
        default snippet when none is stored; any failure leaves one fixed error message. */
    method LoadSavedCode(user: UserLookup, query: SingleRow<Option<string>>, download: Reply<string>)
      returns (calls: seq<Call>)
      modifies this`error, this`content, this`timerPending, this`previewCode
      ensures |calls| >= 1 && calls[0] == GetUser
      ensures user.UserFound? <==> |calls| >= 2
      ensures user.UserFound? ==> calls[1] == FindLatestSegment(user.user.id, segmentType)
      ensures (exists p :: Download(p) in calls) <==>
                user.UserFound? && query.Row? && Truthy(query.row)
      ensures user.UserFound? && query.Row? && Truthy(query.row) ==>
                calls == [GetUser, FindLatestSegment(user.user.id, segmentType), Download(query.row.value)]
      ensures user.UserFound? && (query.NotFound() || (query.Row? && !Truthy(query.row))) ==>
                error == None && content == DefaultSnippet && previewCode == DefaultSnippet
      ensures user.UserFound? && query.Row? && Truthy(query.row) && download.Ok? ==>
                error == None && content == download.data && previewCode == download.data
      ensures (|| !user.UserFound?
               || (query.QueryError? && !query.NotFound())
               || (query.Row? && Truthy(query.row) && download.Err?)) ==>
                && error == Some(LoadFailedMessage)
                && content == old(content) && previewCode == old(previewCode)
                && timerPending == old(timerPending)
      ensures user.UserFound? && !(query.Row? && Truthy(query.row)) ==>
                calls == [GetUser, FindLatestSegment(user.user.id, segmentType)]
      ensures user.UserFound? && !(query.QueryError? && !query.NotFound()) &&
              !(query.Row? && Truthy(query.row) && download.Err?) ==>
                timerPending == (old(timerPending) || content != old(content))
    {
      error := None;
      calls := [GetUser];
      if !user.UserFound? {
        error := Some(LoadFailedMessage);
        return;
      }
      calls := calls + [FindLatestSegment(user.user.id, segmentType)];
      if query.QueryError? && query.code != NotFoundCode {
        error := Some(LoadFailedMessage);
        return;
      }
      var path := if query.Row? then query.row else None;
      if Truthy(path) {
        calls := calls + [Download(path.value)];
        if download.Err? {
          error := Some(LoadFailedMessage);
          return;
        }
        SetContent(download.data);
        previewCode := download.data;
      } else {
        SetContent(DefaultSnippet);
        previewCode := DefaultSnippet;
      }
    }

    /** The Save button is enabled exactly while no save runs. */
    predicate SaveEnabled()
      reads this
    {
      !saving
    }

    /** The first, synchronous part of `saveContent`. The handler's closure holds the buffer
        of the render it belongs to; that text, returned as `code`, is what gets uploaded. */
    method BeginSave() returns (code: string)
      modifies this`saving, this`error
      ensures saving && error == None
      ensures code == content
    {
      saving := true;
      error := None;
      code := content;
    }

    /** A click on the Save button starts a save only when the button is enabled. */
    method ClickSave() returns (started: bool, code: string)
      modifies this`saving, this`error
      ensures started == old(SaveEnabled())
      ensures started ==> saving && error == None && code == content
      ensures !started ==> saving && error == old(error)
    {
      started := SaveEnabled();
      code := content;
      if started {
        code := BeginSave();
      }
    }

    /** Ctrl+Shift+S starts a save whether or not one is already running. */
    method PressSaveShortcut() returns (code: string)
      modifies this`saving, this`error
      ensures saving && error == None && code == content
    {
      code := BeginSave();
    }

    /** The rest of `saveContent`, after the backend has answered: upload `code` (the buffer
        as it was when the save started, whatever has been typed since) to a new timestamped
        path, record it in the table, report the first failure, and clear `saving` whatever
        happened. A failed upload ends the save before any row is inserted. */
    method CompleteSave(code: string, user: UserLookup, timestamp: nat, upload: Ack, insert: Ack, now: string)
      returns (calls: seq<Call>)
      modifies this`saving, this`error
      ensures !saving
      ensures |calls| >= 1 && calls[0] == GetUser
      ensures user.UserFound? <==> |calls| >= 2
      ensures user.UserFound? ==>
                calls[1] == Upload(BlobPath(user.user.id, segmentType, timestamp), code, ContentType, true)
      ensures user.UserFound? && upload.Err? ==>
                calls == [GetUser, Upload(BlobPath(user.user.id, segmentType, timestamp), code, ContentType, true)]
      ensures user.UserFound? && upload.Ok? <==> |calls| == 3
      ensures |calls| == 3 ==>
                && calls[2] == Insert(SavedRow(user.user.id, segmentType, calls[1].path, now))
                && calls[2].row.filePath == Some(calls[1].path)
      ensures error == None <==> user.UserFound? && upload.Ok? && insert.Ok?
      ensures user.UserError? ==> error == Some(OrElse(user.message, SaveFailedMessage))
      ensures user.NoUser? ==> error == Some(NoUserMessage)
      ensures user.UserFound? && upload.Err? ==> error == Some(OrElse(upload.message, SaveFailedMessage))
      ensures user.UserFound? && upload.Ok? && insert.Err? ==>
                error == Some(OrElse(insert.message, SaveFailedMessage))
    {
      calls := [GetUser];
      match user {
        case UserError(m) =>
          error := Some(OrElse(m, SaveFailedMessage));
        case NoUser =>
          error := Some(NoUserMessage);
        case UserFound(u) =>
          var path := BlobPath(u.id, segmentType, timestamp);
          calls := calls + [Upload(path, code, ContentType, true)];
          if upload.Err? {
            error := Some(OrElse(upload.message, SaveFailedMessage));
          } else {
            calls := calls + [Insert(SavedRow(u.id, segmentType, path, now))];
            if insert.Err? {
              error := Some(OrElse(insert.message, SaveFailedMessage));
            } else {
              error := None;
            }
          }
      }
      saving := false;
    }
  }

  /** Tab does not recompute the status bar: after typing three lines with the caret at the end,
      a Tab over the whole buffer leaves one numbered line while the status bar still shows
      line 3. */
  method TabLeavesStatusBarStale() returns (statusLine: nat, gutterLines: nat)
    ensures statusLine == 3 && gutterLines == 1
  {
    var editor := new Editor("component", s => s);
    editor.Edit("a\nb\nc", 5);
    assert Substring("a\nb\nc", 0, 5) == "a\nb\nc";
    assert Count("a\nb\nc", '\n') == 2;
    editor.PressTab(0, 5);
    assert editor.content == Indent;
    assert Count(Indent, '\n') == 0;
    statusLine, gutterLines := editor.cursor.line, |LineNumbers(editor.content)|;
  }
}
