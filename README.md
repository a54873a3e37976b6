# A Different Notion — a verified model of its client core

"A Different Notion" is a small React application. A signed-in user edits a JSX snippet in a
code editor and sees it rendered in a live preview. Snippets and user profiles are kept in a
hosted backend (auth, tables, blob storage and RPC functions). This project models the
client-side behaviour of the application in Dafny and proves properties of that model:

- the text arithmetic of the editor: cursor position, the Tab key, the line-number gutter;
- loading and saving the snippet;
- the preview's gate and its error handling;
- the sign-up / sign-in form and the order in which it checks input and calls the backend;
- the profile page's validators, username and password updates, and the account-deletion gate;
- the application shell's choice of view and its email-confirmed flag;
- the dashboard's editable, saved title;
- the confirm-email screen's status transitions and render priority;
- the light/dark theme provider.

Every backend call is replaced by its reply, passed in as a parameter (`Reply`, `Ack`,
`SingleRow`, `UserLookup`). An operation that issues requests of its own returns the list of
calls it made, so "stops before calling the backend" is stated as `calls == []`. A handler that
only receives the result of a read is given the reply and records no call:
`Profile.Settings.OnProfileLoaded` (the `getProfile` query), `App.Dashboard.OnProfileLoaded`
(the `fetchUsername` query), and `App.Root.OnInitialSession` and `ConfirmEmail.Confirmation.Check`
(the `getSession` reads, passed in as the session). Three operations are split in two, a
synchronous start and a completion once the replies are known: `BeginSave`/`CompleteSave`,
`BeginSaveTitle`/`FinishSaveTitle` and `OnCodeChange`/`Settle`. Every other handler that awaits
the backend is one atomic step from its first state change to its last (see "Left out").
Components whose state changes step by step are classes, with one field per modelled
`useState`, plus the editor's caret and its pending timer. Pure logic is functions, with lemmas
about them.

Files, one module each:

| file | module | models |
|---|---|---|
| `js.dfy` | `Js` | the JavaScript built-ins used: truthiness, `\|\|`, `substring`, `split`, `includes`, `trim`, `String(n)` |
| `backend.dfy` | `Backend` | replies, users, sessions, the `code_segments` row |
| `code_editor.dfy` | `CodeEditor` | `src/components/CodeEditor.jsx` |
| `preview_pane.dfy` | `PreviewPane` | `src/components/PreviewPane.jsx` |
| `auth_form.dfy` | `AuthForm` | `src/components/AuthForm.jsx` |
| `profile.dfy` | `Profile` | `src/components/Profile.jsx` |
| `confirm_email.dfy` | `ConfirmEmail` | `src/components/ConfirmEmail.jsx` |
| `app.dfy` | `App` | `src/App.jsx` (the `App` component and the `Dashboard`) |
| `theme.dfy` | `Theme` | `src/context/ThemeContext.jsx` |

Three behaviours a reader might expect that the code does not have:

- The preview does not discard the result of an evaluation started for older code. Such a
  result still reaches the screen (`PreviewPane.StaleEvaluationShown`).
- The keyboard save shortcut starts a save even while one is in flight. Only the Save button
  is disabled while saving (`CodeEditor.Editor.PressSaveShortcut`, `CodeEditor.Editor.ClickSave`).
- A save always inserts a new table row at a new blob path. No earlier blob is removed
  (`CodeEditor.Editor.CompleteSave`).

## Model

| member | source | states |
|---|---|---|
| Js.OrElse | src/components/CodeEditor.jsx:193 | `a \|\| b` on strings is one of its operands, `a` when `a` is non-empty, and is non-empty exactly when either operand is |
| Js.Clamp | src/components/CodeEditor.jsx:125 | a `substring` index is clamped into `[0, len]` and kept when already inside |
| Js.Substring | src/components/CodeEditor.jsx:125 | `substring` is never longer than the string and is the slice between the two indices, in either order, when both are in range |
| Js.CountZero | src/components/CodeEditor.jsx:142-143 | a string has no occurrence of a character exactly when the count is zero |
| Js.CountConcat | src/components/CodeEditor.jsx:200 | occurrence counts of a concatenation add up |
| Js.Split | src/components/CodeEditor.jsx:142 | `split` gives one more piece than there are separators, and no piece holds a separator |
| Js.SplitThenJoin | src/components/CodeEditor.jsx:142 | joining the pieces of a split with the separator gives back the string |
| Js.SplitWhole | src/components/CodeEditor.jsx:200 | a string without the separator splits into itself alone |
| Js.SplitAfterPiece | src/components/CodeEditor.jsx:142 | a separator-free piece followed by the separator splits off as the first piece |
| Js.JoinThenSplit | src/components/CodeEditor.jsx:163 | splitting the join of separator-free pieces gives back the pieces |
| Js.LastPieceIsTail | src/components/CodeEditor.jsx:144 | the last piece of a split is the separator-free tail of the string, preceded by a separator when shorter than the string |
| Js.IncludesIffOccurs | src/components/PreviewPane.jsx:17 | `includes` holds exactly when the needle occurs at some position |
| Js.IncludesMiddle | src/components/PreviewPane.jsx:17 | a string includes every string it was built around |
| Js.IncludesChar | src/components/AuthForm.jsx:44 | `includes('@')` is membership of the character `@` |
| Js.TrimStart | src/components/AuthForm.jsx:151 | the result is a suffix starting with a non-white-space character, and everything removed is white space |
| Js.TrimEnd | src/components/AuthForm.jsx:151 | the result is a prefix ending with a non-white-space character, and everything removed is white space |
| Js.Trim | src/components/AuthForm.jsx:151 | `trim` never lengthens the string, and its result neither starts nor ends with white space |
| Js.TrimIsSlice | src/components/AuthForm.jsx:151 | `trim` removes only white space and only at the two ends: the result is the slice after the leading white space, followed by nothing but white space |
| Js.TrimIdempotent | src/components/AuthForm.jsx:151 | trimming twice is trimming once |
| Js.NatToString | src/components/CodeEditor.jsx:162-163 | the decimal rendering is non-empty, all digits, without a leading zero |
| Js.NatToStringRoundTrip | src/components/CodeEditor.jsx:162-163 | reading the rendered digits back gives the number |
| CodeEditor.CursorAt | src/components/CodeEditor.jsx:140-146 | the line is one plus the line breaks before the caret; the column is one plus the length of the break-free text before the caret on its line |
| CodeEditor.CursorWithinGutter | src/components/CodeEditor.jsx:199-201 | for one text and one caret, the line `CursorAt` computes lies within `LineNumbers` of that text, and a caret at the end of the text is on its last line |
| CodeEditor.TabSplice | src/components/CodeEditor.jsx:123-126 | Tab replaces the selection by two spaces and keeps the text before and after it |
| CodeEditor.TabInsertsIndent | src/components/CodeEditor.jsx:119-131 | with an empty selection, taking the two spaces out again gives back the text |
| CodeEditor.Range | src/components/CodeEditor.jsx:201 | `Array.from` with `i + 1` is `[1..n]` |
| CodeEditor.LineNumbers | src/components/CodeEditor.jsx:199-201 | the gutter numbers the lines from 1, one number per line of the buffer |
| CodeEditor.BlobPath | src/components/CodeEditor.jsx:161-162 | the storage path starts with the owner's id and a `/`, and ends in `.jsx` |
| CodeEditor.BlobPathPieces | src/components/CodeEditor.jsx:161-163 | the storage path splits into owner, segment type and file, and the file's digits read back as the timestamp |
| CodeEditor.SavedRow | src/components/CodeEditor.jsx:176-186 | the inserted row points at the blob just written, with the fixed title, language and privacy |
| CodeEditor.Editor.constructor | src/components/CodeEditor.jsx:8-13 | a new editor is empty, not saving, cursor at 1:1 |
| CodeEditor.Editor.SetContent | src/components/CodeEditor.jsx:95-104 | only a changed buffer re-arms the debounce timer |
| CodeEditor.Editor.FireTimer | src/components/CodeEditor.jsx:96-101 | when the timer fires, the highlight and the preview code both catch up with the buffer |
| CodeEditor.Editor.Edit | src/components/CodeEditor.jsx:106-110 | typing stores the text and recomputes the cursor from the caret |
| CodeEditor.Editor.PressTab | src/components/CodeEditor.jsx:119-131 | Tab splices two spaces and moves the caret past them; the status bar is left as it was |
| CodeEditor.TabLeavesStatusBarStale | src/components/CodeEditor.jsx:119-131 | Tab does not update the cursor position, so after a Tab over three typed lines the status bar shows line 3 while the gutter numbers one line |
| CodeEditor.Editor.LoadSavedCode | src/components/CodeEditor.jsx:20-86 | the latest stored code is shown; with nothing stored, the default snippet; any failure sets one fixed message and keeps the buffer; the calls on every path, and the timer re-armed exactly when the buffer changed |
| CodeEditor.Editor.BeginSave | src/components/CodeEditor.jsx:149-151 | a save raises `saving`, clears the error, and captures the buffer that will be uploaded |
| CodeEditor.Editor.ClickSave | src/components/CodeEditor.jsx:213-217 | the Save button starts a save only when no save runs, capturing the current buffer |
| CodeEditor.Editor.PressSaveShortcut | src/components/CodeEditor.jsx:133-137 | the shortcut starts a save unconditionally, capturing the current buffer |
| CodeEditor.Editor.CompleteSave | src/components/CodeEditor.jsx:148-197 | the buffer captured at the start is uploaded, then a row pointing at it is inserted; a failed upload ends the save with no insert; the first failure is reported (its message or the fallback); `saving` is lowered on every path |
| PreviewPane.ErrorText | src/components/PreviewPane.jsx:53 | the shown message is the error's own when non-empty, and 'Failed to render preview' when it is empty |
| PreviewPane.Display | src/components/PreviewPane.jsx:64-76 | an error wins over an element, and an element over the placeholder |
| PreviewPane.Preview.constructor | src/components/PreviewPane.jsx:5-6 | no element and no error at first |
| PreviewPane.Preview.OnCodeChange | src/components/PreviewPane.jsx:9-59 | both fields are cleared; empty code shows nothing; code without the marker is refused; a syntax error is reported; otherwise evaluation starts |
| PreviewPane.Preview.Settle | src/components/PreviewPane.jsx:43-54 | a valid element is stored; any other outcome becomes its error message; the other field is kept |
| PreviewPane.StaleEvaluationShown | src/components/PreviewPane.jsx:9-59 | an evaluation started before the code was emptied still puts its element on screen |
| AuthForm.ValidateUsername | src/components/AuthForm.jsx:5-10 | a sign-up name is accepted exactly when it has 3 to 20 characters from `[A-Za-z0-9_]` |
| AuthForm.ValidateUsernameOrder | src/components/AuthForm.jsx:5-10 | the checks run as required, too short, too long, characters; the first failure picks the message |
| AuthForm.SignUpFlow | src/components/AuthForm.jsx:30-141 | every sign-up path ends with a message and `loading` cleared; the first backend call, if any, is the email-status check; at most four calls |
| AuthForm.SignInFlow | src/components/AuthForm.jsx:142-184 | sign-in always calls the backend; `loading` stays set exactly when there is no error, which happens only after a successful sign-in call |
| AuthForm.SignInWith | src/components/AuthForm.jsx:172-183 | the sign-in call is appended to the calls so far; a refusal gives the fixed credentials message and clears `loading`, and success keeps it set |
| AuthForm.SubmitFlow | src/components/AuthForm.jsx:29-30 | the mode chooses the branch; only a sign-in can end without an error, and exactly then `loading` stays set |
| AuthForm.SignUpLocalChecks | src/components/AuthForm.jsx:31-48 | mismatch, then length, then `@`; each stops before any backend call, and a backend call happens only when all three pass |
| AuthForm.SignUpRejections | src/components/AuthForm.jsx:50-95 | an existing email, an invalid username, an unavailable username each stop with their message and the calls made so far |
| AuthForm.SignUpCreatesOnlyValidAccounts | src/components/AuthForm.jsx:30-141 | an account is created only for input that passed every check, and sign-up always clears `loading` |
| AuthForm.SignInByUsername | src/components/AuthForm.jsx:143-170 | a name without `@` is looked up trimmed first; an unknown name stops before sign-in; a found address is signed in with |
| AuthForm.SignInFailureMessage | src/components/AuthForm.jsx:172-183 | a refused sign-in always shows one fixed message; only a successful sign-in leaves `loading` set, with no error |
| AuthForm.Form.constructor | src/components/AuthForm.jsx:13-21 | sign-in mode, not loading, no error, empty fields |
| AuthForm.Form.HandleSubmit | src/components/AuthForm.jsx:24-189 | the error, `loading` and the calls made are those of the submission flow of the current mode |
| AuthForm.Form.SubmitSignUp | src/components/AuthForm.jsx:30-141 | the step-by-step sign-up ends in the state the sign-up flow describes |
| AuthForm.Form.SubmitSignIn | src/components/AuthForm.jsx:142-184 | the step-by-step sign-in ends in the state the sign-in flow describes |
| AuthForm.Form.ToggleMode | src/components/AuthForm.jsx:295-304 | switching mode clears the error and empties all four fields |
| Profile.ValidateUsername | src/components/Profile.jsx:19-30 | a profile name is accepted exactly when it has 3 to 20 characters from `[A-Za-z0-9]`; length is checked first |
| Profile.ProfileStricterThanSignUp | src/components/Profile.jsx:26-28 | every name the profile page accepts, sign-up accepts; sign-up accepts and the profile page refuses exactly the names with an underscore |
| Profile.UnderscoreNameAcceptedOnlyAtSignUp | src/components/Profile.jsx:26-28 | `abc_` is a valid sign-up name that the profile page refuses |
| Profile.Settings.constructor | src/components/Profile.jsx:5-13 | not loading, no messages, empty fields, confirmation hidden |
| Profile.Settings.OnProfileLoaded | src/components/Profile.jsx:32-45 | a found profile's name fills the field; a failed query changes nothing |
| Profile.Settings.UpdateUsername | src/components/Profile.jsx:47-82 | validation, then "already taken" for a name another profile holds, then the update (which also writes `updated_at: null`), with the exact calls on each path; success only when all pass; `loading` ends false; never both banners |
| Profile.Settings.UpdatePasswordSubmit | src/components/Profile.jsx:84-112 | length before confirmation; the backend is called only when both pass; success empties both fields; `loading` ends false |
| Profile.Settings.DeleteAccount | src/components/Profile.jsx:114-141 | without the exact word `DELETE` only the error changes; a failed deletion reports its message; a successful one signs out and leaves `loading` set |
| Profile.Settings.OpenDeleteConfirm | src/components/Profile.jsx:243 | the button shows the confirmation |
| Profile.Settings.CancelDelete | src/components/Profile.jsx:271-274 | Cancel hides the confirmation and empties the typed text |
| Profile.BothBannersAfterRefusedDelete | src/components/Profile.jsx:115-118 | the refused confirmation keeps an earlier success banner, so both banners show |
| ConfirmEmail.ScreenFor | src/components/ConfirmEmail.jsx:52-107 | a truthy error wins, then the spinner, then the confirmation request; a confirmed status renders nothing |
| ConfirmEmail.Checked | src/components/ConfirmEmail.jsx:9-35 | after a check the status is never "checking"; no user means unconfirmed; an RPC error is recorded and forces unconfirmed; otherwise confirmed iff a confirmation timestamp is set |
| ConfirmEmail.CheckCalls | src/components/ConfirmEmail.jsx:13-21 | the status RPC is called exactly when there is a session user |
| ConfirmEmail.Confirmation.constructor | src/components/ConfirmEmail.jsx:5-6 | the status starts as checking, with no error |
| ConfirmEmail.Confirmation.Check | src/components/ConfirmEmail.jsx:9-35 | the step-by-step check ends in the state and calls that `Checked` and `CheckCalls` give |
| ConfirmEmail.Confirmation.OnAuthEvent | src/components/ConfirmEmail.jsx:41-45 | only `SIGNED_IN` and `USER_UPDATED` check again; other events change nothing |
| ConfirmEmail.CheckLeavesSpinner | src/components/ConfirmEmail.jsx:70-81 | after one check the spinner is gone |
| ConfirmEmail.EmptyErrorShowsConfirmScreen | src/components/ConfirmEmail.jsx:30-34 | an error with an empty message is recorded but the confirmation request shows |
| App.SelectView | src/App.jsx:349-355 | no session gives the auth form, an unconfirmed session the confirm-email screen, and a confirmed one the dashboard |
| App.Root.constructor | src/App.jsx:322-323 | no session and not confirmed at first |
| App.Root.OnInitialSession | src/App.jsx:326-331 | the session is stored; the flag follows the user only when there is one |
| App.Root.OnAuthStateChange | src/App.jsx:335-342 | the session is stored and the flag is exactly "the user's address is confirmed", false with no user |
| App.DashboardOnlyWhenConfirmed | src/App.jsx:349-355 | with a consistent flag, the dashboard shows exactly for a confirmed user |
| App.DashboardWithoutUser | src/App.jsx:326-331 | an initial session without a user keeps an earlier true flag |
| App.DisplayName | src/App.jsx:217 | the shown name is the username, or `user` when it is empty |
| App.TitleRow | src/App.jsx:143-152 | the row inserted for a title has no file path and the fixed type, language and privacy |
| App.Dashboard.constructor | src/App.jsx:11-18 | the title starts as `Code Editor`, not editing, not saving |
| App.Dashboard.OnProfileLoaded | src/App.jsx:24-38 | only a non-empty loaded name replaces the username |
| App.Dashboard.LoadSavedTitle | src/App.jsx:91-115 | without a user id nothing is asked; a non-empty stored title replaces the shown one; errors change nothing |
| App.Dashboard.HandleTitleChange | src/App.jsx:176-179 | typing sets the title |
| App.Dashboard.StartEditingTitle | src/App.jsx:279 | the pencil enters edit mode |
| App.Dashboard.HandlePreviewCodeUpdate | src/App.jsx:121-123 | the editor's code becomes the preview's code |
| App.Dashboard.BeginSaveTitle | src/App.jsx:125-127 | a title save starts only when none is in flight and there is a user id, and raises the flag |
| App.Dashboard.FinishSaveTitle | src/App.jsx:128-173 | no segment: insert a title row; a segment: update its title; other query errors write nothing; the title changes only on a successful write; the flag is lowered on every path |
| App.Dashboard.HandleTitleFinish | src/App.jsx:181-184 | finishing leaves edit mode and starts saving the current title |
| App.OverlappingTitleFinish | src/App.jsx:125-127 | a second finish during a save starts nothing |
| App.DefaultSnippetReachesPreview | src/components/CodeEditor.jsx:60-75 | the default snippet contains the preview's `React.createElement` marker |
| Theme.ThemesAgreeOnKeys | src/context/ThemeContext.jsx:3-46 | the table has exactly `light` and `dark`, with the same keys at the top level and in the editor record |
| Theme.Toggled | src/context/ThemeContext.jsx:54-56 | the toggle always yields a theme of the table, different from a current one; anything but "light" becomes "light" |
| Theme.ToggledTwice | src/context/ThemeContext.jsx:54-56 | toggling twice returns to the theme one started from |
| Theme.UseTheme | src/context/ThemeContext.jsx:65-71 | the hook returns the provider's value, and throws its fixed message without a provider |
| Theme.Provider.constructor | src/context/ThemeContext.jsx:51 | the theme starts as `light` |
| Theme.Provider.Value | src/context/ThemeContext.jsx:52-59 | the exposed record is the table's record for the current name |
| Theme.Provider.ToggleTheme | src/context/ThemeContext.jsx:54-56 | the name flips and stays in the table |
| Theme.ToggleTwice | src/context/ThemeContext.jsx:51-56 | from the start, two toggles return to `light` |

## Left out

- The backend client (`src/config/supabaseClient.js`) is not part of this model. Every call is a reply passed in as a parameter, and its network behaviour is not modelled.
- Payloads that the code reads without a check (`emailStatus.exists` on a `null` status, `data.text()` on a download) are assumed present. The outer `catch` of `handleSubmit` (src/components/AuthForm.jsx:185-188) that a `TypeError` would reach is therefore not modelled.
- The Prism highlighter is an opaque text-to-markup function (`Editor.highlight`). Highlighting itself is not modelled.
- Evaluating the preview code (`AsyncFunction`, `React.isValidElement`) is given as an outcome (`Compilation`, `Evaluation`). JavaScript execution is not modelled.
- Timers are modelled as one pending flag. The 50 ms delay and wall-clock time are not modelled. Timestamps are parameters.
- JavaScript string lengths count UTF-16 code units, but the model counts characters. Characters outside the Basic Multilingual Plane (password length, username length, caret offsets) are therefore counted differently.
- React's batching and stale closures are not modelled: each handler reads the current field values. The exception is the save: `CodeEditor.Editor.CompleteSave` uploads the buffer captured when the save started (src/components/CodeEditor.jsx:168), so an edit made during the save is not uploaded.
- The browser's form validation is not modelled. Every AuthForm input is `required` (src/components/AuthForm.jsx:221, 237, 253, 269), the sign-up address field is `type="email"` (src/components/AuthForm.jsx:216), and both profile password fields are `required` (src/components/Profile.jsx:200, 223). With validation on, the browser blocks the submit before `handleSubmit` or `updatePassword` runs, so "Username is required" and the sign-up `@` check (src/components/AuthForm.jsx:44) are reached only when that validation is bypassed. The model treats them as reachable.
- The Dashboard's `loadSavedContent` effect (src/App.jsx:58-89) is not modelled: it discards what it loads.
- Pure display toggles are not modelled: the dropdown and its click-outside handler, password visibility, input focus and scroll sync. They do not interact with the modelled state.
- The component lifecycle is not modelled. Hiding the editor (src/App.jsx:303-310) unmounts it, and its buffer, unsaved edits, `error` and `saving` are lost. Showing it again mounts a new editor, which corresponds to `new CodeEditor.Editor(...)` followed by `LoadSavedCode`. A save still running then no longer disables the new editor's Save button. Opening the profile panel (src/App.jsx:250-252) unmounts both the editor and the preview in the same way. `Profile` takes only `session` (src/components/Profile.jsx:4) and never calls the `onClose` it is given, so the panel offers no way back to the dashboard short of a reload.
- AuthForm.ValidateUsername: the "less than 20 characters" message is kept as written, although a name of exactly 20 characters is accepted.
- Signing out from the menu (`handleLogout`, src/App.jsx:117-119) and the confirm screen's Sign Out button (src/components/ConfirmEmail.jsx:97) are not modelled. The only `SignOut` in the model is the call `Profile.Settings.DeleteAccount` makes.
- The handlers that set `loading` and then await the backend are each one atomic step: `AuthForm.Form.HandleSubmit`, `Profile.Settings.UpdateUsername`, `Profile.Settings.UpdatePasswordSubmit`, `Profile.Settings.DeleteAccount` and `CodeEditor.Editor.LoadSavedCode`. The in-flight state between their first and last update is therefore not observable, and neither are the buttons disabled by it (src/components/AuthForm.jsx:276, src/components/Profile.jsx:176, 231, 264) nor a second event arriving while a request is pending.
