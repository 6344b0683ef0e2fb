# Inkwell core in Dafny

A model of the core of Inkwell, a browser Markdown editor with project memory and AI prompt
actions, together with proofs about it. It covers:

- **The editing engine of `main.js`.**
  - Every edit goes through the textarea primitive `setRangeText(replacement, start, end, mode)` of
    the HTML Living Standard ("APIs for the text control selections"). `TextControl` models it as
    the value-level `RangeText` and as the `TextArea` class whose methods change the value and the
    selection in place.
  - The `Editor` module models wrapping the selection (`insertText`), toggling a line prefix
    (`insertAtLineStart`), inserting a block (`insertBlock`), the Tab branch and the AI-result
    insertion.
  - `ListContinuation` models the Enter branch, which continues or ends checklists, unordered lists
    and ordered lists.
  - Each edit is a function on a `Buffer` (text and selection), and a method that performs the same
    `setRangeText` calls on a `TextArea` and is proved to produce that function's result.
- **The derived values of `main.js`.** These are the word, character and line counts, the
  empty-preview test, the download file name and the imported project's name (`EditorStats`,
  `FileNames`). They also include the project `loadLastProject` opens at start-up (`App`).
- **`ai.js`.**
  - The fixed registry of seven prompt actions and their prompt builders.
  - The status-to-error mapping and the empty-response check.
  - `calculateCost`, computed with exact `real` arithmetic.
  - The session ledger of tokens and cost. It is the `Ledger` class, whose `CallOpenAI` adds the
    usage only after a successful call.
  - The HTTP exchange is a function parameter from the request to the decoded reply.
- **`storage.js`.**
  - The project list, the active project id and the settings, held by the `Store` class.
  - The relative dates of `formatDate`, on the millisecond difference.
  - The one-time migration of the old storage keys, on a `map<string, string>`.

The ECMAScript built-ins the code relies on are in `JsStrings`:

- `trim` and the `\s` class (WhiteSpace and LineTerminator);
- `lastIndexOf`, with its clamping of a negative position;
- `indexOf`;
- `substring`;
- the decimal conversions.

Behaviour worth noting:

- The AI-result insertion puts either `"\n\n"` or nothing before the result, never a single
  `"\n"` (main.js:654-655).
- The download name replaces each disallowed character by `_` rather than dropping it
  (main.js:526).
- Only a missing or empty reply text counts as an empty response. A reply of white space alone is
  accepted and returned trimmed to the empty string (ai.js:142).

## Model

| member | source | states |
|---|---|---|
| JsStrings.Trim | main.js:93 | `trim` gives the empty string exactly for all-white-space text, otherwise a string with no white space at either end that sits between white-space runs of the input |
| JsStrings.LastIndexOf | main.js:207 | `lastIndexOf(c, position)` is the last occurrence at or before the clamped position (a negative position is 0), or -1 when there is none |
| JsStrings.IndexOf | main.js:208 | `indexOf(c, position)` is the first occurrence at or after the clamped position, or -1 when there is none |
| JsStrings.DecimalRoundTrip | main.js:406 | reading back the decimal form of an integer with `parseInt` gives the integer (exact integers; see Left out) |
| TextControl.RangeText | main.js:194 | `setRangeText` throws exactly when start > end; otherwise the clamped range is replaced, the rest is kept, and `select` selects the inserted text while `end` puts the cursor after it |
| TextControl.SelectRange | main.js:198-199 | setting the selection keeps the text and, for an in-range ordered pair, selects exactly that range |
| TextControl.TextArea.SetRangeText | main.js:194 | the textarea's new state is `RangeText` of the old one; when it throws nothing changes |
| TextControl.TextArea.SetSelectionStart | main.js:198 | the `selectionStart` setter as the standard defines it |
| TextControl.TextArea.SetSelectionEnd | main.js:199 | the `selectionEnd` setter as the standard defines it |
| TextControl.NormalizeNewlines | main.js:144 | the value a textarea holds after assignment has no CR and is no longer than the assigned text |
| TextControl.NormalizeKeepsPlainText | main.js:144 | text without CR is kept exactly as assigned |
| TextControl.NormalizeCrLf | main.js:144 | a CR LF pair in the assigned text becomes a single LF |
| TextControl.NormalizeLoneCr | main.js:144 | a CR not followed by LF becomes a single LF |
| TextControl.NormalizeIdempotent | main.js:144 | normalising line breaks twice is normalising once |
| TextControl.TextArea.SetValue | main.js:144 | the textarea holds the assigned text with CR LF and lone CR turned into LF; if that differs from the old value the cursor moves to its end, otherwise nothing changes |
| Editor.LineStart | main.js:207 | the line start is at or before the cursor, follows a newline or is 0, and no newline lies between it and the cursor |
| Editor.LineEnd | main.js:208-209 | the line end is the first newline at or after the cursor, or the length |
| Editor.LineStartUnique | main.js:207 | any newline-free stretch that starts a line and ends at the cursor begins at the line start |
| Editor.LineEndUnique | main.js:208-209 | any newline-free stretch from the cursor to a newline or the end ends at the line end |
| Editor.WrapSelection | main.js:187-200 | the text becomes before + (selection, or placeholder when it is empty) + after around the rest; the placeholder alone is selected when used, otherwise the whole replacement |
| Editor.WrapThenUnwrap | main.js:187-194 | stripping `before` and `after` around the wrapped span gives back the original text when something was selected |
| Editor.WrapSelectionSelects | main.js:194-200 | the selected text afterwards is the placeholder when it was used, else before + selection + after |
| Editor.InsertText | main.js:187-203 | the textarea ends in the state `WrapSelection` gives |
| Editor.TogglePrefixAsWrittenThrows | main.js:205-216 | as written, at offset 0 of a text beginning with a newline the line start is 1 and `setRangeText` throws |
| Editor.TogglePrefix | main.js:205-216 | only the cursor's line changes: the prefix is removed when the line starts with it, else added; the cursor ends after the rewritten line |
| Editor.TogglePrefixAgrees | main.js:207 | apart from that one case, the corrected line start gives the same edit as the code |
| Editor.TogglePrefixAtFirstLine | main.js:207-215 | in that case the corrected operation puts the prefix on the empty first line |
| Editor.TogglePrefixCursorLine | main.js:212-216 | after toggling, the cursor is at the end of the rewritten line, which starts where the old one did |
| Editor.TogglePrefixTwice | main.js:212-216 | toggling a prefix the line did not start with twice restores the text |
| Editor.InsertAtLineStart | main.js:205-220 | the textarea ends in the state `TogglePrefix` gives |
| Editor.BlockPrefix | main.js:224-226 | the prefix is at most two newlines, none for empty text, and the fewest that make the text end in a blank line |
| Editor.InsertBlockResult | main.js:222-228 | the selection is replaced by prefix + block + newline, with the cursor after it |
| Editor.BlockStartsParagraph | main.js:224-228 | the inserted block starts the text or follows a blank line |
| Editor.InsertBlock | main.js:222-231 | the textarea ends in the state `InsertBlockResult` gives |
| Editor.IndentResult | main.js:351-357 | Tab inserts two spaces at the selection start and puts the cursor after them |
| Editor.IndentUndone | main.js:353-354 | deleting the two characters before the cursor undoes Tab |
| Editor.IndentWithTab | main.js:351-357 | the textarea ends in the state `IndentResult` gives |
| Editor.ResultPrefix | main.js:653-655 | the prefix is a blank line exactly when the text before the cursor is non-empty and does not end a line |
| Editor.InsertResultResult | main.js:650-656 | the selection is replaced by prefix + result, with the cursor after it |
| Editor.ResultStartsLine | main.js:652-656 | the inserted result starts a line, after a blank line when a prefix was added, and appears verbatim |
| Editor.InsertAiResult | main.js:650-657 | the textarea ends in the state `InsertResultResult` gives |
| ListContinuation.MatchChecklistIff | main.js:368 | the checklist matcher succeeds exactly with the indent and box mark the pattern `^(\s*)- \[([ xX])\] ` captures |
| ListContinuation.MatchBulletIff | main.js:383 | the unordered matcher succeeds exactly with the indent and marker of `^(\s*)([*+-]) ` |
| ListContinuation.MatchOrderedIff | main.js:398 | the ordered matcher succeeds exactly with the indent and the whole digit run of `^(\s*)(\d+)\. ` |
| ListContinuation.MatchListItemIff | main.js:367-399 | the handler takes the first pattern, in the order tried, that the line fits |
| ListContinuation.MatchListItemNone | main.js:360-411 | no item is found exactly when the line fits none of the patterns |
| ListContinuation.EnterAsWrittenAgrees | main.js:361-365 | the Enter branch as written never throws and agrees with the corrected line start |
| ListContinuation.EnterIgnoresOtherLines | main.js:360-411 | a line that fits no pattern is left to the browser |
| ListContinuation.EnterEndsList | main.js:372-404 | on a bare item the line up to the cursor becomes a newline |
| ListContinuation.EnterContinuesList | main.js:375-406 | on any other item the newline, indent and next marker are inserted at the cursor, with the cursor after them |
| ListContinuation.ContinuedLine | main.js:376-406 | the line opened by Enter starts after the inserted newline and holds the indent and the next marker |
| ListContinuation.NewItemLine | main.js:376-406 | the opened line is read back as the next item and is bare |
| ListContinuation.NewItemMatches | main.js:376-406 | the handler reads the opened line as the continued item, with no pattern preferred over it |
| ListContinuation.NewItemBare | main.js:376-406 | the opened line trims to the new marker alone |
| ListContinuation.EnterTwice | main.js:372-406 | Enter on an item and Enter again leaves a blank line: the second press removes the marker the first added |
| ListContinuation.ChecklistExample | main.js:368 | `- [ ] a` is an unticked checklist item without indent |
| ListContinuation.NextNumberExample | main.js:406 | after item `1.` the next marker is `2. ` |
| ListContinuation.EnterOnOnlyLine | main.js:360-406 | Enter at the end of a one-line non-bare item appends the continuation and puts the cursor after it |
| ListContinuation.ChecklistEnterExample | main.js:367-380 | Enter after `- [ ] a` gives `- [ ] a\n- [ ] ` with the cursor at 14 |
| ListContinuation.OrderedEnterExample | main.js:397-410 | Enter after `1. first` gives `1. first\n2. ` with the cursor at 12 |
| ListContinuation.HandleEnter | main.js:360-411 | the key is handled exactly when `PressEnter` applies, the textarea then ends in its result, and otherwise nothing changes |
| EditorStats.SplitSpace | main.js:93 | `split(/\s+/)` yields at least one piece |
| EditorStats.SplitCoversText | main.js:93 | any text is its `split(/\s+/)` pieces joined by the non-empty white-space runs between them |
| EditorStats.SplitJoin | main.js:93 | splitting words joined by any non-empty runs of white space gives back the words |
| EditorStats.SplitTrimmed | main.js:93 | trimmed non-blank text splits into non-empty pieces without white space |
| EditorStats.WordsOfText | main.js:93 | non-blank trimmed text is its words joined by non-empty white-space runs, and its word count is the number of those words |
| EditorStats.CountJoinedWords | main.js:93 | n words separated by non-empty white-space runs, with any white space before and after, count n words |
| EditorStats.BlankHasNoWords | main.js:93 | the word count is 0 exactly for blank text, which is also when the preview shows its placeholder (main.js:59) |
| EditorStats.SplitLines | main.js:86 | `split('\n')` yields at least one piece and no piece holds a newline |
| EditorStats.JoinSplitLines | main.js:95 | joining the lines with newlines gives back the text |
| EditorStats.LineCountIsNewlinesPlusOne | main.js:95 | the line count is the number of newlines plus one |
| EditorStats.ComputeStats | main.js:91-95 | characters are the length, words are 0 exactly for blank text, lines are newlines plus one |
| FileNames.Sanitize | main.js:526 | each character outside `[a-zA-Z0-9-_]` becomes `_` and the rest are kept, position by position |
| FileNames.SanitizeAllowed | main.js:526 | the result has only allowed characters and equals the input exactly when the input has only allowed characters |
| FileNames.SanitizeIdempotent | main.js:526 | sanitising twice is sanitising once |
| FileNames.DownloadNameShape | main.js:523-526 | the name ends in `.md` after allowed characters, keeps an allowed name, has the name's length plus 3, and is `README.md` without a name |
| FileNames.ImportName | main.js:547 | the imported name is a prefix of the file name |
| FileNames.ImportStripsExtension | main.js:547 | `.md`, `.markdown` and `.txt` are removed from the end |
| FileNames.ImportKeepsOtherNames | main.js:547 | a name without those extensions is kept, otherwise exactly one extension goes |
| Storage.ActiveValue | storage.js:122-128 | a missing or empty id stores no active project, any other id is stored as is |
| Storage.FindIndex | storage.js:96 | `findIndex` gives the first index with the id, or -1 when no project has it |
| Storage.RemoveAll | storage.js:110 | `filter` keeps exactly the projects with a different id |
| Storage.Store.CreateProject | storage.js:74-87 | the new project goes first with both dates set to now, becomes the active project, and its id is returned |
| Storage.Store.UpdateProject | storage.js:94-106 | an absent id returns null and changes nothing; otherwise the first match is merged with the patch and stamped, and it is returned |
| Storage.Store.DeleteProject | storage.js:108-116 | every project with the id goes, and the active id is cleared only when it was that id |
| Storage.Store.SetActiveProjectId | storage.js:122-128 | a falsy id removes the active id, any other is stored |
| Storage.Store.SaveSettings | storage.js:143-145 | all settings fields are stored |
| Storage.FindProjectFirst | storage.js:89-92 | `getProject` returns the first project with the id, and null exactly when none has it |
| Storage.CreateThenGet | storage.js:74-92 | a created project is found by its id and the older projects follow it in order |
| Storage.UpdateThenGet | storage.js:94-106 | the updated project is found with the patched fields, the same id and creation date and the new update date; other entries and the order are unchanged |
| Storage.DeleteThenGet | storage.js:108-111 | after a delete no project has the id |
| Storage.RemoveAllAppend | storage.js:110 | deleting works piece by piece along the list, so the others keep their order |
| Storage.RemoveAbsent | storage.js:110 | deleting an id nobody has changes nothing |
| Storage.ActiveRoundTrip | storage.js:118-128 | a non-empty id set is read back, while `''` and null clear it |
| Storage.SettingsRoundTrip | storage.js:134-145 | nothing or unreadable settings give the defaults `{'', true, 14}`, saved settings are read back, and each stored field is read back while each missing one takes its default |
| Storage.FormatDateThresholds | storage.js:37-48 | just now under a minute, then whole minutes 1-59, hours 1-23, days 1-6, and the calendar date from a week on |
| Storage.FormatDateCount | storage.js:41-48 | the number in a relative label is the floored count of the unit it names |
| Storage.MigrateEffect | storage.js:11-22 | existing new keys are kept, old projects and active id are copied only when the new key is unset, old settings are dropped, the new keys are left as they are when no copy happens, and no other key changes |
| Storage.MigrateIdempotent | storage.js:11-22 | migrating twice is migrating once |
| Ai.PromptRoundTrip | ai.js:22-78 | each prompt embeds the input verbatim: it is read back from between the template's parts, and different inputs give different prompts |
| Ai.ActionFor | ai.js:186-188 | an action found for a name has that name as its key |
| Ai.ActionForKeys | ai.js:22-78 | each action is found under its key, and only the seven keys find one |
| Ai.InheritedKeyFound | ai.js:186-188 | as written, `getAiAction('toString')` finds an inherited property though no action has that key |
| Ai.GetAiActionFinds | ai.js:186-188 | the corrected lookup returns each action's configuration under its key |
| Ai.GetAiActionNone | ai.js:186-188 | the corrected lookup returns null exactly for names that are not one of the seven keys |
| Ai.LookupAgrees | ai.js:186-188 | apart from inherited names, the lookup as written finds exactly the corrected one's actions |
| Ai.ErrorForStatusCases | ai.js:125-137 | 429, 401 and 402/403 map to their errors, checked in that order; any other status shows the service's message or `API error: ` and the status |
| Ai.CostAdditive | ai.js:83-85 | the cost of two batches is the sum of their costs, no tokens cost nothing, and a cost is never negative |
| Ai.NoKeyNoRequest | ai.js:101-106 | without a key the outcome does not depend on the service: no request is made |
| Ai.CallOutcome | ai.js:100-168 | a call succeeds exactly with a key, an ok reply and non-empty text; an error status fails with its mapped error and an ok reply without text fails with `EmptyResponse`; the text is trimmed and the returned usage is exactly what the session gains |
| Ai.RecordKeepsPriced | ai.js:151-156 | recording a priced usage keeps the session cost the price of its tokens |
| Ai.CallKeepsPriced | ai.js:147-156 | a successful call keeps the session cost the price of its tokens |
| Ai.ExecuteInheritedKey | ai.js:173-180 | as written, `executeAiAction('constructor', ...)` throws a TypeError instead of the unknown-action error |
| Ai.ExecuteAgrees | ai.js:173-181 | for every other name, execution as written and as corrected agree |
| Ai.ExecuteDispatch | ai.js:173-181 | an unknown id fails with the unknown-action error, and a known one sends its system prompt and its built prompt |
| Ai.Ledger.constructor | ai.js:18-19 | the session starts with no tokens and no cost |
| Ai.Ledger.CallOpenAI | ai.js:100-168 | the result is `Call` on the session before; failures leave the counters unchanged and success records the usage |
| Ai.Ledger.ExecuteAiAction | ai.js:173-181 | the result is `Execute` on the session before, with the same ledger updates |
| Ai.RecordAllTotals | ai.js:153-156 | the session after a series of calls is the starting session plus the calls' totals |
| Ai.TotalsPermutation | ai.js:153-156 | the totals do not depend on the order of the calls |
| Ai.SessionOrderIndependent | ai.js:153-156 | the session reached by a series of calls is the same in any order |
| Ai.RecordAllKeepsPriced | ai.js:151-156 | a series of priced calls keeps the session cost the price of its tokens |
| App.ResumeChoice | main.js:123-135 | a project is resumed whenever there is one: the last active project if it still exists, else the first |
| App.Workspace.LoadProject | main.js:137-146 | a found project is shown and made active, with the cursor at the end of its normalised content unless the editor already held that content; an unknown id changes nothing, the name display and title included |
| App.Workspace.LoadLastProject | main.js:123-135 | the resumed project is shown, or a starter project is created and shown when there is none |

## Left out

- Network and JSON:
  - the `fetch` request, its headers and its body (ai.js:108-123);
  - JSON decoding of the reply (ai.js:126, 139);
  - the service is a function parameter from the request to the decoded reply.
  - A network-level failure (`fetch` rejecting, so no reply at all) is not represented. The program propagates that exception and leaves the session unchanged.
- Ai.ChatReply: a reply body that is not JSON or has unexpected field types is not represented; the fields are already decoded.
- Ai.CalculateCost: exact `real` arithmetic, not IEEE doubles, so rounding of the sums is not modelled.
- JsStrings: strings are sequences of characters, while JavaScript counts UTF-16 code units; lengths and offsets differ for characters outside the Basic Multilingual Plane.
- Storage:
  - JSON serialisation of the project list (storage.js:61-72): the store holds the parsed list, and unreadable stored text is not modelled.
  - `generateId`, `new Date().toISOString()`, `new Date()` in `formatDate`: parameters.
  - The calendar date of `toLocaleDateString` (storage.js:50-54): only the choice of showing it.
- Storage.SettingsOf: stored fields are present or absent; a stored `null` field, a non-object JSON value and extra fields are not modelled.
- Storage.Store.CreateProject: the defaults of `name` and `content` are not modelled; the callers always pass both.
- Ai.Ledger.CallOpenAI: `getSessionStats` returns the live `sessionTokens` object, so a session object held from an earlier call changes later. The model returns a value.
- ListContinuation.Next, JsStrings.DecimalRoundTrip: exact integers are modelled. JavaScript numbers lose precision past 2^53 (`parseInt` of `9007199254740993` is `9007199254740992`, and adding 1 rounds back to it), and from 10^21 `String` writes exponent form (`1e+21`), which is no ordered-list marker; `NewItemLine` and `EnterTwice` do not hold of the program for such numbers.
- CR characters in a `setRangeText` replacement: the model inserts them as given, while the browser's value would show them as LF. The editor's own replacements hold no CR; only a reply text from the AI service could.
- Ai.ExecuteAsWritten: the message of the `TypeError` is not modelled.
- `handleEditorInput`, `focus`, toasts, modals, the clipboard, `FileReader` and `Blob` downloads (main.js:195, 202, 515-560, 650-660): DOM and I/O. After an import only `ImportName` is modelled, not the `createProject`/`loadProject` calls around it.
- Rendering with `marked` and `hljs` (main.js:70-78): foreign libraries. Only the placeholder test is modelled.
- App.Workspace.LoadProject: `updatePreview`, `updateLineNumbers`, `updateStats`, the save status and the project list rendering are not modelled.
- Keyboard shortcuts other than Tab and Enter, the toolbar table, scroll synchronisation, the resizer, debounce and auto-save timers, and `beforeunload`: DOM events, timers and floating-point geometry.
- The cost display via `toFixed`: IEEE float formatting.

## Findings

| source | as written | input that shows it | evidently intended | confidence | as-written member | corrected member |
|---|---|---|---|---|---|---|
| main.js:207 | `lastIndexOf('\n', start - 1) + 1` as the line start | value `"\nabc"`, cursor 0: the position -1 is clamped to 0 and the newline at 0 is found, so the line start is 1 and the line end is 0. `setRangeText` then throws IndexSizeError and the heading or list button does nothing | the empty first line is edited: the text becomes the prefix followed by `"\nabc"` | not executed | Editor.TogglePrefixAsWrittenThrows | Editor.TogglePrefix |
| ai.js:187 | `AI_ACTIONS[actionId] \|\| null` | `getAiAction('toString')` returns the inherited `Object.prototype.toString` function, not null | null for every name that is not one of the seven keys | not executed | Ai.InheritedKeyFound | Ai.GetAiActionNone |
| ai.js:174-179 | `AI_ACTIONS[actionId]` tested with `!action` | `executeAiAction('constructor', 'x')` passes the test and throws a TypeError when calling the missing `buildPrompt`, instead of `Unknown AI action.` | the unknown-action error | not executed | Ai.ExecuteInheritedKey | Ai.ExecuteDispatch |
