# SnapPalette, modelled in Dafny

SnapPalette is a single-page web application. It takes a UI screenshot and has an AI
service extract the design tokens: a colour palette, type styles and a spacing scale. It
shows them, keeps the last ten analyses in browser storage, and exports them as CSS
custom properties, a Tailwind theme fragment or a JSON download.

This project models the application's logic without its UI and without the AI call. There
are three parts.

1. The shared data shapes (`types.ts`). They become datatypes, with the documented
   ranges as predicates.
2. The application state machine (`App.tsx`). Its six events are submit, resolve, reject,
   select-from-history, back and clear-history, plus the startup load. Each is a pure
   transition over a session: the state plus the browser-storage slot, held explicitly.
3. The export panel and the small integer display rules of the results screen
   (`components/AnalysisResults.tsx`). Each export is a pure string builder.

Files and modules:

| file | module | contents |
|---|---|---|
| `wrappers.dfy` | `Wrappers` | `Option` |
| `strings.dfy` | `Strings` | decimal text of integers, `join`, `split`, ASCII `toLowerCase`, line helpers |
| `types.dfy` | `Types` | roles, colour tokens, type styles, spacing, results, application state |
| `app.dfy` | `App` | session, events, transitions, render condition, history invariants |
| `export.dfy` | `Export` | CSS block, Tailwind fragment, download file name |
| `display.dfy` | `Display` | header tag, spacing bars and labels, rhythm fallback, preview size cap |

Each export is given twice.

- It is written as its template literal: the fixed lines, with each `${...}` group joined in
  its place.
- It is also written as an explicit list of lines.

The model proves three things about the two forms:

- the template is the line list joined with line breaks;
- splitting the template at line breaks gives the list back;
- the list's layout, its order and its 1-based numbering hold as stated.

Three behaviours of the code are easy to misread, and the model follows the code in each:

- Back only sets the status to idle (`App.tsx:73`). The current result is kept; it is
  just no longer shown.
- The CSS block does not deduplicate roles. Two primary colours with the same role give
  the same variable name twice (`components/AnalysisResults.tsx:241`).
- Resolve and reject are applied in whatever status they arrive in. This is because
  `App.tsx:38` updates the state from the previous state, whatever it is.

## Model

| member | source | states |
|---|---|---|
| Types.RoleNameRoundTrip | types.ts:3 | a role is exactly one of the six spellings background, primary, secondary, accent, text, neutral, and each spelling reads back as its role |
| App.Initial | App.tsx:11-16 | the application starts idle, with no current result, an empty history and no error |
| App.Mount | App.tsx:21-30 | the startup load as its `try`/`catch` intends it: a saved list replaces the history verbatim, without truncation; an absent slot, or one whose parse fails and is caught, leaves the history untouched; status, result and error are kept |
| App.MountAsWritten | App.tsx:21-30 | the startup load as written: an unreadable slot tears the application down, because its parse error is thrown while rendering, outside the `catch`; a saved list replaces the history verbatim, and an absent slot leaves it; the slot and every other field are kept |
| App.MountAsWrittenAgrees | App.tsx:21-30 | on an absent slot or a saved list, the load as written and the intended load give the same session |
| App.UnreadableSlotCrashes | App.tsx:25 | for a slot holding `{`, or any unreadable text, the load as written gives no application, while the intended load gives an empty, mirrored, bounded history |
| App.MountEstablishes | App.tsx:21-30 | after the intended startup load the history mirrors the slot; it is within the limit exactly when the saved list is, and always when there is no readable list |
| App.Submit | App.tsx:33 | submitting sets the status to analyzing and clears the error; the history, the current result and the storage are unchanged |
| App.PushHistory | App.tsx:39 | the new history has at most 10 entries and starts with the new result, followed by the old entries in their old order; below 10 nothing is dropped; at 10 only the oldest is dropped |
| App.Resolve | App.tsx:38-47 | success makes the status complete and the result current; the history is the pushed list; the storage slot holds exactly that list, so a reload shows it; the error message is not touched |
| App.ErrorText | App.tsx:52 | the shown message is the error's message, or the fixed fallback text when the message is missing or empty; it is never empty |
| App.Reject | App.tsx:48-54 | failure sets the status to error and the message from the error text; the history, the storage and the current result are unchanged |
| App.Select | App.tsx:57-60 | opening a history entry makes it the current result with status complete; the history, the error and the storage are unchanged |
| App.ClearHistory | App.tsx:62-65 | clearing empties the history and removes the slot, so a reload shows nothing; status, current result and error are unchanged |
| App.Back | App.tsx:73 | back sets the status to idle and changes nothing else; the results view is then not shown |
| App.Render | App.tsx:69-100 | the results view is shown exactly when the status is complete and there is a current result; otherwise the upload view is busy exactly while analyzing, has a history button with the entry count exactly when the history is non-empty, and has an error banner exactly in the error status |
| App.Step | App.tsx:32-74 | each event goes to its handler; only a success or a clear touches the history and the storage; only a success or an opened entry changes the current result; only a submission or a failure changes the error; a clear keeps the status |
| App.Run | App.tsx:32-74 | events apply in order; a run with no success and no clear leaves the history and the storage as they were; a run with no submission and no failure leaves the error message |
| App.RunAppend | App.tsx:32-74 | running two batches of events one after the other is the same as running them together |
| App.RunPreservesMirrored | App.tsx:38-65 | after any sequence of events that starts mirrored, the in-memory history is what a reload from the storage slot would show |
| App.RunPreservesBounded | App.tsx:39 | no sequence of events takes the history or the saved list over 10 entries |
| App.SubmitThenReject | App.tsx:32-54 | a failed attempt changes only the status and the message; history, storage and the previously current result are as before the submission |
| App.SelectFromHistory | App.tsx:115-118 | opening any entry of the history shows the results view for exactly that entry |
| App.ResolveMany | App.tsx:39 | after a run of successful analyses the history is the first ten of the new results, newest first, followed by the old history; once there is at least one success this holds from any starting history, so an over-long loaded history is cut to ten as well |
| App.EleventhEvicts | App.tsx:39 | eleven analyses from an empty history keep the last ten, newest first, and drop the first |
| App.FirstAnalysis | App.tsx:21-47 | after a fresh start with nothing saved, one submission and success give a complete state, a one-entry history, exactly that entry in storage, and the results view |
| Export.CssFixedLines | components/AnalysisResults.tsx:239-246 | the CSS block opens with `:root {` and the colours comment; after the colour groups come a blank line and the spacing comment; the last line is `}` |
| Export.CssPrimaryLines | components/AnalysisResults.tsx:241 | from the third line there is one `  --color-<role>: <hex>;` line per primary colour, in input order |
| Export.CssExtendedLines | components/AnalysisResults.tsx:242 | next there is one `  --color-ext-<n>: <hex>;` line per extended colour, with n running 1, 2, ... in input order |
| Export.CssSpaceLines | components/AnalysisResults.tsx:245 | after the spacing comment there is one `  --space-<s>: <s>px;` line per scale value, in order |
| Export.CssVars | components/AnalysisResults.tsx:239-246 | the template text is exactly the line list joined with line breaks; an empty group leaves one blank line |
| Export.CssVarsLines | components/AnalysisResults.tsx:239-246 | splitting the CSS block at line breaks gives back exactly the line list, when no hex value holds a line break |
| Export.CssVarCount | components/AnalysisResults.tsx:241-246 | the block has exactly as many variable lines as primary colours, extended colours and scale values together; no fixed line declares one |
| Export.PrimaryNamesFollowRoles | components/AnalysisResults.tsx:241 | two primary variables have the same name exactly when their colours have the same role, so repeated roles are not deduplicated |
| Export.ExtendedNamesDistinct | components/AnalysisResults.tsx:242 | extended variable names are equal exactly when their positions are equal |
| Export.TailwindFixedLines | components/AnalysisResults.tsx:249-263 | the fragment opens `module.exports`, `theme`, `extend` and `colors`; it separates the sections with `},` and the next section's opening line; it closes all four blocks |
| Export.TailwindColorLines | components/AnalysisResults.tsx:253 | the colors section holds one indented `<role>: '<hex>',` entry per primary colour, in order |
| Export.TailwindFontSizeLines | components/AnalysisResults.tsx:256 | the fontSize section holds one indented entry per type style, in order, keyed by the lower-cased label and carrying size, line height and letter spacing in px |
| Export.TailwindSpacingLines | components/AnalysisResults.tsx:259 | the spacing section holds one indented `'<s>': '<s>px',` entry per scale value, in order |
| Export.TailwindConfig | components/AnalysisResults.tsx:249-263 | the template text is exactly the line list joined with line breaks; each section's entries are joined with a line break and the indentation |
| Export.TailwindConfigLines | components/AnalysisResults.tsx:249-263 | splitting the fragment at line breaks gives back exactly the line list, when no hex value or label holds a line break |
| Export.DownloadName | components/AnalysisResults.tsx:269 | the file name is `snap_palette_`, then the id, then `.json` |
| Export.DownloadNameInjective | components/AnalysisResults.tsx:269 | two results get the same file name exactly when their ids are equal |
| Display.MakeId | services/geminiService.ts:125 | an id is `snap_` followed by the decimal digits of the creation time |
| Display.MakeIdInjective | services/geminiService.ts:125 | ids made at different times differ |
| Display.HeaderTag | components/AnalysisResults.tsx:31 | the header tag is present exactly when the id contains `_`, and it contains no `_` |
| Display.HeaderTagAfterFirst | components/AnalysisResults.tsx:31 | the tag is the text after the first `_`, up to the next `_` |
| Display.HeaderShowsTimestamp | components/AnalysisResults.tsx:31 | for an id made from a creation time, the tag is exactly that time's digits, and reading them gives the time back |
| Display.BarWidth | components/AnalysisResults.tsx:193 | a bar is 4 pixels per unit, capped at 280 |
| Display.BarWidthShape | components/AnalysisResults.tsx:193 | bar width grows with the value, is exact below 70 and is 280 exactly from 70 on |
| Display.SizeLabel | components/AnalysisResults.tsx:195 | the bar carries a label exactly when the value is at least 12, and the label ends in `px` |
| Display.SizeLabelReadsBack | components/AnalysisResults.tsx:195 | a label without its `px` is integer text that reads back as the value |
| Display.SpacingRows | components/AnalysisResults.tsx:187-196 | the spacing panel has one row per scale value |
| Display.SpacingRowsFaithful | components/AnalysisResults.tsx:187-196 | each row shows its own value; its bar has that value's capped width and carries that value's label; so no bar is wider than 280, and exactly the rows with value at least 12 are labelled |
| Display.Rhythm | components/AnalysisResults.tsx:208 | the rhythm is the third scale value, or 16 when that value is missing or zero; it is never zero |
| Display.RhythmText | components/AnalysisResults.tsx:208 | the printed rhythm figure ends in `px` and is never `0px` |
| Display.RhythmTextFaithful | components/AnalysisResults.tsx:208 | two scales print the same figure exactly when their rhythms are equal; the figure reads back as the rhythm; a scale of two values or fewer prints `16px` |
| Display.PreviewFontSize | components/AnalysisResults.tsx:147 | a preview line is drawn at the style's own size when that is at most 32, and at 32 otherwise |
| Display.PreviewFontSizeMonotone | components/AnalysisResults.tsx:147 | the capped size grows with the style's size and never exceeds it |
| Strings.IntToString | components/AnalysisResults.tsx:245 | the text of a pixel value is its decimal digits with no leading zero (a lone `0` for zero), with a leading `-` exactly when it is negative |
| Strings.ParseIntToString | components/AnalysisResults.tsx:245 | the decimal text of a pixel value is integer text that reads back as the value |
| Strings.SplitMany | components/AnalysisResults.tsx:31 | `split` returns more than one piece exactly when the separator occurs |
| Strings.JoinSplit | components/AnalysisResults.tsx:31 | joining the pieces of a split with the separator gives back the string |
| Strings.ToLowerProperties | components/AnalysisResults.tsx:256 | a lower-cased label has no upper-case letter, lower-casing twice is lower-casing once, and no line break is introduced |

## Left out

- The AI analysis call in `services/geminiService.ts` is not modelled: the SDK call, the
  base64 file reading, `URL.createObjectURL`, the clock and the API key. An analysis is an
  opaque result carried by the resolve event; a failure is the message carried by the
  reject event. Only the id format is modelled, with the clock reading as a parameter.
- The response schema in `services/geminiService.ts` is looser than `types.ts`. The model
  follows `types.ts`, and nothing in it claims that the runtime enforces those types.
- The browser storage is the explicit session field `storage`. `Saved` is a list the
  startup load can parse. `Unreadable` is text whose JSON parse throws. `None` is no
  value, or the empty string, which the load ignores. A stored value that parses to
  something other than a list is not modelled.
- App.Mount: is the intended load. It does not promise what the code does with an
  unreadable slot: the parse error escapes the `catch` and tears the application down.
  `App.MountAsWritten` models that; see "## Findings".
- Storage that refuses access is not modelled. A `getItem` that throws is caught and
  leaves the history as it was, which is what `None` gives. A `setItem` that throws inside
  the success updater (`App.tsx:40`, on denied access or a full quota) would escape the
  same way as the parse error.
- `components/UploadView.tsx` is not part of this model: the drag-and-drop and file-input
  UI. `components/Icons.tsx` is not part of this model either: it only re-exports icons.
- The history overlay's open/closed flag is not modelled; it only affects presentation.
  The clipboard copy and its timers are not modelled, and neither is the JSON body of the
  download. These are browser side effects.
- Floating-point display is not modelled: the zoom slider and percentage, the usage
  percentage, and the `space-{val/4}` hint. Pixel values are integers throughout.
- Concurrency is not modelled. A second submit while analyzing, and results arriving out
  of order, are just events in a sequence.
- Strings.ToLower: lower-cases ASCII letters only, not the full Unicode case mapping of
  `toLowerCase`.
- Strings.IntToString: is the decimal text of an integer with every digit. JavaScript
  prints integers of magnitude 10^21 or more in exponent form (`1e+21`). It also cannot
  hold integers beyond 2^53 exactly. Neither is modelled, and neither is the text of
  non-integer numbers.
- Export.CssVarsLines: requires that no hex value holds a line break, because a line break
  inside a value would split its line in two.
- Export.TailwindConfigLines: requires that no hex value or label holds a line break, for
  the same reason.
- Display.HeaderTag: gives `None` where the source indexes past the end of the split and
  renders nothing.

## Findings

| source | as written | input that shows it | evidently intended | confidence | as-written member | corrected member |
|---|---|---|---|---|---|---|
| App.tsx:21-30 | the saved text is parsed inside the `setState` updater (`App.tsx:25`), which React runs while rendering, after the `try` block has returned; the parse error escapes the `catch`, and with no error boundary the application unmounts; the slot is not cleared, so every later start fails the same way | the storage slot holds `{` | the `catch` swallows the parse error, logs it, and the application starts with an empty history | not executed | App.MountAsWritten, App.UnreadableSlotCrashes | App.Mount, App.MountEstablishes |
