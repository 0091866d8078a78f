# inkflow core, modelled in Dafny

inkflow is a browser app that prints handwriting-practice sheets. This project models its three pieces of logic:

- **Sheet layout and settings state** (`scripts/ui.js`, module `UI`).
  - The settings object `state` is a map from field names to JavaScript values.
  - `DEFAULT_STATE` is the merge base of `loadState`.
  - `renderSheet` is a pure render plan. `SheetPlan` gives the guide rows and the text overlay. `App.RenderSheet` builds that plan row by row in a loop.
  - The input handlers and the mode-switch handler update `state`. Choosing the alphabet mode overwrites the text.
  - `generateContent` folds the streamed tokens into the text.
- **Generation session** (`scripts/ai.js`, module `AI`). The class `AppLLM` has the fields `engine`, `ready`, `modelId` and `aborted`.
  - `Load` checks for WebGPU, then records and persists the model id, then creates the engine.
  - `Generate` builds the message list and forwards the non-empty deltas of a chunk stream, in order, until `stop()` takes effect.
  - Progress signals are converted to whole percentages.
- **Practice-text formatter** (`scripts/helpers.js`, module `Helpers`). `formatPracticeText` repeats the first letter of the trimmed input 50 times, separated by spaces. In every other mode it returns the input unchanged.

Files: `wrappers.dfy` (Option, Result), `helpers.dfy`, `ai.dfy`, `ui.dfy`.

How the model treats the runtime:
- Whatever the browser or the model runtime does becomes an input: whether WebGPU exists, whether the import and engine creation succeed, the progress signals, the chunk stream, the stored record, and the parsed numbers `parseInt(guideSize)` / `parseFloat(textScale)` (`UI.Metrics`).
- `stop()` arriving during a generation is an index `stopAt`: the call arrives while chunk `stopAt` is awaited.
- What the page writes to storage is the ghost fields `App.written` and `AppLLM.storedModelId`.

Where the code departs from what a reader might expect, the model follows the code:
- A failed engine creation keeps the previous `engine` and `ready`, not an "unloaded" session. The new `modelId` stays recorded.
- `generate` checks for an engine, not for `ready`.
- `showGuides`, `paperSize` and `orientation` are never read. Guides are always drawn, and the page height is always 297 mm.
- Fields of the stored record that the defaults do not have are kept in `state`, not dropped.
- Progress percentages go up only when the runtime's signals do (`AI.ReportsMonotone`). The code itself does not enforce it.

## Model

| member | source | states |
|---|---|---|
| `Helpers.LeadingWhitespace` | scripts/helpers.js:37 | the count of leading whitespace characters: all of them are whitespace, and the next character (if any) is not |
| `Helpers.TrailingWhitespace` | scripts/helpers.js:37 | the count of trailing whitespace characters: all of them are whitespace, and the character before them (if any) is not |
| `Helpers.Trim` | scripts/helpers.js:37 | `trim()` is the slice of the input that starts after its leading whitespace, every character outside that slice is whitespace, and the slice neither starts nor ends with whitespace |
| `Helpers.SliceFacts` | scripts/helpers.js:37 | a slice starting at the first non-whitespace character, with only whitespace outside it, is empty exactly when the string is all whitespace, and otherwise starts with that character |
| `Helpers.TrimFirst` | scripts/helpers.js:37 | `trim()` is empty exactly when the input is all whitespace, and otherwise starts with the input's first non-whitespace character |
| `Helpers.TrimmedIsFixed` | scripts/helpers.js:37 | a string with no whitespace at either end is its own trim |
| `Helpers.Join` | scripts/helpers.js:38 | `join` of no parts is empty; otherwise the result starts with the first part |
| `Helpers.JoinedCopiesAt` | scripts/helpers.js:38 | n ≥ 1 one-character strings `c` joined by single spaces have length 2n-1, with `c` at every even index and a space at every odd index |
| `Helpers.Repeated` | scripts/helpers.js:38 | `Array(n).fill(c).join(' ')` is empty for n = 0; otherwise it has length 2n-1, with `c` at every even index and a space at every odd index |
| `Helpers.Letter` | scripts/helpers.js:37 | the repeated letter is never whitespace; it is the first non-whitespace character of the input, or `'A'` when there is none |
| `Helpers.FormatPracticeText` | scripts/helpers.js:34-41 | any mode other than `repeat-letter` returns the text unchanged; `repeat-letter` returns 99 characters: 50 copies of the letter, each pair separated by one space |
| `Helpers.FormattedIsTrimmed` | scripts/helpers.js:37-38 | a repeat-letter sheet has no leading or trailing whitespace |
| `Helpers.FormatIdempotent` | scripts/helpers.js:35-39 | formatting a repeat-letter sheet again returns the same sheet |
| `AI.Percent` | scripts/ai.js:23-26 | the reported percentage is the floor of 100 times the signal's fraction (object `progress` or bare number), and 0 for any other signal |
| `AI.PercentInRange` | scripts/ai.js:24-26 | a fraction in [0, 1] gives a percentage in [0, 100] |
| `AI.PercentMonotone` | scripts/ai.js:25-26 | a larger fraction never gives a smaller percentage |
| `AI.Reports` | scripts/ai.js:23-28 | one percentage per signal, in order, when `updateProgress` is a function; none otherwise |
| `AI.ReportsMonotone` | scripts/ai.js:23-28 | if the signals' fractions never decrease, neither do the reported percentages |
| `AI.ChosenModel` | scripts/ai.js:11 | the id `load` uses: the requested id when it is non-empty, otherwise the current one; empty only when both are |
| `AI.InitialModel` | scripts/ai.js:4 | the session starts with the stored model id when it is non-empty, otherwise the built-in default; never empty |
| `AI.Messages` | scripts/ai.js:41-43 | the message list has 1 or 2 entries; the system message comes first exactly when `system` is non-empty; the user message is always last |
| `AI.Token` | scripts/ai.js:47 | a chunk yields a non-empty token exactly when it carries non-empty content, and then the token is that content |
| `AI.Delivered` | scripts/ai.js:45-49 | the forwarded tokens are never empty and never outnumber the chunks |
| `AI.Processed` | scripts/ai.js:45-46 | the loop examines the whole stream, or stops at the chunk where `stop()` took effect |
| `AI.DeliveredAppend` | scripts/ai.js:45-49 | forwarding a concatenated stream forwards the tokens of the first part, then those of the second (stream order is kept) |
| `AI.DeliveredMembers` | scripts/ai.js:47-48 | a string is forwarded exactly when it is non-empty and is the content of some chunk |
| `AI.DeliveredPrefix` | scripts/ai.js:46 | the tokens a stopped generation forwards are a prefix of those of the full stream |
| `AI.Concat` | scripts/ui.js:175 | the accumulated text of no tokens is empty; otherwise it starts with the first token |
| `AI.ConcatAppend` | scripts/ui.js:175 | the accumulated text of two token runs is the text of the first followed by the text of the second |
| `AI.DeliveredSpellsStream` | scripts/ai.js:47-48 | skipping empty or missing deltas loses no text: the forwarded tokens spell the whole stream's content |
| `AI.StreamExample` | scripts/ai.js:45-49 | the chunks "Hel", "lo", " world" are forwarded as exactly those three tokens, which spell "Hello world" |
| `AI.StopExample` | scripts/ai.js:46 | stopping after the first of three chunks forwards exactly one token |
| `AI.AppLLM.constructor` | scripts/ai.js:1-4 | a new session has no engine, is not ready, and takes its model id from storage or the default |
| `AI.AppLLM.Load` | scripts/ai.js:10-32 | without WebGPU, or if the import fails, it throws and changes nothing; otherwise the chosen id (argument if non-empty, else current) is recorded and persisted before creation; success sets the engine for that id and `ready`; a failed creation keeps the old engine and `ready` |
| `AI.AppLLM.Generate` | scripts/ai.js:38-50 | without an engine it throws "Model not loaded", leaving the abort flag alone; otherwise it resets the flag, sends `Messages(system, userText)` and forwards exactly the tokens of the chunks before `stop()` took effect; the abort flag ends raised exactly when `stop()` arrived; it throws from the stream exactly when the stream rejects and `stop()` did not break the loop first; `engine`, `ready` and `modelId` never change |
| `AI.AppLLM.Stop` | scripts/ai.js:52 | sets the abort flag and nothing else |
| `UI.Loaded` | scripts/ui.js:44-51 | after a parsed record, every default field is present, stored fields take the stored value and other default fields keep the default; a missing or malformed record leaves the state as it was |
| `UI.ReloadRoundTrip` | scripts/ui.js:44-51 | a saved state (which holds every default field) loads back equal to itself |
| `UI.UnreadableRecordKeepsDefaults` | scripts/ui.js:44-51 | with a malformed or missing record, the loaded state equals the defaults |
| `UI.WithMode` | scripts/ui.js:136-139 | choosing a mode records it; `alphabet` also sets the text to the fixed A–Z / a–z string; any other mode leaves the text and every other field unchanged |
| `UI.RowsPerPage` | scripts/ui.js:204-207 | the row count is the floor of 297 / line height: for a positive line height, the largest n with n × line height ≤ 297; for a negative one, the largest n with n × line height ≥ 297 |
| `UI.RowsPerPageExamples` | scripts/ui.js:206-207 | 14 mm guides give 21 rows; guides taller than 297 mm give 0 rows |
| `UI.RowCount` | scripts/ui.js:212 | the loop appends `RowsPerPage` rows for a positive line height and none for a negative one |
| `UI.FontSize` | scripts/ui.js:205 | the font size is line height × scale, or × 0.75 when the scale is 0 or NaN; for a positive line height, a scale in (0, 1] gives a positive size no larger than the line height |
| `UI.GuideRow` | scripts/ui.js:213-220 | a row is one line high and has exactly three rules, top, middle and bottom, all in the guide colour; only the middle one is dashed |
| `UI.Block` | scripts/ui.js:225-236 | the text layer has the state's font family and colour, the computed font size, the line height, 10/10/1 mm padding, the text or `''` when it is falsy, and the baseline offset or 0 when it is falsy |
| `UI.SheetPlan` | scripts/ui.js:200-239 | the sheet holds exactly two layers, the guides then the text block of `Block` |
| `UI.SheetPlanShape` | scripts/ui.js:200-239 | a render plan has two layers, guides then text. There are RowsPerPage rows (none for a negative line height). Each row is one line high, with top solid, middle dashed and bottom solid rules in the guide colour. The text block has the font, colour and line height; 10/10/1 mm padding; the text or `''`; the baseline offset or 0; font size line height × scale, or × 0.75 when the scale is 0 or NaN |
| `UI.DefaultSheet` | scripts/ui.js:5-17 | the default settings render 21 rows under text of size 11.2 mm showing the default sentence |
| `UI.Accumulate` | scripts/ui.js:171-176 | the accumulated text is the in-order concatenation of the tokens handed to `onToken` |
| `UI.Topic` | scripts/ui.js:122 | the topic is the input's value, or "fun facts" when it is empty |
| `UI.PromptQuotesTopic` | scripts/ui.js:169 | the prompt is the fixed request head, the topic verbatim in double quotes, then the fixed tail |
| `UI.PromptInjective` | scripts/ui.js:169 | two topics give the same prompt exactly when they are equal |
| `UI.App.constructor` | scripts/ui.js:19 | the page starts from a copy of the defaults with an empty sheet |
| `UI.App.LoadState` | scripts/ui.js:44-51 | the state becomes `Loaded(state, record)` and keeps every default field |
| `UI.App.SaveState` | scripts/ui.js:65-67 | the saved record is the current state, and loading that record back gives the current state |
| `UI.App.RenderSheet` | scripts/ui.js:200-239 | empties the sheet and leaves exactly `SheetPlan(state, metrics)`; `state` is not modified, so rendering an unchanged state twice gives the same sheet |
| `UI.App.Init` | scripts/ui.js:24-33 | loads the stored record, then renders it |
| `UI.App.UpdateSetting` | scripts/ui.js:71-113 | an input handler stores the input's string in its field, re-renders and saves |
| `UI.App.SelectMode` | scripts/ui.js:133-144 | the state becomes `WithMode(state, mode)` and is saved; only the alphabet mode re-renders |
| `UI.App.GenerateContent` | scripts/ui.js:147-194 | loads the model (with the session's current id) unless the session is ready, so a ready session keeps its engine and id; a missing WebGPU, a failed import or a failed creation is returned as that error, with the session's engine and `ready` unchanged; once an engine exists the abort flag ends raised exactly when `stop()` arrived; with no error the text becomes the concatenation of the tokens before `stop()`, re-rendered and saved; on any error the page's state, sheet and saved record are unchanged |

## Left out

- The DOM and jQuery are not modelled: element creation, CSS classes, populating the inputs, button state, the progress bar, the live `$output.val` echo during streaming, `alert` and `console`. The rendered sheet is a value (`seq<Layer>`). The CSS font family's `monospace` fallback and the `mm` units are implicit.
- `localStorage` and `JSON.parse`/`JSON.stringify` are not modelled. The stored record arrives already classified as absent, malformed or parsed, and a parsed non-object stands for its own fields. Saving is a ghost field.
- `parseInt`/`parseFloat` are not modelled. Their results are the `Metrics` input. A NaN line height (zero rows, NaN font size in the source) is not modelled. A line height of 0 is excluded, because the source's row loop then never ends.
- Floating point: sizes and fractions are exact reals. JavaScript computes 14 × 0.8 as 11.200000000000001; the model gives 11.2. NaN appears only as the `textScale` fallback.
- JavaScript values: NaN and the distinctions between objects and arrays are not modelled.
- The model runtime (`import(...)`, `CreateMLCEngine`, `chat.completions.create`) is opaque. What it does is an input (`AI.Platform`, `AI.Stream`). A failed import is `ImportFailed`, a failed creation `CreationFailed`, and a rejected `chat.completions.create` or a stream that throws while being read is `StreamFailed` (a stream that rejects after its chunks). The error messages' wording is not modelled.
- Concurrency: the `await` points and two overlapping `generate` calls sharing the abort flag are not modelled. `stop()` is an index into the stream.
- `AI.AppLLM.Generate`: always assumes an `onToken` callback, which its only caller supplies. The `typeof onToken === 'function'` check is not modelled.
- `UI.App.GenerateContent`: does not state which messages reach the engine. `AI.AppLLM.Generate` states that, for any prompt.
- `UI.App.UpdateSetting`: the text input's 300 ms debounce is not modelled (`debounce` uses timers).
- `generateId` (randomness), `printSheet` (`window.print`), `checkAI` (empty), the Enter-key handler and `scripts/main.js` (start-up wiring) are not part of this model.
- Characters: one `char` is one string element. UTF-16 surrogate pairs, which `charAt(0)` would split, are not distinguished.
