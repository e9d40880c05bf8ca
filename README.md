# Vietnamese primary-school question generator — a Dafny model

The application is a single-page front end. A teacher fills in a form: subject, grade, question
type, quantity, difficulty, topic, exercise type, tone, extra requirements, and two flags for
answers and LaTeX. The form is turned into one fixed Vietnamese prompt and sent to a generative
model. The returned Markdown is shown in a result panel. From that panel the result can be copied,
downloaded, or saved to the browser's storage. A modal lists the saved results newest first; it can
delete one or select one.

This project models the logic behind that flow:

- the form record and its single-field updates;
- the case-insensitive topic suggestions;
- the prompt template and the error mapping of the service;
- the generation lifecycle of the top-level component (start, then success or failure, then
  loading cleared);
- the display priority and action visibility of the result panel, its save into storage and its
  download file name;
- the saved-questions modal: load, delete, select, confirm, and the preview `truncate`.

Modules follow the source files:

| module | source |
|---|---|
| `FormTypes` | `types.ts` |
| `Gemini` | `services/geminiService.ts` |
| `Application` | `App.tsx` |
| `Config` | `components/ConfigPanel.tsx` |
| `Output` | `components/OutputPanel.tsx` |
| `Recall`, `Truncation` | `components/SavedQuestions.tsx` |
| `Storage` | the `localStorage` slot the two panels share |
| `Optional`, `Text`, `Lists` | helpers: option/result types, characters and numerals, reversal and subsequences |
| `Scenarios` | end-to-end runs through the shared storage |

Components whose state the source updates in place are classes whose methods modify their fields:

- `App` holds the form record and the session (content, loading flag, error).
- `ConfigPanel` holds the topic query and the focus flag. It writes into the `App`'s form.
- `OutputPanel` holds the view mode, the status line and the modal flag.
- `SavedQuestionsPanel` holds the shown list and the selection.
- `LocalStorage` is one slot, shared by reference between the two panels.

Pure code is written as functions with lemmas. Clock readings, the provider's reply, and whether a
browser write succeeded are all parameters.

Where the code and its description differ, the model follows the code:

- A delete writes back the list as shown, newest first. This reverses the stored chronological
  order (`Recall.ReloadAfterDeleteIsChronological`, `Scenarios.DeleteStoresNewestFirst`).
- Titles count the records stored at save time, so they can repeat after a delete
  (`Scenarios.TitleRepeatsAfterDelete`).
- A delete whose storage write throws still updates the shown list. It leaves the slot and the
  selection as they were, because the state update runs before the write.
- A load that fails to parse keeps the list shown before. On mount that list is the initial empty
  one.

## Model

| member | source | states |
|---|---|---|
| Storage.Parse | components/SavedQuestions.tsx:36 | Parsing the slot fails exactly on a corrupt slot. A missing slot reads as the empty array. |
| Recall.WithoutId | components/SavedQuestions.tsx:45 | The filtered list keeps exactly the records whose id differs, in their order (a subsequence), each as many times as it occurs in the input; records with the id occur zero times. |
| Recall.Loaded | components/SavedQuestions.tsx:34-41 | The list a load leaves on screen: the stored array reversed, or the previous list when the slot does not parse. Its properties are stated by `Recall.LoadedNewestFirst`. |
| Recall.WithoutAbsentId | components/SavedQuestions.tsx:45 | Deleting an id that no record carries changes nothing. |
| Recall.WithoutIdIdempotent | components/SavedQuestions.tsx:45 | Deleting an id twice equals deleting it once. |
| Recall.WithoutIdAppend | components/SavedQuestions.tsx:45 | Filtering distributes over concatenation. |
| Recall.WithoutIdReverse | components/SavedQuestions.tsx:37-45 | Filtering commutes with reversal. |
| Recall.LoadedNewestFirst | components/SavedQuestions.tsx:34-41 | Loading shows the stored records in reverse order (element `i` is stored element `n-1-i`). A missing slot shows an empty list; a corrupt slot leaves the list as it was. |
| Recall.ReloadAfterDeleteIsChronological | components/SavedQuestions.tsx:37-47 | A load, then a delete written back, then a reload shows the survivors in stored (oldest-first) order. So the delete reversed what storage holds. |
| Recall.SavedQuestionsPanel.constructor | components/SavedQuestions.tsx:16-17 | The modal starts with an empty list and no selection. |
| Recall.SavedQuestionsPanel.Load | components/SavedQuestions.tsx:30-41 | The shown list becomes the loaded view of the slot. The selection is unchanged. |
| Recall.SavedQuestionsPanel.Delete | components/SavedQuestions.tsx:43-54 | The shown list loses the id. On a successful write the slot holds that newest-first list and a matching selection is cleared. On a failed write the slot and the selection are unchanged. |
| Recall.SavedQuestionsPanel.Select | components/SavedQuestions.tsx:56-59 | The question becomes the selection, and its content is emitted at once. |
| Recall.SavedQuestionsPanel.ConfirmUse | components/SavedQuestions.tsx:167-171 | The selected content is emitted again, then a close request. |
| Truncation.TrimStart | components/SavedQuestions.tsx:22 | The result is a suffix of the input that does not start with whitespace. Everything dropped is whitespace. |
| Truncation.TrimEnd | components/SavedQuestions.tsx:22-27 | The result is a prefix of the input that does not end with whitespace. Everything dropped is whitespace. |
| Truncation.CollapseWhitespace | components/SavedQuestions.tsx:22 | The result has single plain spaces only and is no longer than the input. It starts with a space exactly when the input starts with whitespace. Where the spaces go is fixed by `Truncation.CollapseBetweenWords`. |
| Truncation.CollapseBetweenWords | components/SavedQuestions.tsx:22 | For text ending in a word, a non-empty whitespace run and text starting with a word, the run becomes exactly one space and each side is collapsed on its own. |
| Truncation.CollapseLast | components/SavedQuestions.tsx:22 | The collapsed text ends in a space exactly when the input ends in whitespace, and otherwise in the input's last character. |
| Truncation.VisibleCollapse | components/SavedQuestions.tsx:22 | Collapsing whitespace keeps every non-whitespace character, in order. |
| Truncation.Normalize | components/SavedQuestions.tsx:22 | The collapsed, trimmed line is on one line. It keeps the input's non-whitespace characters in order and is no longer than the input. |
| Truncation.NormalizeIdempotent | components/SavedQuestions.tsx:22 | Normalizing twice equals normalizing once. |
| Truncation.NormalizeOfWords | components/SavedQuestions.tsx:22 | For text that starts and ends with a word, the trim removes nothing: normalizing only collapses whitespace. |
| Truncation.NormalizeJoin | components/SavedQuestions.tsx:22 | Two pieces of text that start and end with a word, joined by any whitespace run, normalize to the two normalized pieces with one space between them. |
| Truncation.CutLine | components/SavedQuestions.tsx:25-27 | The cut is a prefix of the first `n` characters and is itself on one line. |
| Truncation.Truncate | components/SavedQuestions.tsx:20-28 | An empty input gives `""`. A line of at most `n` characters is returned exactly. A longer one gives a one-line prefix of its first `n` characters followed by `...`, at most `n + 3` long. |
| Truncation.TruncateAtWordBoundary | components/SavedQuestions.tsx:25-27 | When the last space within `n` lies past `floor(0.6 n)`, the preview stops exactly at that space. |
| Truncation.TruncateHardCut | components/SavedQuestions.tsx:25-27 | Otherwise the preview is the first `n` characters, less a trailing space. |
| Output.ShowActions | components/OutputPanel.tsx:246 | The test `content && !isLoading && !error`, with an empty error string counted as no error. It is tied to the display by `Output.ActionsExactlyWithContent`. |
| Output.RenderContent | components/OutputPanel.tsx:87-186 | Exactly one of five bodies. Loading beats an error, an error beats empty content, and only non-empty content reaches the view-mode choice, which shows that content. |
| Output.ActionsExactlyWithContent | components/OutputPanel.tsx:246 | Copy, save and download are offered exactly when the content itself is displayed. Otherwise the view mode makes no difference. |
| Output.DownloadFileName | components/OutputPanel.tsx:66 | The name is `cau-hoi-`, then a `T`-free prefix of the timestamp, then `.md`. |
| Output.DownloadFileNameOfTimestamp | components/OutputPanel.tsx:66 | For a `date` + `T` + `time` timestamp, the name carries exactly the date. |
| Output.Title | components/OutputPanel.tsx:46 | The title is the fixed prefix "Câu hỏi " followed by decimal digits that read back as the count. |
| Output.TitlesEqualIffCountsEqual | components/OutputPanel.tsx:46 | Two titles are equal exactly when the counts they were made from are. |
| Output.Appended | components/OutputPanel.tsx:42-49 | One record is pushed at the end and the earlier records are untouched. The new record has the content verbatim, the clock's id and timestamp, and the title for length + 1. |
| Output.SavedSlot | components/OutputPanel.tsx:41-55 | The slot changes only on a successful write over a parsable slot. It then holds the old array plus one record with the saved content. |
| Output.OutputPanel.constructor | components/OutputPanel.tsx:21 | The view starts rendered, with no status and the modal closed. |
| Output.OutputPanel.SetViewMode | components/OutputPanel.tsx:209-219 | A toggle sets exactly the chosen mode. |
| Output.OutputPanel.Copy | components/OutputPanel.tsx:26-36 | The status reports whether the clipboard write succeeded. |
| Output.OutputPanel.Save | components/OutputPanel.tsx:39-57 | The slot becomes `SavedSlot` of the old slot. The status is "Đã lưu!" on success and "Lỗi khi lưu" on a corrupt slot or a failed write. |
| Output.OutputPanel.Download | components/OutputPanel.tsx:60-78 | The file is named by `DownloadFileName`, and the status reports the outcome. |
| Output.OutputPanel.ClearStatus | components/OutputPanel.tsx:30 | The timer hides the status line. |
| Output.OutputPanel.SetShowSaved | components/OutputPanel.tsx:303-307 | The modal flag takes the given value; the modal's close request sets it to false. |
| Output.OutputPanel.OpenSaved | components/OutputPanel.tsx:235-307 | The modal flag is set, and a new list panel is mounted on the same storage: it starts with no selection and has loaded the slot, so it shows `Loaded` of the slot over an empty list. |
| Output.OutputPanel.SelectSaved | components/OutputPanel.tsx:81-85 | A selected saved question is passed on exactly when the host supplied `onContentChange`. |
| Gemini.BuildPrompt | services/geminiService.ts:11-31 | The template literal as written: the role and task lines, the nine labelled fields with the `Không có` default, the formatting heading, the Markdown rule, the two flag-chosen clauses and the closing line. Its meaning is stated by `Gemini.PromptLayout`, `Gemini.PromptDeterminesFlags` and `Gemini.RequirementsVerbatim`. |
| Gemini.Labelled | services/geminiService.ts:15-23 | Line `i` of the field block is label `i`, a colon and value `i`. |
| Gemini.PromptLayout | services/geminiService.ts:11-31 | The prompt equals the tabular reference. It has the intro, then the nine labelled lines in fixed order (subject, grade, question type, quantity, difficulty, topic, exercise type, tone, requirements), then the rules heading, the Markdown rule, the answer clause, the LaTeX clause and the closing line. |
| Gemini.PromptDeterminesFlags | services/geminiService.ts:27-28 | Equal prompts have equal flags, so each flag selects a different clause. |
| Gemini.RequirementsVerbatim | services/geminiService.ts:23 | Two non-empty extra requirements that give the same prompt are equal: the value is inserted verbatim. |
| Gemini.EmptyRequirementsReadAsNone | services/geminiService.ts:23 | An empty extra requirement is written as "Không có". |
| Gemini.LoadService | services/geminiService.ts:4-8 | Loading succeeds exactly with a non-empty key, which the client carries. Otherwise it fails with the missing-key message. |
| Gemini.GenerateQuestions | services/geminiService.ts:33-42 | The promise resolves exactly when the provider answered, with its text unchanged. Every failure becomes the one fixed error. |
| Gemini.FailuresIndistinguishable | services/geminiService.ts:39-42 | Two failures cannot be told apart, whatever their reason or form. |
| Application.ErrorText | App.tsx:33 | The catch clause's message: an `Error`'s own message, otherwise "An unknown error occurred.". |
| Application.SettledDisplay | App.tsx:25-37 | After a generation the panel shows the answered text (or the placeholder when it is empty) with the actions, or the fixed failure message and no content. |
| Application.App.constructor | App.tsx:8-23 | The form starts as the default record. The session starts with no content, not loading and no error. The result panel does not forward selections. |
| Application.App.StartGenerate | App.tsx:26-28 | Loading starts, the error and the content are cleared, and the request is built from the current form. |
| Application.App.Complete | App.tsx:29-36 | Loading ends. On success the content is the text and there is no error. On failure the error is the thrown message (or the unknown-error text) and the content stays empty. The session invariant holds. |
| Application.App.Generate | App.tsx:25-37 | The whole lifecycle for one provider reply. It keeps the invariant that an error never shows beside content. |
| Config.DefaultFormIsSelectable | App.tsx:8-20 | Every select of the default form shows one of its own options. |
| Config.WithText | components/ConfigPanel.tsx:70-84 | The named text field takes the value. Every other field and both flags are unchanged. |
| Config.WithFlag | components/ConfigPanel.tsx:86-89 | The named flag takes the value. The other flag and every text field are unchanged. |
| Config.FieldsDetermineForm | types.ts:1-13 | Records that agree on every field are equal, so the two guarantees above leave nothing else to change. |
| Config.TopicsContaining | components/ConfigPanel.tsx:67 | The result keeps exactly the topics whose lower-case form contains the needle, in list order, each as many times as in the list. |
| Config.Suggestions | components/ConfigPanel.tsx:65-68 | An empty query suggests nothing. Otherwise the suggestions are exactly the topics containing the query case-insensitively, in list order. |
| Config.SuggestionsIgnoreCase | components/ConfigPanel.tsx:67 | A query and its lower-case form suggest the same topics. |
| Config.ConfigPanel.constructor | components/ConfigPanel.tsx:62-63 | The query starts as the form's topic, unfocused. |
| Config.ConfigPanel.InputChange | components/ConfigPanel.tsx:70-73 | The form becomes `WithText` of the old form. The topic field stays in step with the form. |
| Config.ConfigPanel.SelectChange | components/ConfigPanel.tsx:81-84 | The same, for a select. Every select still shows one of its options. |
| Config.ConfigPanel.CheckboxChange | components/ConfigPanel.tsx:86-89 | The form becomes `WithFlag` of the old form. The selects stay valid and the topic stays in step. |
| Config.ConfigPanel.TopicChange | components/ConfigPanel.tsx:75-79 | The query and the form's topic take the same value. |
| Config.ConfigPanel.SuggestionClick | components/ConfigPanel.tsx:91-95 | Both take the suggestion, focus is cleared and the dropdown is hidden. |
| Config.ConfigPanel.Focus | components/ConfigPanel.tsx:128-131 | With focus, the dropdown shows exactly when there are suggestions. |
| Config.ConfigPanel.BlurTimerFires | components/ConfigPanel.tsx:129-131 | After the blur delay, focus is cleared and the dropdown is hidden. |
| Config.ConfigPanel.PressGenerate | components/ConfigPanel.tsx:181-189 | While loading, a press does nothing. Otherwise the generation starts for the current form. |
| Text.IsSpace | components/SavedQuestions.tsx:22 | The characters of the `\s` class, which are also the characters `trim` removes. |
| Text.ToLower | components/ConfigPanel.tsx:67 | The result is never a capital, and a character that is not a capital is unchanged; whitespace stays whitespace. |
| Text.Lower | components/ConfigPanel.tsx:67 | `toLowerCase`: the same length, each character lower-cased. |
| Text.Includes | components/ConfigPanel.tsx:67 | `includes`: true exactly when the needle occurs at some position. |
| Text.LastIndexOf | components/SavedQuestions.tsx:26 | `lastIndexOf`: a position holding the character with none after it, or -1 when there is none. |
| Text.BeforeFirst | components/OutputPanel.tsx:66 | `split(c)[0]`: a prefix without `c` that is either the whole string or stops at the first `c`. |
| Text.Decimal | components/OutputPanel.tsx:46 | A count in a template literal: at least one digit, all digits, no leading zero. |
| Text.DecimalRoundTrip | components/OutputPanel.tsx:46 | Reading back the digits of a count gives the count. |
| Scenarios.DeleteStoresNewestFirst | components/SavedQuestions.tsx:37-47 | After three saves, a load and a delete of the middle record, storage holds the two survivors newest first. |
| Scenarios.TitleRepeatsAfterDelete | components/OutputPanel.tsx:46 | After two saves, a delete of the first and another save, both stored titles are "Câu hỏi 2". |
| Scenarios.CorruptSlotIsLeftAlone | components/OutputPanel.tsx:52-55 | A corrupt slot is not overwritten by a save, and the modal shows nothing. |
| Scenarios.RecallDoesNotReachSession | App.tsx:48-52 | After a generation the modal is opened through the result panel and a saved question is selected: the modal emits its content, the result panel forwards nothing, and the display is unchanged. |

## Left out

- JSX markup, styling, icons and `components/InputGroup.tsx`: presentation only.
- `vite.config.ts` and the build environment are not part of this model. The API key reaches the
  model as the parameter of `Gemini.LoadService`.
- Markdown and KaTeX rendering: the rendered view is the `RenderedMarkdown` case of `Display`.
- The provider call `generateContent`: a foreign asynchronous network call. Its outcome is the
  `ProviderReply` parameter. A response whose `text` is undefined is not modelled.
- JSON encoding and `localStorage`: the slot is `Missing | Corrupt | Stored(items)`. An empty
  stored string behaves as `Missing`, and a value that parses but is not an array behaves as
  `Corrupt`.
- Browser effects: the clipboard, `Blob`/URL/anchor mechanics and `console.error`. Their success
  or failure is a boolean parameter. The `setTimeout` timers are explicit steps (`ClearStatus`,
  `BlurTimerFires`).
- Clock and locale: `Date.now`, `toISOString`, `toLocaleString` and `formatDate` are parameters or
  left out.
- Overlapping generations: `Application.App.Complete` requires a generation in progress. Races
  between two in-flight calls are not modelled.
- `Truncation.Truncate`: lengths count code points, not UTF-16 units, and `n` is a natural number.
  `Math.floor(n * 0.6)` is `(3 * n) / 5`, which is exact at the only call site (`n = 120`).
- `Text.ToLower`: lower-cases ASCII, Latin-1 and the Vietnamese letters of the Latin Extended
  blocks only, not the whole of Unicode.
- The prompt's literal text is split into shorter concatenated pieces. The pieces join to the same
  string.
