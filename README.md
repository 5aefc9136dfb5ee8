# Student progress report generator, modelled in Dafny

The application is a single-page tool for teachers. A teacher connects three simulated data
providers: PowerSchool for academic records, IXL for skill practice, and an internal behaviour log.
Picking a student from the roster fills a five-field form. The form is turned into a prompt for a
hosted language model, and the model's Markdown answer is shown after it goes through a small
regex-based Markdown-to-HTML converter.

This project models the deterministic core of that application:

- `PowerSchoolService`, `IxlService` and `BehaviorService` model the three mock providers. Each has
  a fixed table keyed by student id and a fallback string for unknown ids. PowerSchool and IXL
  check their credentials when connecting; the behaviour connection takes none and always
  succeeds. PowerSchool also serves the roster.
- `GeminiService` models:
  - the prompt template (`generatePrompt`), as the list of its fixed fragments and substituted fields;
  - `generateReport`, with the API key and the remote answer as parameters.
- `ReportSection` models `SimpleMarkdown`: the per-line heading, list and bold rules, the
  split/wrap/join step, the unwrap replacements and the collapse of line breaks.
  - Its main theorem (`RenderDocument`) states what the converter returns for any document built
    from headings, list items, paragraphs with bold spans, and runs of blank lines.
  - A corrected converter is proved next to it (see Findings).
- `App` models the top-level component's state, as the class `AppState`, and `handleGenerateReport`.
- `InputSection` models the input panel's state, as the class `InputState`, and its handlers: field
  edits, the three connect buttons, student selection and the generate button.
- `Types` holds the two records of `types.ts` and the `||` fallback.

Every async handler is split at its `await`:
- a `Begin` method does what happens before the await;
- a `Finish` method takes the settled promise (`Awaited<T>`: resolved with a value, or rejected);
- a `Handle`/`Select` method runs both halves against the mock provider's answer. The mocks never
  reject.

The form's `studentData` lives on `App.AppState`. The panel holds a reference to it (`InputState.app`)
and its handlers write through it, as `setStudentData` does.

Three behaviours of the code are easy to misread; the model keeps each as the code has it:

- **Generation state.** Loading, report and error are independent flags, not one state. A failed
  name check sets the error but keeps an earlier report: see `App.AppState.BeginGenerate`.
- **Merging a selection.** The fetch results are destructured by position, although the list of
  fetches depends on which providers are connected: see Findings.
- **Rendering.** Headings and list items stay inside `<p>`, and headings are closed with `</h>`:
  see Findings and `ReportSection.HeadingItemAndBold`.

## Model

| member | source | states |
|---|---|---|
| Types.LookupOr | services/powerschoolService.ts:90 | `table[id] \|\| fallback`: a present, non-empty entry is returned as is; an absent key or a present but empty entry gives the fallback; with a non-empty fallback the result is never empty |
| PowerSchoolService.ConnectToPowerSchool | services/powerschoolService.ts:73-81 | succeeds exactly when url, client id and client secret are all non-empty |
| PowerSchoolService.GetStudents | services/powerschoolService.ts:4-9 | four students in order (101 John Doe, 102 Jane Smith, 103 Peter Jones, 104 Mary Williams), with pairwise distinct ids, each of which has an academic record |
| PowerSchoolService.GetStudentData | services/powerschoolService.ts:89-92 | a known id's record exactly; any other id gets 'No data found for this student.'; never empty |
| PowerSchoolService.AcademicTableMatchesRoster | services/powerschoolService.ts:11-64 | the table's keys are exactly the roster's ids '101'..'104' and no record is empty |
| IxlService.ConnectToIxl | components/icons/ixlService.ts:38-44 | succeeds exactly when username and secret are both non-empty |
| IxlService.GetStudentIxlData | components/icons/ixlService.ts:47-50 | a known id's record exactly; any other id gets 'No IXL data found for this student.'; never empty |
| IxlService.SkillTableKeys | components/icons/ixlService.ts:1-30 | the table's keys are exactly '101'..'104' and no record is empty |
| BehaviorService.ConnectToBehaviorSystem | services/behaviorService.ts:30-34 | takes nothing and always succeeds |
| BehaviorService.GetStudentBehaviorData | services/behaviorService.ts:37-40 | a known id's notes exactly; any other id gets 'No behavioral notes found for this student.'; never empty |
| BehaviorService.BehaviorTableKeys | services/behaviorService.ts:1-22 | the table's keys are exactly '101'..'104' and no entry is empty |
| GeminiService.Prompt | services/geminiService.ts:4-63 | generatePrompt: the template's fixed fragments with the name and the four data fields substituted, an empty field giving its placeholder; what the prompt holds is stated by DataBlocks, StudentNameVerbatim and HeadingsInOrder |
| GeminiService.DataBlocks | services/geminiService.ts:14-32 | each data block of the prompt holds its field verbatim, or that field's fixed placeholder exactly when the field is empty; no block is ever empty |
| GeminiService.SameAcademicBlock | services/geminiService.ts:16 | two forms that differ only in the academic field and give the same prompt give the same academic block |
| GeminiService.SameSkillBlock | services/geminiService.ts:21 | the same for the IXL block |
| GeminiService.SameBehaviorBlock | services/geminiService.ts:26 | the same for the behaviour block |
| GeminiService.SameFocusBlock | services/geminiService.ts:31 | the same for the focus block |
| GeminiService.PromptDeterminesDataBlocks | services/geminiService.ts:4-63 | the prompt is a function of the form that determines each substituted data block |
| GeminiService.StudentNameVerbatim | services/geminiService.ts:8-38 | the student's name appears verbatim, with no placeholder, both in the task line and in the report title |
| GeminiService.HeadingAt | services/geminiService.ts:40-58 | the k-th section heading stands at its place in the prompt, followed by non-empty guidance |
| GeminiService.OutlineAfterDataBlocks | services/geminiService.ts:31-40 | the report outline begins after the focus-area block |
| GeminiService.HeadingsInOrder | services/geminiService.ts:36-58 | the six headings, I. Overall Summary … VI. Areas for Growth & Recommendations, appear in that order, each after the previous one, all after the data blocks, for every form |
| GeminiService.GenerateReport | services/geminiService.ts:66-90 | a missing or empty key fails with 'API key is not configured' and sends nothing; otherwise the prompt for the form is sent once; a response's text is returned unmodified; any remote failure becomes the one fixed failure message |
| ReportSection.Render | components/ReportSection.tsx:28-38 | SimpleMarkdown: the line rules, the split/wrap/join, the unwrap replacements and the break collapse, in the code's order; its output is stated by RenderDocument and RenderHasNoLineBreak |
| ReportSection.LineRules | components/ReportSection.tsx:30-32 | the h3 rule fires exactly on lines starting '### ' (so neither '###T' nor '#### T'), the h4 rule exactly on '#### ', the list rule exactly on '* '; each wraps the rest of the line in its class-bearing element |
| ReportSection.FindClose | components/ReportSection.tsx:33 | the closing pair the lazy `(.*?)\*\*` settles on: the leftmost '**' at or after the position, with none before it |
| ReportSection.Bold | components/ReportSection.tsx:33 | the global lazy bold rule on one line; its effect is stated by BoldIdentity, BoldSpan and BoldMarkup |
| ReportSection.BoldIdentity | components/ReportSection.tsx:33 | text with no '**' is left unchanged by the bold rule |
| ReportSection.BoldSpan | components/ReportSection.tsx:33 | `**x**` with no '*' in x (x may be empty) becomes `<strong>x</strong>`, and the scan resumes after the closing pair |
| ReportSection.BoldMarkup | components/ReportSection.tsx:33 | the bold rule turns the Markdown of any run of plain and bold spans into their HTML |
| ReportSection.BoldBlank | components/ReportSection.tsx:33-34 | the bold rule never changes whether a line is blank |
| ReportSection.JoinOfLines | components/ReportSection.tsx:34 | joining the lines of `split('\n')` with '\n' gives the text back |
| ReportSection.LinesOfJoin | components/ReportSection.tsx:34 | splitting '\n'-joined lines that hold no '\n' gives the lines back |
| ReportSection.LinesHaveNoBreak | components/ReportSection.tsx:34 | no line produced by `split('\n')` contains '\n' |
| ReportSection.LineBecomesBreak | components/ReportSection.tsx:34 | a rewritten line becomes `<br/>` exactly when it is blank, and otherwise `<p>` around the line, untrimmed |
| ReportSection.RewriteHeadingThree | components/ReportSection.tsx:30 | a '### ' line becomes the h3 element, with its class attribute, around the line's HTML |
| ReportSection.RewriteHeadingFour | components/ReportSection.tsx:31 | a '#### ' line becomes the h4 element around the line's HTML |
| ReportSection.RewriteItem | components/ReportSection.tsx:32 | a '* ' line becomes the li element around the line's HTML |
| ReportSection.RewritePara | components/ReportSection.tsx:33-34 | a paragraph line no rule catches becomes `<p>` around its HTML, with the text copied verbatim |
| ReportSection.BlockPieces | components/ReportSection.tsx:30-34 | a block's lines become that block's pieces: each blank line a `<br/>`, every other line wrapped in `<p>` |
| ReportSection.DocumentPieces | components/ReportSection.tsx:30-34 | a document's lines become its blocks' pieces in order |
| ReportSection.Unwrap | components/ReportSection.tsx:35-36 | the four literal global unwrap replacements in order; their effect is stated by UnwrapBlock and UnwrapDocument |
| ReportSection.UnwrapBlock | components/ReportSection.tsx:35-36 | on a block's pieces, the opening unwrap patterns never match and the closing ones do: headings keep `<p>` and close with `</h>`; list items keep `<p>` and lose `</p>` |
| ReportSection.UnwrapDocument | components/ReportSection.tsx:35-36 | the same for a whole document |
| ReportSection.CollapseBreaks | components/ReportSection.tsx:37 | the greedy `(<br\/>\s*){2,}` replacement, scanning left to right; its effect is stated by CollapseRun, CollapseSpacedRun and CollapseBlock |
| ReportSection.SpacedBreakRun | components/ReportSection.tsx:37 | the greedy `(<br\/>\s*)*` takes every break of a run together with the whitespace after each one |
| ReportSection.CollapseRun | components/ReportSection.tsx:37 | a run of one or more adjacent `<br/>` followed by anything but whitespace or another break becomes a single `<br/>` |
| ReportSection.CollapseSpacedRun | components/ReportSection.tsx:37 | two or more breaks with whitespace between and after them become one `<br/>`; a single break keeps its whitespace |
| ReportSection.CollapseBlock | components/ReportSection.tsx:37 | the collapse leaves each rendered block alone and shrinks each gap to one `<br/>` |
| ReportSection.CollapseDocument | components/ReportSection.tsx:37 | the same for a whole document whose gaps are separated by other blocks |
| ReportSection.RenderDocument | components/ReportSection.tsx:28-41 | SimpleMarkdown on any well-formed document returns its blocks' renderings in order (headings and list items left inside `<p>`) |
| ReportSection.RenderHasNoLineBreak | components/ReportSection.tsx:34 | for every input the rendered HTML holds no '\n' |
| ReportSection.HeadingItemAndBold | components/ReportSection.tsx:29-37 | "### Title\n* item\n**bold**" renders as a paragraph holding an h3 closed by `</h>`, a paragraph holding a list item, and a paragraph holding a strong element |
| ReportSection.HeadingStaysInParagraph | components/ReportSection.tsx:30-36 | as written, a heading line renders as `<p><h3 class=…>T</h>`; corrected, as `<h3 class=…>T</h3>` |
| ReportSection.CorrectedRender | components/ReportSection.tsx:34-36 | the converter as evidently intended: rule lines are not wrapped in `<p>`, so no unwrap step is needed; its output is stated by CorrectedRenderDocument |
| ReportSection.CorrectedRenderDocument | components/ReportSection.tsx:34-36 | the corrected converter renders every heading and list item as a bare element closed under its own name, and paragraphs and gaps as before |
| App.AppState.constructor | App.tsx:9-18 | initially the five form fields and the report are empty, nothing is loading, and there is no error |
| App.AppState.BeginGenerate | App.tsx:21-28 | with no name: the name error is set, the generator is not called, and the report and loading flag are unchanged; otherwise: loading starts, the error and the report are cleared, and the form is passed on unchanged |
| App.AppState.FinishGenerate | App.tsx:31-38 | the returned text becomes the report with no error; a failure sets the fixed generic message and leaves the report empty; loading ends either way |
| App.AppState.HandleGenerateReport | App.tsx:20-39 | the whole handler: the remote model receives the prompt for the form as it was when the button was pressed; the outcomes above; loading always ends once the generator was reached |
| InputSection.WithField | components/InputSection.tsx:69-72 | `{...prev, [name]: value}`: the named field takes the value and no other field changes |
| InputSection.WithPsField | components/InputSection.tsx:74-77 | the same for one PowerSchool credential |
| InputSection.WithIxlField | components/InputSection.tsx:74-77 | the same for one IXL credential |
| InputSection.FindStudent | components/InputSection.tsx:142 | `students.find`: the first student with the id, or none exactly when no student has it |
| InputSection.FindEachStudent | components/InputSection.tsx:142 | in a roster with distinct ids, each student is found by its own id |
| InputSection.Requests | components/InputSection.tsx:144-146 | PowerSchool is always asked, first; IXL is asked exactly when connected, behaviour exactly when connected; IXL comes before behaviour |
| InputSection.Fetched | components/InputSection.tsx:149 | `Promise.all` resolves with each provider's answer, in request order |
| InputSection.Cleared | components/InputSection.tsx:137 | the reset empties name, academic, skill and behaviour fields and keeps the focus area |
| InputSection.Merge | components/InputSection.tsx:149-157 | the merge as written, taking the results by position; its effect is stated by MergeOfFetched and PositionalMergeDropsBehavior |
| InputSection.MergeOfFetched | components/InputSection.tsx:149-157 | a selection fills in the roster name (or ''), the academic record, the skill record when IXL is connected, and the behaviour notes only when IXL and behaviour are both connected; the focus area is kept |
| InputSection.PositionalMergeDropsBehavior | components/InputSection.tsx:149-156 | with behaviour connected and IXL not, the behaviour field ends up '' although the provider's notes are never empty |
| InputSection.MergeByProvider | components/InputSection.tsx:151-156 | the merge as evidently intended, each field from its own provider's answer; its effect is stated by MergeByProviderOfFetched |
| InputSection.GenerateEnabled | components/InputSection.tsx:290 | the generate button is enabled exactly when nothing is loading and the name is non-empty; used by ClickGenerate |
| InputSection.MergeByProviderOfFetched | components/InputSection.tsx:151-156 | the corrected merge sets the roster name (or '') and fills each data field from its own provider's answer, whatever else is connected; the focus area is kept |
| InputSection.InputState.constructor | components/InputSection.tsx:47-66 | initial credentials ('https://myschool.powerschool.com', 'test-client-id', 'test-client-secret'; 'teacher@school.edu', 'password123'); nothing connected, loading, or in error; empty roster and selection |
| InputSection.InputState.HandleDataChange | components/InputSection.tsx:69-72 | only the named form field changes |
| InputSection.InputState.HandlePsCredentialChange | components/InputSection.tsx:74-77 | only the named PowerSchool credential changes |
| InputSection.InputState.HandleIxlCredentialChange | components/InputSection.tsx:74-77 | only the named IXL credential changes |
| InputSection.InputState.BeginConnectPowerSchool | components/InputSection.tsx:80-81 | loading starts and the error is cleared |
| InputSection.InputState.FinishConnectPowerSchool | components/InputSection.tsx:84-94 | success stores the roster and marks the connection; false shows 'Connection failed. Please check credentials.'; a rejection shows 'An error occurred during connection.'; loading ends; a connection is never undone |
| InputSection.InputState.HandleConnectPowerSchool | components/InputSection.tsx:79-96 | connected afterwards exactly when it already was or all three credentials are non-empty, with the roster loaded on success |
| InputSection.InputState.BeginConnectIxl | components/InputSection.tsx:99-100 | loading starts and the error is cleared |
| InputSection.InputState.FinishConnectIxl | components/InputSection.tsx:103-111 | success marks the connection; false or a rejection shows its message; loading ends |
| InputSection.InputState.HandleConnectIxl | components/InputSection.tsx:98-113 | connected afterwards exactly when it already was or both credentials are non-empty |
| InputSection.InputState.BeginConnectBehavior | components/InputSection.tsx:116-117 | loading starts and the error is cleared |
| InputSection.InputState.FinishConnectBehavior | components/InputSection.tsx:120-128 | success marks the connection; false shows 'Connection failed.'; a rejection shows 'An error occurred during connection.'; loading ends |
| InputSection.InputState.HandleConnectBehavior | components/InputSection.tsx:115-130 | always connects, with no error |
| InputSection.InputState.BeginSelectStudent | components/InputSection.tsx:133-146 | records the id and clears the fetched fields; the empty id stops there, without fetching; otherwise fetching starts with the request list built by conditional pushes |
| InputSection.InputState.FinishSelectStudent | components/InputSection.tsx:148-163 | resolved answers are merged by position into the form as it is now; a rejection leaves the fields cleared; fetching ends either way |
| InputSection.InputState.SelectStudent | components/InputSection.tsx:132-164 | the whole handler against the mocks: the form ends with the merge stated by MergeOfFetched and the focus area untouched |
| InputSection.InputState.ClickGenerate | components/InputSection.tsx:288-290 | a disabled button (loading, or no name) changes nothing; an enabled one sends the prompt for the form exactly when a non-empty key is present, ends loading, and shows the answer's text or the fixed failure message |

## Left out

- Timing and concurrency are not modelled: the providers' `setTimeout` delays, promise scheduling, and overlapping selections or generations. Each await is a split between a `Begin` and a `Finish` method.
- The Google GenAI client, `process.env.API_KEY` and the model name are foreign. The key is an `Option<string>` and the remote answer is a text or a failure. `response.text` being undefined is not modelled.
- `console.log`/`console.error`, the clipboard copy and the "Copied!" timer are I/O and are not modelled.
- JSX layout, CSS classes other than those in the converter's tags, the loading skeleton, `dangerouslySetInnerHTML`, icons and the header are presentation with no logic.
- JavaScript regex and string corner cases are simplified. '\n' is the only line terminator ('\r' and U+2028 are not). `trim()` and `\s` use the ASCII whitespace set.
- The providers' tables are finite maps, so inherited object keys such as 'toString' are not modelled.
- The request URL and model identifier (services/geminiService.ts:80-83) are not modelled.
- ReportSection.RenderDocument: the theorem covers documents built from `Block` values. Their text holds no '<', no '*' outside bold pairs and no '\n'. For text with '<', the unwrap and collapse patterns could match inside the model's own words. For arbitrary input, only the per-line lemmas and `RenderHasNoLineBreak` hold.
- InputSection.InputState.HandleDataChange: the field name is one of the five form fields. A textarea with another `name` would add a new key to the record.
- InputSection.InputState.FinishConnectPowerSchool: a rejection of either await is the same `Rejected` outcome, as in the code, which catches both in one place. The roster is the mock's `getStudents` value.
- The class methods keep the code's behaviour for the two findings below. The corrected definitions stand beside them with their own theorems, but nothing calls them.

## Findings

| source | as written | input that shows it | evidently intended | confidence | as-written member | corrected member |
|---|---|---|---|---|---|---|
| components/ReportSection.tsx:35-36 | The opening unwrap patterns look for bare `<p><h3>`, `<p><h4>` and `<p><li>`, but the rules at :30-32 emit tags with a class attribute. Only the closing patterns match, so a heading stays inside `<p>` and is closed by the nameless `</h>`. | the line "### T" renders as `<p><h3 class="…">T</h>` | headings and list items emitted as bare, properly closed elements, not wrapped in `<p>` | not executed | ReportSection.HeadingStaysInParagraph | ReportSection.CorrectedRenderDocument |
| components/InputSection.tsx:149 | The fetch results are destructured by position, but IXL's fetch is only pushed when IXL is connected. With IXL disconnected, the behaviour notes land in the IXL slot, which is then discarded. | IXL not connected, behaviour connected, student "101": behaviorData ends up '' | each field takes the answer of its own provider's fetch | not executed | InputSection.PositionalMergeDropsBehavior | InputSection.MergeByProviderOfFetched |
