# AI Resume Analyser — a verified model of its rules

ATSify AI is a Next.js application. It analyses résumés, scores them for applicant
tracking systems (ATS), matches them against job descriptions and runs mock interviews, all
by prompting a hosted AI model. Most of the code is presentation. Underneath it are small
sequential rules, and this project models them in Dafny and proves what they promise:

- the five API handlers (`analyzeResume`, `atsCheck`, `matchJob`, `generateQuestions`,
  `evaluateAnswers`): how input checks map to 400, how thrown errors map to 500, the prompt
  that embeds the input, and the reply passed on;
- the flattening of a parsed PDF into text in `analyzeResume`, as a loop over the page,
  text and run tree, proved equal to a specification function;
- the mock-interview page as a class whose methods keep a state invariant: the stages go
  setup, testing, results; the cursor stays on a question; the answers sit beside the
  questions;
- the four pages that save a history of at most ten records, newest first. One `Push`
  models it, and each page is proved to use it only on success;
- the upload component's type and size check and its drag highlight;
- the score tiers, grades, chart data and fallbacks of the four results components;
- the theme rule of the root layout and the header's theme toggle.

The hosted AI model is an oracle parameter (`AiReply`), either a parsed JSON reply or an
error message. The same goes for:

- the outcome of a page's `fetch` (`FetchReply`);
- the output of the PDF and DOCX parsing libraries;
- `decodeURIComponent`.

Every handler returns the response together with the prompt it sent. The prompt is `None`
when the model was not called.

Files, one per source file of the core, plus shared modules:

- `common.dfy`: options and results, JSON, JavaScript truthiness, `trim`, infixes, and
  decimal numbers as text;
- `history.dfy`: the ten-record history;
- `tiers.dfy`: the 80/60 score tiers;
- `http.dfy`: responses, the oracle, and the MIME allowlist;
- `browser.dfy`: fetch outcomes and the error message a page shows.

## Model

| member | source | states |
|---|---|---|
| Common.Trim | src/app/api/analyzeResume/route.js:46 | The result is an infix of the input with only whitespace before and after it, and it neither starts nor ends with whitespace. Whitespace is the full ECMAScript WhiteSpace and LineTerminator set. |
| Common.BlankIffTrimEmpty | src/app/mock-test/page.jsx:21 | `!s.trim()` holds exactly when every character of `s` is whitespace. |
| Common.NumberOr | src/components/JobMatchResults/JobMatchResults.jsx:19-20 | `x \|\| d` on a number gives `x` when it is present and non-zero, and `d` when it is missing or 0. |
| Common.DecimalValueOfNatToString | src/app/api/evaluateAnswers/route.js:15 | The decimal text written for a question number reads back as that number. |
| History.Push | src/app/ats-checker/page.jsx:43-44 | `unshift` then `slice(0, 10)`: the new record comes first, then the previous list cut so that at most 10 remain. |
| History.PushFullDropsOldest | src/app/ats-checker/page.jsx:43-44 | On a full list the oldest record is dropped and the other nine keep their order. |
| History.PushAllNewestFirst | src/app/mock-test/page.jsx:108-109 | After any sequence of saves, the list is the saved records newest first, followed by the older list, cut to 10. |
| Tiers.TierOf | src/components/ATSResults/ATSResults.jsx:30-34 | The tiers partition all scores: at least 80 is green, 60 up to but not including 80 is yellow, below 60 is red. |
| Tiers.TierMonotone | src/components/ATSResults/ATSResults.jsx:30-34 | A higher score never lands in a lower tier. |
| ATSResults.GetScoreColor | src/components/ATSResults/ATSResults.jsx:30-34 | The text class is the tier's text class. |
| ATSResults.GetScoreBg | src/components/ATSResults/ATSResults.jsx:36-40 | The background is the tier's background. |
| ATSResults.GetRatingIcon | src/components/ATSResults/ATSResults.jsx:42-46 | The icon is check, warning or cross by tier. |
| ATSResults.TierFunctionsAgree | src/components/ATSResults/ATSResults.jsx:30-46 | Two scores get the same colour exactly when they get the same background, and exactly when they get the same icon. |
| ATSResults.SubScore | src/components/ATSResults/ATSResults.jsx:20-22 | `sub?.score \|\| 0`: a missing sub-report or score shows as 0. |
| ATSResults.ScoreData | src/components/ATSResults/ATSResults.jsx:18-23 | Four bars named ATS Score, Formatting, Keywords and Structure. The first carries the ATS score. Each other bar carries its sub-report's score when the sub-report and its score are present, and 0 when either is missing. |
| ATSResults.PassRate | src/components/ATSResults/ATSResults.jsx:26 | The pass rate is `passabilityScore` when it is non-zero, and the ATS score when it is missing or 0. |
| ATSResults.PassData | src/components/ATSResults/ATSResults.jsx:25-28 | The pass and risk slices sum to 100. |
| ATSResults.RatingText | src/components/ATSResults/ATSResults.jsx:91 | The reply's non-empty `overallRating`; otherwise Excellent, Good or Needs Improvement by tier. |
| ATSResults.VerdictText | src/components/ATSResults/ATSResults.jsx:95-99 | The sentence under the score is chosen by tier. |
| AnalysisResults.GetScoreColor | src/components/AnalysisResults/AnalysisResults.jsx:18-22 | The text class is the tier's text class. |
| AnalysisResults.GetScoreBg | src/components/AnalysisResults/AnalysisResults.jsx:24-28 | The background is the tier's background. |
| AnalysisResults.ColorAgreesWithBg | src/components/AnalysisResults/AnalysisResults.jsx:18-28 | Two scores get the same colour exactly when they get the same background. |
| AnalysisResults.PieData | src/components/AnalysisResults/AnalysisResults.jsx:13-16 | The Passed and Remaining slices sum to 100. |
| AnalysisResults.AtsLabel | src/components/AnalysisResults/AnalysisResults.jsx:68 | Excellent, Good or Needs Improvement by tier. |
| AnalysisResults.SkillLabel | src/components/AnalysisResults/AnalysisResults.jsx:81 | Excellent Match, Good Match or Room for Improvement by tier. |
| JobMatchResults.GetMatchColor | src/components/JobMatchResults/JobMatchResults.jsx:27-31 | The text class is the tier's text class. |
| JobMatchResults.GetMatchBg | src/components/JobMatchResults/JobMatchResults.jsx:33-37 | The background is the tier's background. |
| JobMatchResults.MatchColorAgreesWithBg | src/components/JobMatchResults/JobMatchResults.jsx:27-37 | Two scores get the same colour exactly when they get the same background. |
| JobMatchResults.MatchMessage | src/components/JobMatchResults/JobMatchResults.jsx:90-94 | The match message is chosen by tier. |
| JobMatchResults.MatchData | src/components/JobMatchResults/JobMatchResults.jsx:17-21 | Three bars. A missing experience or role value is drawn as 0; a present one is drawn as it is. |
| JobMatchResults.CardsFollowPresence | src/components/JobMatchResults/JobMatchResults.jsx:110-122 | A value of 0 still shows its card, while a missing value hides it; the chart draws both as 0. |
| MockTestResults.GetGrade | src/components/MockTestResults/MockTestResults.jsx:44-50 | The grade is A+ from 90, A from 80, B from 70, C from 60, and D below 60, each an if-and-only-if. |
| MockTestResults.GradeMonotone | src/components/MockTestResults/MockTestResults.jsx:44-50 | A higher score never earns a lower grade. |
| MockTestResults.GradeAgreesWithColor | src/components/MockTestResults/MockTestResults.jsx:32-50 | The grade is A or A+ exactly when the colour is green, and C or better exactly when it is not red. |
| MockTestResults.GetScoreColor | src/components/MockTestResults/MockTestResults.jsx:32-36 | The text class is the tier's text class. |
| MockTestResults.GetScoreBg | src/components/MockTestResults/MockTestResults.jsx:38-42 | The background is the tier's background. |
| MockTestResults.PerformanceMessage | src/components/MockTestResults/MockTestResults.jsx:101-105 | The sentence next to the grade is chosen by tier. |
| MockTestResults.UpperChar | src/components/MockTestResults/MockTestResults.jsx:18 | A lower-case ASCII letter becomes its capital; any other character is unchanged. |
| MockTestResults.Capitalize | src/components/MockTestResults/MockTestResults.jsx:18 | Same length; the first character is upper-cased and the rest is unchanged. |
| MockTestResults.FallbackScores | src/components/MockTestResults/MockTestResults.jsx:20-25 | Without `categoryScores`: Communication, Technical, Problem Solving and Leadership, in that order, scored 0.9, 1.1, 0.95 and 0.85 times the overall score. |
| MockTestResults.ScoreData | src/components/MockTestResults/MockTestResults.jsx:17-25 | With `categoryScores`: one entry per key, in entry order, named by the capitalised key with its score. Without them: the fallback list. |
| MockTestResults.RadarData | src/components/MockTestResults/MockTestResults.jsx:27-30 | Each point keeps its category and has score `min(score, 100)`, so a score of at most 100 is unchanged. |
| MockTestResults.BarWidth | src/components/MockTestResults/MockTestResults.jsx:127 | The bar width is capped at 100 and equals the score when the score is at most 100. |
| Http.AiOutcome | src/app/api/atsCheck/route.js:170-185 | After the model is called, a parsed reply is returned unchanged with status 200, and any thrown error gives 500 with the handler's fixed message. |
| Browser.ReplyOf | src/app/ats-checker/page.jsx:28-32 | A page sees the body exactly when the status is 2xx (`response.ok`). For any other status it sees a non-ok response carrying the status text. |
| Browser.FailureText | src/app/ats-checker/page.jsx:28-48 | A non-ok response shows `prefix: statusText`. A thrown error shows its message, or the fallback when the message is empty, so some message is always shown. |
| AtsCheckRoute.PlaceholderText | src/app/api/atsCheck/route.js:22-71 | PDF gets the PDF-labelled text; every other allowed type gets the DOCX-labelled one; both contain the file name. |
| AtsCheckRoute.Prompt | src/app/api/atsCheck/route.js:74-77 | The prompt contains the résumé text. |
| AtsCheckRoute.Post | src/app/api/atsCheck/route.js:1-186 | No file gives 400 "No file provided". A type outside the allowlist gives 400. The model is called exactly when the file is present and allowed, with a prompt that contains the file name. The reply is returned unchanged, or a failure gives 500. A form that cannot be read gives 500. |
| MatchJobRoute.PlaceholderText | src/app/api/matchJob/route.js:22-50 | PDF gets the PDF placeholder and any other allowed type the DOCX one; both name the file. |
| MatchJobRoute.Prompt | src/app/api/matchJob/route.js:53-59 | The prompt holds the résumé text, followed after its heading by the job description. |
| MatchJobRoute.Post | src/app/api/matchJob/route.js:1-138 | A missing file or a falsy description gives 400. A type outside the allowlist gives 400. The model is called exactly when both are present and the type is allowed. The reply is returned unchanged, or a failure gives 500. |
| MatchJobRoute.PromptOrder | src/app/api/matchJob/route.js:53-59 | The prompt names the file, and the résumé comes before the job description. |
| GenerateQuestionsRoute.Prompt | src/app/api/generateQuestions/route.js:10 | The prompt embeds the job role verbatim. |
| GenerateQuestionsRoute.Post | src/app/api/generateQuestions/route.js:1-68 | A missing or blank role gives 400 "Job role is required". The model is called exactly when the role is non-blank. The reply is returned unchanged with 200, or a failure gives 500 with the fixed message. |
| EvaluateAnswersRoute.BlockLayout | src/app/api/evaluateAnswers/route.js:15 | A block reads "Question ", the number `i + 1`, ": ", the question, a new line, "Answer: ", the answer and a final new line, with its exact length. |
| EvaluateAnswersRoute.JoinAt | src/app/api/evaluateAnswers/route.js:14-16 | `join(sep)` holds element `i` at the sum of the earlier lengths, each plus one separator. |
| EvaluateAnswersRoute.JoinSeparatorAt | src/app/api/evaluateAnswers/route.js:14-16 | One separator follows every element but the last. |
| EvaluateAnswersRoute.JoinLength | src/app/api/evaluateAnswers/route.js:14-16 | A join ends with its last element. |
| EvaluateAnswersRoute.QaTextBlockAt | src/app/api/evaluateAnswers/route.js:14-16 | `qaText` holds the block of question `i`, in index order. |
| EvaluateAnswersRoute.QaTextSeparatorAt | src/app/api/evaluateAnswers/route.js:14-16 | A single newline separates consecutive blocks. |
| EvaluateAnswersRoute.QaTextLength | src/app/api/evaluateAnswers/route.js:14-16 | The text ends with the last block and is empty without questions, so nothing else is in it. |
| EvaluateAnswersRoute.BlockNumbersDistinct | src/app/api/evaluateAnswers/route.js:15 | Blocks of distinct indices carry distinct numbers. |
| EvaluateAnswersRoute.Prompt | src/app/api/evaluateAnswers/route.js:19-21 | The prompt embeds the job role and then the question-and-answer text. |
| EvaluateAnswersRoute.Post | src/app/api/evaluateAnswers/route.js:1-113 | A falsy role, or missing questions or answers, gives 400. Lengths that differ give 400. The model is called exactly when the body passes both checks, with the prompt over `qaText`. The reply is returned unchanged, or a failure gives 500. |
| AnalyzeResumeRoute.SafeDecode | src/app/api/analyzeResume/route.js:9-15 | The decoded text where decoding succeeds, and the input unchanged where it throws. |
| AnalyzeResumeRoute.PagesOf | src/app/api/analyzeResume/route.js:29-32 | `formImage.Pages` if present, else `Pages`, else no pages. |
| AnalyzeResumeRoute.AppendRuns | src/app/api/analyzeResume/route.js:40-42 | The loop appends to the accumulator exactly the decoded text of every run, each followed by a space. |
| AnalyzeResumeRoute.AppendItems | src/app/api/analyzeResume/route.js:37-43 | The loop appends the runs of every text, skipping texts without `R`. |
| AnalyzeResumeRoute.ExtractPdfText | src/app/api/analyzeResume/route.js:26-46 | The result is the trimmed text of every run of the document, in page, then text, then run order, each run followed by one space. |
| AnalyzeResumeRoute.PagesTextIsRunsText | src/app/api/analyzeResume/route.js:34-44 | The nested walk gives the same text as a walk over the flat list of all runs. |
| AnalyzeResumeRoute.RunsTextAppend | src/app/api/analyzeResume/route.js:40-42 | The text of consecutive runs is the concatenation of the texts of the two parts. |
| AnalyzeResumeRoute.SilentPageContributesNothing | src/app/api/analyzeResume/route.js:35-38 | A page without `Texts`, or whose texts all lack `R`, changes nothing wherever it sits. |
| AnalyzeResumeRoute.NoRunsNoText | src/app/api/analyzeResume/route.js:38 | Texts that all lack `R` contribute the empty string. |
| AnalyzeResumeRoute.MissingRunTextIsEmpty | src/app/api/analyzeResume/route.js:41 | A run without `T` contributes only its space. |
| AnalyzeResumeRoute.NoPagesNoText | src/app/api/analyzeResume/route.js:29-46 | A document without pages gives empty text. |
| AnalyzeResumeRoute.ExtractedText | src/app/api/analyzeResume/route.js:66-80 | A PDF gets the PDF text and a DOCX gets mammoth's text. Every other type, msword included, keeps the initial empty text. |
| AnalyzeResumeRoute.Prompt | src/app/api/analyzeResume/route.js:90-106 | The prompt embeds the extracted text. |
| AnalyzeResumeRoute.SuccessBody | src/app/api/analyzeResume/route.js:123 | The success body has `success: true` and the reply under `analysis`. |
| AnalyzeResumeRoute.ServerError | src/app/api/analyzeResume/route.js:124-129 | The error response has status 500 and carries the thrown message under `details`. |
| AnalyzeResumeRoute.Post | src/app/api/analyzeResume/route.js:56-131 | No file gives 400. A failure to read the file's bytes gives 500 with `details`, whatever the type. Otherwise a type other than PDF or DOCX gives 400 without calling the model. So does text that is empty or shorter than 20 characters once trimmed. The model is called exactly when the text passes the gate. A success gives `{success, analysis}`, and any thrown error gives 500 with `details`. |
| AnalyzeResumeRoute.MswordRefused | src/app/api/analyzeResume/route.js:69-87 | A Word 97 file gets empty text, which the gate refuses. |
| Upload.CheckFile | src/components/FileUpload/FileUpload.jsx:35-56 | Accepted exactly when the type is allowed and the size is at most 5 MiB. The type is checked first, so a file wrong on both counts is a type error. |
| Upload.SizeLimitInclusive | src/components/FileUpload/FileUpload.jsx:49-52 | Exactly 5,242,880 bytes (5 MiB) is accepted; one byte more is refused. |
| Upload.FileUpload.HandleDrag | src/components/FileUpload/FileUpload.jsx:9-17 | `dragenter` and `dragover` set the highlight, `dragleave` clears it, and any other event leaves it. |
| Upload.FileUpload.HandleFile | src/components/FileUpload/FileUpload.jsx:35-56 | An accepted file is selected and passed to the parent exactly once. A refused file raises its alert and changes nothing else. Only accepted files are ever selected. |
| Upload.FileUpload.HandleDrop | src/components/FileUpload/FileUpload.jsx:19-27 | The highlight is always cleared, and only the first dropped file is checked. |
| Upload.FileUpload.HandleFileInput | src/components/FileUpload/FileUpload.jsx:29-33 | The first chosen file is checked. |
| Upload.FileUpload.RemoveFile | src/components/FileUpload/FileUpload.jsx:62-67 | The selection and the input are cleared, and the parent is not told. |
| AtsChecker.AtsCheckerPage.HandleFileUpload | src/app/ats-checker/page.jsx:15-52 | On success, the result is stored and the record is pushed as the newest `atsChecks` entry, with at most 10 kept. On failure, only the error is set: history and result stay. `loading` is false after either outcome. |
| AtsChecker.AtsCheckerPage.BeginUpload | src/app/ats-checker/page.jsx:16-17 | While the request runs, `loading` is set and no error is shown. |
| AtsChecker.AtsCheckerPage.CompleteUpload | src/app/ats-checker/page.jsx:28-51 | The new state after the reply: the history is written only on success. |
| Analyzer.AnalyzerPage.HandleFileUpload | src/app/analyzer/page.jsx:15-52 | The page shows `result.analysis` but saves the whole response as the newest `resumeAnalyses` entry. On failure the history is untouched, and `loading` ends false. |
| Analyzer.AnalyzerPage.BeginUpload | src/app/analyzer/page.jsx:16-17 | While the request runs, `loading` is set and no error is shown. |
| Analyzer.AnalyzerPage.CompleteUpload | src/app/analyzer/page.jsx:28-51 | The new state after the reply: the history is written only on success. |
| Analyzer.ShowsAnalysisSavesWrapper | src/app/analyzer/page.jsx:33-41 | For the handler's success body, the page shows exactly the model's analysis and the record keeps the wrapper. |
| JobMatching.HistoryTitle | src/app/job-matching/page.jsx:57 | `result.jobTitle` when truthy, otherwise "Job Matching Analysis", so a saved title is always truthy. |
| JobMatching.JobMatchingPage.HandleResumeUpload | src/app/job-matching/page.jsx:17-20 | Selecting a résumé stores it and clears the error. |
| JobMatching.JobMatchingPage.HandleJobDescriptionChange | src/app/job-matching/page.jsx:22-24 | The description becomes the text typed in the box. |
| JobMatching.JobMatchingPage.AnalyzeMatch | src/app/job-matching/page.jsx:26-70 | A request is sent exactly when a file is selected and the description is not blank; whenever the Analyze button is enabled, one is sent. Without a request only the error is set. A success stores the result and pushes the record with its title. |
| MockTest.EmptyAnswers | src/app/mock-test/page.jsx:44 | `new Array(n).fill('')`: `n` empty answers. |
| MockTest.WriteAt | src/app/mock-test/page.jsx:62-63 | Writing slot `i` of a copy changes that slot only, or appends when `i` is the length. |
| MockTest.QuestionsOf | src/app/mock-test/page.jsx:43-44 | The questions are read exactly when the reply has the requested schema, a `questions` array of strings. |
| MockTest.MockTestPage.constructor | src/app/mock-test/page.jsx:10-18 | The initial state, which satisfies the invariant. |
| MockTest.MockTestPage.SetJobRole | src/app/mock-test/page.jsx:165 | The role input, in the setup stage. |
| MockTest.MockTestPage.SetCurrentAnswer | src/app/mock-test/page.jsx:233 | The answer box. |
| MockTest.MockTestPage.GenerateQuestions | src/app/mock-test/page.jsx:20-54 | A blank role sets the error, sends nothing and stays in setup. Otherwise it sends the role, which the handler accepts, and `loading` ends false. On a well-formed reply: the questions, as many empty answers, cursor 0 and stage testing. On a failure: setup, with the error message. |
| MockTest.MockTestPage.SubmitAnswer | src/app/mock-test/page.jsx:56-73 | A blank answer sets the error and changes nothing else. Otherwise only the cursor's slot is overwritten, and the length and the other answers stay. Before the last question the cursor advances by 1. On the last it sends the full answers for evaluation; with questions, that request always passes the handler's checks, lengths included. |
| MockTest.MockTestPage.FinishTest | src/app/mock-test/page.jsx:75-117 | It sends the role, the questions and the answers. On success: the results stage, the record pushed as the newest `mockTests` entry, and at most 10 kept. On failure: still testing, with the error, and the history untouched. |
| MockTest.MockTestPage.Previous | src/app/mock-test/page.jsx:249 | One question back, never below 0. |
| MockTest.MockTestPage.StartNewTest | src/app/mock-test/page.jsx:119-128 | Every session field back to its initial value, and the stage back to setup. |
| MockTest.EmptyQuestionListMismatch | src/app/api/evaluateAnswers/route.js:9-11 | With an empty question list, the page's single appended answer is refused with 400 "must match", without calling the model. |
| Layout.AppliesDark | src/app/layout.jsx:27-34 | A saved `dark` gives dark, any other non-empty saved value gives light, and nothing saved follows the system preference. |
| Layout.SavedThemeDominates | src/app/layout.jsx:36 | Re-applying the rule on a preference change keeps a saved theme. |
| HeaderMenu.DesktopItems | src/components/Header/Header.jsx:41 | The first five of the seven menu items, in order, leaving out Contact Us and About. |
| HeaderMenu.ThemeName | src/components/Header/Header.jsx:12-18 | The stored theme is `dark` exactly when the new flag is set. |
| HeaderMenu.StoredThemeIsApplied | src/components/Header/Header.jsx:12-18 | The theme the header stores is the one the layout applies on the next load. |
| HeaderMenu.Header.constructor | src/components/Header/Header.jsx:5-6 | As written: menu closed and `isDark` false whatever is stored. |
| HeaderMenu.Header.FromDocument | src/components/Header/Header.jsx:5-6 | Corrected: the flag starts as the page's theme, in sync. |
| HeaderMenu.Header.ToggleTheme | src/components/Header/Header.jsx:8-19 | It flips the flag, sets the root class to match and stores the new theme. |
| HeaderMenu.Header.ToggleMenu | src/components/Header/Header.jsx:62 | The menu button flips `isMenuOpen`. |
| HeaderMenu.Header.ClickMobileItem | src/components/Header/Header.jsx:80 | Clicking a mobile item closes the menu. |
| HeaderMenu.ToggleTwice | src/components/Header/Header.jsx:8-19 | Two toggles restore the original flag. |
| HeaderMenu.FirstToggleAfterSavedDark | src/components/Header/Header.jsx:6-14 | As written: after a saved `dark`, the first toggle stores `dark` and leaves the page dark. |
| HeaderMenu.FirstToggleFlipsTheme | src/components/Header/Header.jsx:6-14 | With the corrected start, the first toggle always flips the page's theme. |

## Left out

- The AI model is an oracle parameter. The calls to the Gemini SDK and to the
  `/integrations/google-gemini-2-5-pro/` endpoint are foreign network I/O. A failed
  request, a non-ok status, an unexpected reply shape and a failed `JSON.parse` are all one
  `Err`.
- The prompt wording is abbreviated. Each prompt keeps its exact text around the embedded
  input, but the requested fields and instructions are cut short. They carry no rule
  beyond embedding the input.
- The placeholder résumés of `atsCheck` and `matchJob` are abbreviated in the same way,
  after the label and the file name.
- `pdf2json` and `mammoth` are parameters: the parsed page, text and run tree, and the
  DOCX text. Each is `Err` when the library throws. A failing `file.arrayBuffer()` is a
  separate input, checked for every file type before the dispatch.
- `decodeURIComponent` is an opaque partial function. UTF-8 percent-decoding is not
  reimplemented.
- Reading form data or a JSON body becomes a `Result` input, with `Err` when it throws.
  A JSON body is given as the fields the handler reads. Non-string values in those fields
  are not modelled.
- `localStorage`, JSON serialisation, the `Date.now()` ids and the ISO dates are left out.
  Each history is a sequence field, and records keep only the fields with rules.
- The Blob downloads of the results components are left out.
- Alerts are modelled only in the upload component, as a log. `console.error` is left out.
- The `statusText` of a response is a parameter of the fetch outcome.
- Real numbers stand for JavaScript's doubles. IEEE rounding, `Math.round`, `toFixed`, the
  progress percentage and the exact products of the fallback multipliers are not modelled.
- `async` ordering is not modelled. Each handler and each page action is one atomic step
  with its reply given. Overlapping requests and the `loading` flag's visible interval
  (only its value before and after) are out.
- `UpperChar` upper-cases ASCII letters only. Other letters are left unchanged.
- `length` and `trim` count Unicode scalar values, not UTF-16 code units.
- A JSON object is a member list read by its first match. The replies are assumed to have
  distinct keys.
- `MockTest.MockTestPage.GenerateQuestions`: a reply whose `questions` is not an array of
  strings is modelled as the failure path with the TypeError message. As written, the
  source first stores the malformed value. It also accepts a string or other value with a
  `length`.
- A reply body of `null` on an ok response is not modelled.
- The results components receive typed records: each field they read is a value of its
  own type or absent. A field that is JSON `null` or has the wrong type is not modelled.
  So `JobMatchResults.CardsFollowPresence` does not cover `"experienceMatch": null`, for
  which `!== undefined` still shows the card.
- The React Query client and the static or decorative pages carry no rules and are not part
  of this model: home, about, contact, hero, features, footer.
- Styling beyond the tier choice is not modelled: JSX layout, charts, icons and colours.

## Findings

| source | as written | input that shows it | evidently intended | confidence | as-written member | corrected member |
|---|---|---|---|---|---|---|
| src/components/Header/Header.jsx:6 | The theme flag starts `false` whatever theme the layout script applied from storage (src/app/layout.jsx:29), and `toggleTheme` flips that flag. | A saved `theme` of `dark`: the page loads dark and shows the moon icon. The first toggle stores `dark` again and leaves the page dark, so the first click does nothing. | The flag starts as the page's current theme, so every toggle flips the theme. | not executed | HeaderMenu.FirstToggleAfterSavedDark | HeaderMenu.FirstToggleFlipsTheme |
