# A verified model of the essay-feedback and quiz widgets

This project models the part of the "gemini-aiiiiii" Next.js application that
holds real logic, and proves properties of that model:

- **The document scorer in `FileUploadWithFeedback`.** It turns the text
  extracted from a student's Word document into five rubric scores (content,
  argumentation, structure, language, originality). It also computes their
  mean and one Dutch feedback sentence per dimension, chosen from four score
  bands that are shared with the colour the score is shown in. Its file
  handler gates the chosen file by extension, posts it to the upload route
  and scores the text that comes back.
- **The `/api/upload-docx` route.** It checks that a file is present, that it
  ends in `.docx`, and that it is at most 10 MiB. It then answers with the
  extracted text, its word count and its character count. `GET` is refused
  with 405.
- **The `/api/chat` route.** It first checks the API key. It then checks the
  message's presence, type and length (at most 4000 characters), and hands a
  valid message unchanged to the language model.
- **The `FileUpload` drop zone.** It has the same extension gate plus a size
  gate. Only the first dropped file is handled, and the `isUploading` flag is
  set around the caller's callback and cleared in `finally`.
- **The two static quizzes, `MarketStructuresQuiz` and
  `ChineseHistoryQuiz`.** They are one state machine (answer, next, restart)
  over two question tables. It is modelled once and proved to keep the
  question index in range and the score at most the number of questions.
- **`QuizGenerator`.** It covers the sparse answer array, the score, the
  check-answers gate, and the reset at the start of generation.
- **`TestGenerator`.** It covers the prompt built from the form, adding and
  removing Bloom levels, the submit gate, and rendering the model's reply:
  split on `---`, then three regular-expression rewrites (`**x**`, `*x*`,
  newline).

The JavaScript built-ins the code relies on are modelled in `Text` with their
ECMAScript meaning. These are `split` with a string separator, `endsWith`,
`join`, the `\s` class, `trim()` emptiness, and the word split
`split(/\s+/).filter(w => w.length > 0)`. The global lazy replace
`/D(.*?)D/g` is modelled in `Markup`. Anything outside the program's own
code is a parameter:

- the document converter's outcome;
- the language model's reply, or its failure;
- the environment's API key;
- the random draw of the originality score;
- whether a callback resolved or threw.

The scorer is the one in `src/components/FileUploadWithFeedback.tsx:31-63`.
Each of its five scores comes from one short formula over the text and is
clamped into 1..8; the originality score is a random draw.

The content, structure and language scores divide in floating point
(`Math.floor((a / b) * 8)` and `Math.floor((1 - a / b) * 8)` over
non-negative integers); these are modelled as exact integer floor
divisions. The argumentation score, `Math.floor((p + q) * 2)`, divides
nothing and is exact as it stands.

## Model

| member | source | states |
|---|---|---|
| Text.Split | src/components/FileUploadWithFeedback.tsx:37-39 | `split` with a string separator yields one piece more than the number of leftmost non-overlapping occurrences of the separator, so even the empty text gives one piece |
| Text.JoinSplit | src/components/TestGenerator.tsx:69 | joining the pieces of `split(sep)` with `sep` gives back the original text: the split loses nothing and invents nothing |
| Text.Words | src/app/api/upload-docx/route.ts:37 | the non-empty pieces of `split(/\s+/)` number at most the characters, none is empty or contains whitespace, and there are none exactly when the text is all whitespace |
| Text.CountWords | src/app/api/upload-docx/route.ts:37 | a one-pass count of maximal whitespace-free runs equals the number of words of the split-and-filter definition |
| Files.FirstFile | src/components/FileUpload.tsx:17-20 | a drop hands over nothing exactly when it holds no file, and otherwise exactly its first file |
| Files.PdfIsNotDocx | src/components/FileUploadWithFeedback.tsx:66-67 | a name ending in `.pdf` never ends in `.docx`, so the two extension tests are exclusive |
| UploadDocxRoute.Post | src/app/api/upload-docx/route.ts:4-47 | the checks run in order (missing file 400, wrong extension 400, more than 10 MiB 400). The answer is 200 exactly for an acceptable `.docx` whose text the converter extracts, and then carries the file's name and size, the fixed type `Word Document (.docx)`, the text, its length, and as word count the number of words of `split(/\s+/)` filtered to non-empty pieces, which is 0 exactly for blank text. An unreadable form, a non-empty text field in place of the file, and a converter failure on an acceptable `.docx` are thrown errors, each answered with the 500 processing error |
| UploadDocxRoute.RejectionIgnoresExtraction | src/app/api/upload-docx/route.ts:9-21 | a request that a check rejects is answered before the converter runs: the answer does not depend on the extraction |
| UploadDocxRoute.TenMiBIsAccepted | src/app/api/upload-docx/route.ts:19-21 | the size check is strict: a `.docx` of exactly 10 MiB is accepted |
| UploadDocxRoute.Get | src/app/api/upload-docx/route.ts:50-55 | `GET` always answers 405 with an error body |
| ChatRoute.MessageOf | src/app/api/chat/route.ts:23 | destructuring `message` throws exactly for a `null` body, and yields a defined value exactly for an object with a `message` key |
| ChatRoute.Post | src/app/api/chat/route.ts:7-69 | without an API key the answer is the 500 configuration error. It is 200 exactly when there is a key, the body carries a non-empty string message of at most 4000 characters, and the model call succeeds. Such a message reaches the model unchanged, and its reply or failure decides the answer. With a key, an unparsable body and a `null` body (whose destructuring throws) are answered with the 500 handling error; any other body whose `message` is falsy gets 400 "Bericht is vereist", and one whose `message` is truthy gets the 400 type/length error exactly when it is not a string or is longer than 4000 characters. Every status is 200, 400 or 500 |
| ChatRoute.KeyCheckComesFirst | src/app/api/chat/route.ts:10-20 | without an API key the answer does not depend on the request at all |
| ChatRoute.FalsyMessageRejected | src/app/api/chat/route.ts:25-30 | with a key, every body other than `null` whose `message` is falsy (absent, `null`, `false`, `0`, empty string; arrays, strings, numbers and booleans as bodies included) is answered 400 "Bericht is vereist" |
| ChatRoute.MessageTypeAndLength | src/app/api/chat/route.ts:33-38 | in any object body, whatever its other keys, a truthy message gets the 400 type/length error exactly when it is not a string or is longer than 4000 characters |
| FileUpload.Gate | src/components/FileUpload.tsx:34-42 | the extension check runs first and the size check only on a `.docx`/`.pdf` name. A file passes exactly when it has such a name and at most 10 MiB |
| FileUpload.SelectFile | src/components/FileUpload.tsx:33-54 | a rejected file only raises the alert of the check that failed and leaves the uploading flag alone. The callback runs at most once, exactly when the file passes and there is a callback, and it receives that file while the flag is set. The flag always ends cleared for an accepted file, whether the callback resolved or threw |
| FileUpload.SelectFileLogs | src/components/FileUpload.tsx:44-53 | the upload error is logged exactly when the file passes the gate, there is a callback, and the callback threw: never for a rejected file, a missing callback or a callback that resolved |
| FileUpload.Drop | src/components/FileUpload.tsx:13-21 | an empty drop does nothing; otherwise the handler runs on the first file only |
| Feedback.Clamp | src/components/FileUploadWithFeedback.tsx:36-40 | `Math.min(8, Math.max(1, x))` always lies in 1..8 and leaves values already in range unchanged |
| Feedback.ContentScore | src/components/FileUploadWithFeedback.tsx:36 | the content score is 8 from 500 characters on and is 1 exactly below 125 characters |
| Feedback.ContentMonotone | src/components/FileUploadWithFeedback.tsx:36 | a longer text never gets a lower content score |
| Feedback.ArgumentationScore | src/components/FileUploadWithFeedback.tsx:37 | the argumentation score is 4 plus 2 per occurrence of "omdat" or "dus", capped at 8, so never below 4 |
| Feedback.StructureScore | src/components/FileUploadWithFeedback.tsx:38 | the structure score is 2 with no blank line, 5 with one, and 8 with two or more |
| Feedback.LanguageScore | src/components/FileUploadWithFeedback.tsx:39 | the language score is 8 exactly when no space-separated token exceeds 20 characters, and 1 when every token does |
| Feedback.OriginalityScore | src/components/FileUploadWithFeedback.tsx:40 | a draw of `floor(random * 8)` gives an originality score in 1..7, equal to the draw from 1 on: it never reaches 8 |
| Feedback.FeedbackForScore | src/components/FileUploadWithFeedback.tsx:43-48 | the chain of thresholds gives each score the sentence of its band: "needs significant improvement" up to 2, "voldoende" for 3-4, "goed" for 5-6 and "Uitstekend werk" from 7, each naming the dimension |
| Feedback.ScoreColor | src/components/FileUploadWithFeedback.tsx:112-117 | the chain of thresholds gives each score the colour of its band: red up to 2, orange for 3-4, green for 5-6 and emerald from 7 |
| Feedback.SentencesShareBands | src/components/FileUploadWithFeedback.tsx:43-48 | two scores get the same feedback sentence exactly when they fall in the same band (at most 2, 3-4, 5-6, 7 and more) |
| Feedback.ColoursShareBands | src/components/FileUploadWithFeedback.tsx:112-117 | two scores get the same colour exactly when they fall in the same band, so colour and sentence always agree |
| Feedback.BandMonotone | src/components/FileUploadWithFeedback.tsx:43-48 | a higher score never falls in a lower band |
| Feedback.LowestSentenceNeedsLowScore | src/components/FileUploadWithFeedback.tsx:44 | the "needs significant improvement" sentence is given exactly for scores of at most 2 |
| Feedback.TopSentenceNeedsTopScore | src/components/FileUploadWithFeedback.tsx:47 | the "Uitstekend werk" sentence is given exactly for scores above 6 |
| Feedback.Analyze | src/components/FileUploadWithFeedback.tsx:31-63 | the five scores are those of the five scorers for this text and draw; each dimension's sentence is the sentence of its score's band, naming the dimension; every score lies in 1..8, argumentation is at least 4, originality at most 7, and the total is the mean of the five scores, in 1.0..8.0 |
| Feedback.ArgumentationNeverInLowestBand | src/components/FileUploadWithFeedback.tsx:37-59 | no text gets the lowest argumentation sentence, and the top originality sentence appears exactly when the random draw is 7 |
| Feedback.BeginUpload | src/components/FileUploadWithFeedback.tsx:65-76 | a name ending in neither `.docx` nor `.pdf` only raises the alert and changes nothing; otherwise the file is recorded, processing starts and old feedback is cleared |
| Feedback.FinishUpload | src/components/FileUploadWithFeedback.tsx:78-99 | there is no alert exactly when the route answered OK with extracted text, and then the feedback is the analysis of that text. Otherwise the upload-failed alert appears and the old feedback stays. Processing always ends |
| Feedback.DropFiles | src/components/FileUploadWithFeedback.tsx:102-110 | an empty drop changes nothing; otherwise the handler runs on the first file |
| Feedback.PdfIsNeverScored | src/components/FileUploadWithFeedback.tsx:66-93 | a `.pdf` passes the component's gate, but the route rejects it, so it always ends in the upload-failed alert and never in feedback |
| Feedback.DocxIsScored | src/components/FileUploadWithFeedback.tsx:82-93 | a `.docx` within the size limit whose text is extracted ends in the feedback for exactly that text |
| Quiz.Answer | src/components/MarketStructuresQuiz.tsx:51-58 | answering records the choice and shows the explanation, and adds a point exactly when the choice is the correct answer |
| Quiz.Next | src/components/MarketStructuresQuiz.tsx:60-69 | "next" clears the choice and explanation, keeps the score, and moves to the next question, or to the result screen after the last one |
| Quiz.Restart | src/components/MarketStructuresQuiz.tsx:71-77 | restarting gives exactly the initial state from any state |
| Quiz.InitialInv | src/components/MarketStructuresQuiz.tsx:45-49 | the initial state is a valid state of any non-empty quiz |
| Quiz.StepInv | src/components/MarketStructuresQuiz.tsx:51-77 | every click on a control on screen keeps the index in the table, a choice on record exactly while its explanation shows, and at most one point per question seen |
| Quiz.RunInv | src/components/MarketStructuresQuiz.tsx:45-77 | after any sequence of clicks from a valid state, the state is valid and the score is at most the number of questions |
| Quiz.AnsweredOnce | src/components/MarketStructuresQuiz.tsx:108 | the disabled options mean that a question, once answered, cannot be answered again |
| Quiz.HeadingMatchesScoring | src/components/MarketStructuresQuiz.tsx:133-136 | the heading after a choice says "Correct!" exactly when that choice scored a point |
| MarketStructuresQuiz.TableIsWellFormed | src/components/MarketStructuresQuiz.tsx:13-42 | the table has four questions, and every correct answer indexes one of its options |
| MarketStructuresQuiz.ResultMessage | src/components/MarketStructuresQuiz.tsx:155-159 | for a score not above the count, the result message is "Perfect!" exactly for a full score, "Goed gedaan!" exactly for at least half but not all, and the try-again text exactly below half |
| MarketStructuresQuiz.ReachableResultMessage | src/components/MarketStructuresQuiz.tsx:152-159 | from the start, whatever is clicked, the result screen shows "Perfect!" exactly for 4 correct answers, "Goed gedaan!" exactly for 2 or 3, and the try-again message exactly for at most one |
| ChineseHistoryQuiz.TableIsWellFormed | src/components/ChineseHistoryQuiz.tsx:11-47 | the table has five questions, and every correct answer indexes one of its options |
| ChineseHistoryQuiz.ReachableScoreBounded | src/components/ChineseHistoryQuiz.tsx:164 | from the start, whatever is clicked, the score shown is at most 5 and the index stays in the table |
| QuizGenerator.SetAnswer | src/components/QuizGenerator.tsx:66-70 | setting an answer puts it at its index, keeps every other position, and grows the array to the index when written past the end, leaving holes |
| QuizGenerator.Score | src/components/QuizGenerator.tsx:76-81 | the score is 0 without a quiz, and otherwise at most the number of questions |
| QuizGenerator.FullScoreIffAllCorrect | src/components/QuizGenerator.tsx:162 | the full score (green banner) is reached exactly when every question's answer equals its correct answer |
| QuizGenerator.SetAnswerScore | src/components/QuizGenerator.tsx:66-81 | changing one answer changes the score only through that question: minus the old answer's point, plus one if the new answer is correct |
| QuizGenerator.StartGenerate | src/components/QuizGenerator.tsx:18-24 | a topic that trims to empty changes nothing; otherwise loading starts, and the quiz, answers and results are cleared |
| QuizGenerator.Deliver | src/components/QuizGenerator.tsx:51-63 | a parsed quiz is shown and a failed one keeps the old one. Loading always stops, and the answers and results are untouched |
| QuizGenerator.DeliverAlert | src/components/QuizGenerator.tsx:46-60 | the "Er ging iets mis" alert is raised exactly when no parsed quiz arrives |
| QuizGenerator.AsWrittenGateAdmitsUnanswered | src/components/QuizGenerator.tsx:151 | from the start, typing a topic, generating a quiz of two or more questions, picking an option for the last question only and checking shows the results with question 1 unanswered; under the corrected gate the same clicks leave the results hidden |
| QuizGenerator.StepInv | src/components/QuizGenerator.tsx:18-74 | under either gate, every event keeps no answers and no results without a quiz, no more answers than questions, no quiz while loading, and results only once there are as many answers as questions |
| QuizGenerator.RunInv | src/components/QuizGenerator.tsx:18-74 | under either gate, after any sequence of events from a valid state, results are shown only with as many answers as questions; with the gate as written this does not mean every question is answered |
| QuizGenerator.CorrectedRunInv | src/components/QuizGenerator.tsx:151-164 | under the corrected gate (every question answered), after any sequence of events from a valid state, results are shown only for a fully answered quiz |
| QuizGenerator.CorrectedGateRefinesWritten | src/components/QuizGenerator.tsx:151 | on reachable states the corrected gate only adds a condition: whenever it offers the check, so does the gate as written |
| Markup.ReplaceSpansCopies | src/components/TestGenerator.tsx:73-74 | a prefix free of the delimiter's first character is copied unchanged and the replace continues after it |
| Markup.SpanAtStart | src/components/TestGenerator.tsx:73-74 | a text that starts with `D x D`, with `x` on one line and free of the delimiter's first character, becomes `open x close` followed by the replace of the rest |
| Markup.ReplaceSpansLeftmost | src/components/TestGenerator.tsx:73-74 | the leftmost span `D x D` after a delimiter-free prefix is replaced by `open x close`, the prefix is kept, and the replace carries on after the span |
| Markup.FindClose | src/components/TestGenerator.tsx:73-74 | the lazy `(.*?)` finds the first closing delimiter after the opening one with no line terminator before it, or reports that none exists |
| Markup.ReplaceSpans | src/components/TestGenerator.tsx:73-74 | a text in which the delimiter's first character never occurs is left unchanged by the global replace |
| Markup.ReplaceNewlines | src/components/TestGenerator.tsx:75 | after replacing `\n` by `<br />` no newline is left, and a text without newlines is unchanged |
| Markup.ReplaceNewlinesSplitJoin | src/components/TestGenerator.tsx:75 | every newline becomes `<br />` and nothing else changes: the replace equals splitting on `\n` and joining with `<br />` |
| Markup.FormatBlock | src/components/TestGenerator.tsx:72-75 | the rendered HTML of a question contains no newline |
| Markup.StrongSpan | src/components/TestGenerator.tsx:73-74 | `**x**` with a one-line, asterisk-free `x` renders as `<strong>x</strong>`: the strong rewrite runs before the emphasis rewrite |
| TestGenerator.FormatQuestions | src/components/TestGenerator.tsx:68-79 | the reply becomes one block per `---`-separated segment (separators plus one), none containing a newline |
| TestGenerator.FormatQuestionsSegments | src/components/TestGenerator.tsx:69 | the blocks are the formatted segments, and the segments glued with `---` give back the reply |
| TestGenerator.CheckLevel | src/components/TestGenerator.tsx:150-151 | checking a Bloom level appends it at the end and keeps the earlier levels |
| TestGenerator.UncheckLevel | src/components/TestGenerator.tsx:152-153 | unchecking removes every occurrence of the level and keeps every other level with its multiplicity |
| TestGenerator.UncheckConcat | src/components/TestGenerator.tsx:153 | the filter works piecewise over a concatenation, so the remaining levels keep their order |
| TestGenerator.ToggleLevel | src/components/TestGenerator.tsx:148-154 | a click flips exactly the clicked level's box (in the list after the click exactly when it was not before) and leaves every other box as it was |
| TestGenerator.ToggleKeepsDistinct | src/components/TestGenerator.tsx:148-154 | a click keeps the levels free of duplicates |
| TestGenerator.UncheckDistinct | src/components/TestGenerator.tsx:153 | unchecking a level keeps a duplicate-free list duplicate-free |
| TestGenerator.FormStep | src/components/TestGenerator.tsx:31-66 | a submission needs a non-empty subject and no running request, starts a request and disables the button until the reply; the reply, successful or not, ends the request, and a successful one stores its text as the questions; a Bloom click changes only the Bloom list and a subject edit only the subject, leaving every other field as it was |
| TestGenerator.FormRunDistinct | src/components/TestGenerator.tsx:148-154 | after any sequence of clicks, edits, submissions and replies, a duplicate-free Bloom list stays duplicate-free |
| TestGenerator.InitialFormRuns | src/components/TestGenerator.tsx:20-28 | the initial form, with an empty subject, cannot be submitted, and no run from it ever lists a Bloom level twice |
| TestGenerator.Prompt | src/components/TestGenerator.tsx:37-51 | the prompt is the six setting lines (count and type, level, Bloom levels, case phrase, subject, context) joined by a newline and eight spaces, followed by the empty line and the fixed formatting instructions |
| TestGenerator.PromptMentionsSettings | src/components/TestGenerator.tsx:37-51 | the prompt has a line listing the Bloom levels joined by ", ", and a line that is exactly the case phrase `needsCase` selects |

## Left out

- JavaScript strings are UTF-16. The model's strings are sequences of code points, so the character count (`textContent.length`), the 4000-character limit and the 20-character token limit count a character outside the Basic Multilingual Plane once, not twice.
- Floating-point arithmetic in the scorer is modelled as exact integer floor division. The mean total is an exact real, and its display with `toFixed` is not modelled.
- Overlapping uploads are not modelled. Nothing disables the drop zone or the file input while an upload runs (`src/components/FileUploadWithFeedback.tsx:128`, `src/components/FileUpload.tsx:72`), so a second file can be chosen before the first upload ends; the first `finally` then clears `isProcessing` or `isUploading` while the second upload still runs, and the feedback shown is that of whichever answer arrives last. `BeginUpload`/`FinishUpload` and `SelectFile` describe one upload at a time.
- The rendering of every component is left out: JSX, CSS classes other than the score colour, progress bars, drag-over highlighting (`isDragging`) and loading spinners.
- `console.error` is modelled only in `FileUpload`, where the log of a failed callback (`src/components/FileUpload.tsx:50`) is an effect. The logging in `src/components/FileUploadWithFeedback.tsx:95`, `src/components/QuizGenerator.tsx:59`, `src/components/TestGenerator.tsx:62`, `src/app/api/chat/route.ts:11,54` and `src/app/api/upload-docx/route.ts:42` changes no state and no answer, and is left out. Every `alert` is modelled as an alert value.
- The error bodies' `hint`, `debug`, `details` and `timestamp` fields are left out. The 500 bodies keep only their `error` text, so ChatRoute.Post does not model the `details` message of a failed model call.
- The network is left out. `fetch` to `/api/chat` and `/api/upload-docx` is modelled by handing the route's answer (or the parsed result) to the next step.
- The Gemini model call, the mammoth text extraction, `process.env`, `Math.random`, and `JSON.parse` of the model's reply (with its code-fence stripping) are parameters. Only their outcome is modelled.
- `TestGenerator.handleSubmit`'s request is left out. The model covers the prompt it sends, the `isGenerating` flag around it and the rendering of the reply it stores.
- TestGenerator.FormStep: an answer whose body has no `response` field stores `undefined` as the questions; `Reply(Some(text))` covers only answers that carry a text, and `Reply(None)` a request or parse that threw.
- `GertWaaldersChat`, `TestChatBot` and `src/app/page.tsx` are chat front ends and a page layout with no logic of their own; they are not part of this model.
- The quiz explanations in the two tables are abbreviated to their first sentence, since no behaviour depends on their text.
- TestGenerator.PromptMentionsSettings shows that the prompt contains the Bloom line and the case line. It does not show that the other case phrase is absent.
- Markup.ReplaceSpans: its contract covers only the delimiter-free text; the span lemmas cover a leftmost span `D x D` whose content is free of the delimiter's first character. Spans whose content holds that character (a lone `*` inside `**x**`) and unclosed delimiters are covered only by the definition.
- The `min="1" max="20"` bounds of the count field are not enforced by the browser on typed input, so they are not modelled. The count is any integer or NaN.
- TestGenerator.Prompt: `parseInt` returns a double, so a count of magnitude 2^53 or more is rounded and one of 10^21 or more renders in exponent form (`1e+21`); the model's count is an exact integer printed with all its digits, so the prompt agrees with the program only for counts below 2^53 in magnitude.

## Findings

| source | as written | input that shows it | evidently intended | confidence | as-written member | corrected member |
|---|---|---|---|---|---|---|
| src/components/QuizGenerator.tsx:151 | the "Controleer Antwoorden" button appears when `userAnswers.length === quiz.questions.length` | a generated quiz of 2 questions where the user picks an option only for question 2: `userAnswers` becomes `[<hole>, "x"]` with length 2, so the button appears while question 1 is unanswered, and checking scores it as wrong | the button appears only when every question has an answer | not executed | QuizGenerator.AsWrittenGateAdmitsUnanswered | QuizGenerator.CorrectedRunInv |
