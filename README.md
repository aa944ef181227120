# Test Genius: a verified model of the test pipeline and the admin pages' logic

This project models, in Dafny, the deterministic logic of the Test Genius
platform. It covers a NestJS server that generates tests with a
language model and relays live-test events over socket.io rooms, and the Next.js
admin pages that drive it:

- `TestService.createTest` (module `TestService`, test_service.dfy). It
  gives every option a fresh id. It re-points the correct answer through
  the old-to-new id map. It draws a five-digit test id and access code and
  stores the test and the code. `uuidv4` is an injected supply of ids per
  question. `Math.random()` is a fraction `num/den` below 1. Prisma is a
  value store that can refuse writes or hit a unique key.
- `TestGateway` (module `Gateway`, gateway.dfy). It is a class holding the
  room map, the log of emitted events and the calls made to the
  generator. It checks the payload, answers with `test:created` or
  `error`, and joins, leaves and broadcasts to the room `"test:" + testId`.
- `GeminiFlashService` (module `GeminiFlash`, gemini.dfy) builds the
  generation and continuation prompts. It takes the first part of the
  first candidate and strips the first `` ```json `` and the first
  remaining `` ``` ``. The model call and `JSON.parse` are function
  parameters that may fail.
- `TestTimer` (module `Timer`, timer.dfy) formats seconds as
  `[<h>h ]MMm SSs` and raises the under-five-minutes flag.
- `TestPreview` (module `Preview`, preview.dfy) covers:
  - the conversion from the server's test to the editor's test, including
    `parseInt`;
  - the question-list edits, as a class over the component's state.
- The monitor page (module `Monitor`, monitor.dfy) covers the countdown
  tick, start, pause, participant removal, the rounded average progress
  and the status counts.
- The create wizard (module `CreateWizard`, create_wizard.dfy) covers the
  step bounds, topic toggling, the two payloads and the event handlers.
  Its payloads are also checked against the gateway's validation.
- The sign-up page (module `SignUp`, signup.dfy) covers:
  - the e-mail pattern, proved equal to its shape description;
  - the details checks and the verification-code check;
  - the resend guard and cooldown.
- The language context (module `Language`, language.dfy) covers the
  translation lookup with its two fallbacks, the saved-language
  acceptance and `setLanguage`.

Module `Common` (common.dfy) holds what several of these share:
- JavaScript values and their string conversion;
- decimal numerals;
- `indexOf`/`includes`/`replace` on strings;
- `join`;
- the one-second countdown step used by the monitor and the sign-up page.

Two consequences of the code as written show up across modules. They are
stated as lemmas:

- The wizard sends its free-text `user_prompt` and never the chosen
  language. The gateway passes `payload.user_prompt` into the generator's
  `language` argument. So the language slot of the generation prompt
  holds the user's free text (`CreateWizard.WizardRequestAccepted`,
  `Gateway.FormRequest`).
- The wizard's book payload has no `testId`. So the gateway's
  create-by-book handler answers every book request from the wizard with
  the error `testId is required` (`CreateWizard.BookRequestLacksTestId`).

The server keeps no session registry of its own. Live tests are grouped
only through socket.io rooms named `test:<id>`. The model follows the code
and keeps a room map.

## Model

| member | source | states |
|---|---|---|
| TestService.OptionIdMap | server/src/platform-api/test/test.service.ts:17-24 | every old option id is a key of the map, and every key is some option's old id |
| TestService.OptionIdMapLastWins | server/src/platform-api/test/test.service.ts:17-24 | an old id maps to the supply id handed out for the last option carrying it; ids of no option are absent |
| TestService.OptionIdMapDistinct | server/src/platform-api/test/test.service.ts:17-24 | with pairwise distinct old ids, option i receives the i-th supplied id |
| TestService.BuildOptionIdMap | server/src/platform-api/test/test.service.ts:17-24 | the step-by-step reduce builds exactly the map `OptionIdMap` describes |
| TestService.RemapOptions | server/src/platform-api/test/test.service.ts:32-35 | options keep count, order and text; each id becomes the map's entry for its old id |
| TestService.TransformQuestions | server/src/platform-api/test/test.service.ts:15-37 | one result per question, in order, question i transformed with its own id supply |
| TestService.TransformQuestionPreserves | server/src/platform-api/test/test.service.ts:26-35 | question text and explanation are copied; options keep count, order and text |
| TestService.TransformQuestionsPreserve | server/src/platform-api/test/test.service.ts:15-37 | question count and order are kept, and every question's text and explanation are unchanged |
| TestService.CorrectAnswerFollowsOption | server/src/platform-api/test/test.service.ts:28-30 | when the correct answer names option j, the stored correct answer is option j's new id |
| TestService.CorrectAnswerNull | server/src/platform-api/test/test.service.ts:28-30 | an absent or empty (falsy) correct answer is stored as null |
| TestService.CorrectAnswer | server/src/platform-api/test/test.service.ts:28-30 | the stored correct answer (stated by CorrectAnswerFollowsOption and CorrectAnswerNull) |
| TestService.TransformQuestion | server/src/platform-api/test/test.service.ts:14-36 | one question's transformation (stated by TransformQuestionPreserves and TransformOne) |
| TestService.NewOptionIdsDistinct | server/src/platform-api/test/test.service.ts:17-35 | distinct old ids and distinct supplied ids give pairwise distinct new option ids |
| TestService.SharedOldIdSharesNewId | server/src/platform-api/test/test.service.ts:19-21 | options sharing an old id receive the same new id, because the reduce overwrites the entry |
| TestService.RandomFiveDigit | server/src/platform-api/test/test.service.ts:43 | `Math.floor(10000 + Math.random() * 90000)` lies in 10000..99999 |
| TestService.FloorBelow | server/src/platform-api/test/test.service.ts:43 | a value below k times the divisor floors to a quotient below k |
| TestService.FractionScaleBound | server/src/platform-api/test/test.service.ts:43 | scaling a fraction below 1 by k and flooring gives a value in 0..k-1 |
| TestService.TestIdIsFiveDigits | server/src/platform-api/test/test.service.ts:43 | the test id is a five-digit decimal numeral whose value is the drawn number |
| TestService.FindTest | server/src/platform-api/test/test.service.ts:81-92 | a test is found exactly when its id is stored, and the test found is the one stored under that id |
| TestService.FindByTempCode | server/src/platform-api/test/test.service.ts:93-97 | a code finds a test exactly when the code is stored and its test exists, and the test found is the one the code links to |
| TestService.TransformOne | server/src/platform-api/test/test.service.ts:15-37 | the per-question callback computes `TransformQuestion` |
| TestService.TransformAll | server/src/platform-api/test/test.service.ts:15-37 | the `map` over all questions computes `TransformQuestions` |
| TestService.CreateTest | server/src/platform-api/test/test.service.ts:9-79 | with an offline store or a colliding id, it returns undefined and stores nothing; with a colliding code, it returns undefined and stores only the test; otherwise it returns the test with the constant title, stores it, and stores its code |
| TestService.CreatedIsFindable | server/src/platform-api/test/test.service.ts:69-97 | after a successful creation, the code finds the test stored under its id, with the constant title and one question per input question |
| Gateway.IsValidPayload | server/src/test-gateway/test.gateway.ts:50-52 | true exactly when every required field is a key of the payload (so true for no fields) |
| Gateway.MissingFieldInvalid | server/src/test-gateway/test.gateway.ts:50-52 | missing any one of the six form fields makes the payload invalid |
| Gateway.FormRequest | server/src/test-gateway/test.gateway.ts:83-90 | the generator receives subject, topic, difficulty, format and count from the payload, and `user_prompt` in its language slot |
| Gateway.FormReply | server/src/test-gateway/test.gateway.ts:54-97 | the reply goes to the calling client only; it is `test:created` exactly when the payload is valid and the generator resolves, and `error` otherwise |
| Gateway.FormReplyCases | server/src/test-gateway/test.gateway.ts:67-96 | an invalid payload gives `error` with `Invalid payload structure`; a generator failure gives `error` with its message; success gives `test:created` with the generated value |
| Gateway.AddMember | server/src/test-gateway/test.gateway.ts:118-123 | membership after a join is the old membership plus this client in this room |
| Gateway.RemoveMember | server/src/test-gateway/test.gateway.ts:125-130 | membership after a leave is the old membership minus this client in this room |
| Gateway.JoinThenLeave | server/src/test-gateway/test.gateway.ts:118-130 | join then leave takes the client out of the room and leaves every other membership unchanged |
| Gateway.TestGateway.constructor | server/src/test-gateway/test.gateway.ts:19-25 | no rooms, no events, no generator calls |
| Gateway.TestGateway.HandleCreateTestByForm | server/src/test-gateway/test.gateway.ts:54-97 | appends exactly one reply event, leaves rooms unchanged, and calls the generator only for a valid payload |
| Gateway.TestGateway.HandleCreateTestByBook | server/src/test-gateway/test.gateway.ts:99-116 | without a truthy testId, sends the caller `error` `testId is required` and leaves rooms unchanged; with one, joins room `test:<id>` and returns `{test:created, {testId}}`, which is sent back to the caller as `test:created` |
| Gateway.TestGateway.HandleJoinTest | server/src/test-gateway/test.gateway.ts:118-123 | adds the client to room `test:<id>` and sends `joinTest` `{testId}` back to the caller; no room event |
| Gateway.RoomName | server/src/test-gateway/test.gateway.ts:120 | the room `test:<testId>` |
| Gateway.TestGateway.HandleLeaveTest | server/src/test-gateway/test.gateway.ts:125-130 | removes the client from room `test:<id>` and sends `leaveTest` `{testId}` back to the caller; no room event |
| Gateway.TestGateway.HandleSubmitAnswer | server/src/test-gateway/test.gateway.ts:132-139 | sends `answerSubmitted` to room `test:<id>` with the sender's id and the answer unchanged, then `submitAnswer` `{testId}` back to the caller |
| Gateway.TestGateway.HandleTestProgress | server/src/test-gateway/test.gateway.ts:141-154 | sends `progressUpdated` to room `test:<id>` with the sender's id and the progress unchanged, then `testProgress` `{testId, progress}` back to the caller |
| Gateway.JoinThenLeaveScenario | server/src/test-gateway/test.gateway.ts:118-130 | after join then leave, the client is out of the room, others are unaffected, and the only events are `joinTest` and `leaveTest` back to the caller, both echoing the testId |
| GeminiFlash.PromptArgs | server/src/test-gateway/services/gemini-flash.service.ts:23-31 | six values, in the order the prompt inserts them: language, subject, topic, difficulty, format, count, each as `String(...)` renders it |
| GeminiFlash.GenerationPrompt | server/src/test-gateway/services/gemini-flash.service.ts:23-53 | the prompt is the fixed text with the six values inserted in order (stated by PromptNamesEveryField) |
| GeminiFlash.ContinuationPrompt | server/src/test-gateway/services/gemini-flash.service.ts:75-76 | the continuation prompt (stated by ContinuationNamesPart) |
| GeminiFlash.ContinueTest | server/src/test-gateway/services/gemini-flash.service.ts:70-82 | the generator's answer to the continuation prompt, passed through unchanged; what the prompt carries is stated by ContinuationNamesPart |
| GeminiFlash.StripFence | server/src/test-gateway/services/gemini-flash.service.ts:65 | the first `` ```json `` and then the first `` ``` `` are removed (stated by FencedIsUnwrapped and OnlyFirstMarkerRemoved) |
| GeminiFlash.Interpret | server/src/test-gateway/services/gemini-flash.service.ts:64-67 | only a text holding `` ```json `` is parsed, and it rejects only when `JSON.parse` of the stripped text rejects (the raw and unwrapped cases are stated by UnfencedIsRaw and FencedIsUnwrapped) |
| GeminiFlash.GenerateTest | server/src/test-gateway/services/gemini-flash.service.ts:15-68 | a result is produced only when the model call resolves and its first text exists; which text is used is stated by OnlyFirstPartMatters |
| GeminiFlash.ReadingUndefined | server/src/test-gateway/services/gemini-flash.service.ts:63 | the TypeError message for reading a property of `undefined` |
| GeminiFlash.PromptNamesEveryField | server/src/test-gateway/services/gemini-flash.service.ts:23-53 | the generation prompt contains each of language, subject, topic, difficulty, format and count verbatim, between its surrounding labels |
| GeminiFlash.PromptNamesSubject | server/src/test-gateway/services/gemini-flash.service.ts:26-27 | the prompt contains the subject between the subject and topic labels |
| GeminiFlash.ContinuationNamesPart | server/src/test-gateway/services/gemini-flash.service.ts:75-76 | the continuation prompt contains `Test ID: <testId>, Part: <generatedPart>/<totalParts>` |
| GeminiFlash.FirstText | server/src/test-gateway/services/gemini-flash.service.ts:63 | the text used is the first part of the first candidate; a missing `candidates`, candidate, `content`, `parts`, part or text rejects with the TypeError naming the property read from `undefined` |
| GeminiFlash.OnlyFirstPartMatters | server/src/test-gateway/services/gemini-flash.service.ts:54-67 | further parts and candidates do not change the result |
| GeminiFlash.UnfencedIsRaw | server/src/test-gateway/services/gemini-flash.service.ts:64-67 | a text without `` ```json `` is returned unchanged and never parsed |
| GeminiFlash.FencedIsUnwrapped | server/src/test-gateway/services/gemini-flash.service.ts:64-65 | a fenced text is detected, and the parser receives it with the opening and closing fences removed and all else unchanged |
| GeminiFlash.OnlyFirstMarkerRemoved | server/src/test-gateway/services/gemini-flash.service.ts:65 | only the first `` ```json `` is removed, then only the first remaining `` ``` ``; a second `json` marker leaves its `json` behind |
| Timer.JsRem | admin-platform/components/test-timer.tsx:14-15 | JavaScript's `%` on a non-negative dividend lies in 0..divisor-1 |
| Timer.Hours | admin-platform/components/test-timer.tsx:13 | for a non-negative duration, the whole hours: `h * 3600 <= seconds < (h + 1) * 3600` |
| Timer.Minutes | admin-platform/components/test-timer.tsx:14 | for a non-negative duration, a minute field between 0 and 59 (its exact value is stated by Decomposition) |
| Timer.Secs | admin-platform/components/test-timer.tsx:15 | for a non-negative duration, a second field between 0 and 59 (its exact value is stated by Decomposition) |
| Timer.Format | admin-platform/components/test-timer.tsx:17-26 | the displayed text (stated by Shape, HoursPrefixIffHour and RoundTrip) |
| Timer.Urgent | admin-platform/components/test-timer.tsx:30 | `seconds < 300` (stated by UrgentIffUnderFiveMinutes) |
| Timer.Decomposition | admin-platform/components/test-timer.tsx:13-15 | hours*3600 + minutes*60 + secs equals the seconds, with minutes and secs below 60 |
| Timer.FieldDigits | admin-platform/components/test-timer.tsx:23-24 | a padded field below 60 is exactly two digits spelling its value |
| Timer.Shape | admin-platform/components/test-timer.tsx:17-24 | the text is the optional `<h>h ` prefix, then `MMm SSs` |
| Timer.HoursPrefixIffHour | admin-platform/components/test-timer.tsx:19-21 | an `h` appears in the text exactly when hours > 0 |
| Timer.RoundTrip | admin-platform/components/test-timer.tsx:13-24 | reading hours, minutes and seconds back out of the text recovers the seconds |
| Timer.ParseAssembled | admin-platform/components/test-timer.tsx:17-24 | reading a prefix followed by two two-digit fields gives the prefix's hours and the fields' values |
| Timer.TailShape | admin-platform/components/test-timer.tsx:23-24 | the `MMm SSs` tail has seven characters, holds its two fields at fixed places and contains no `h` |
| Timer.PrefixHasH | admin-platform/components/test-timer.tsx:19-21 | the hours prefix contains an `h` exactly when hours > 0 |
| Timer.ParseAssemble | admin-platform/components/test-timer.tsx:13-24 | an assembled text reads back as the total its parts denote |
| Timer.HoursPrefixReads | admin-platform/components/test-timer.tsx:19-21 | the hours prefix reads back as the hours, and the empty prefix as zero |
| Timer.UrgentIffUnderFiveMinutes | admin-platform/components/test-timer.tsx:30 | the destructive style is on exactly when the text shows no hours and fewer than five minutes |
| Preview.RadixDigitValue | admin-platform/components/test-preview.tsx:97 | a decimal digit's value in any radix is its decimal value |
| Preview.LeadingDigits | admin-platform/components/test-preview.tsx:97 | `parseInt` reads the longest prefix of digits |
| Preview.TrimStart | admin-platform/components/test-preview.tsx:97 | `parseInt` skips leading white space: the result is never longer than the input and never starts with white space |
| Preview.TrimStartDropsSpace | admin-platform/components/test-preview.tsx:97 | the skipped text is a suffix of the input, and what was dropped before it is all white space |
| Preview.TrimStartKeeps | admin-platform/components/test-preview.tsx:97 | a string not starting with white space is kept whole |
| Preview.DecimalValue | admin-platform/components/test-preview.tsx:97 | a decimal digit string is read in radix 10 as its value |
| Preview.LeadingDigitsAll | admin-platform/components/test-preview.tsx:97 | a string of digits is read in full |
| Preview.ParseIntRoundTrip | admin-platform/components/test-preview.tsx:97 | `parseInt` of any integer's numeral gives that integer back |
| Preview.NegativeRoundTrip | admin-platform/components/test-preview.tsx:97 | a negative integer's numeral `-digits` is read back as that integer |
| Preview.NonNegativeRoundTrip | admin-platform/components/test-preview.tsx:97 | a non-negative integer's numeral is read back as that integer |
| Preview.ParseNonNegative | admin-platform/components/test-preview.tsx:97 | a canonical decimal numeral is read as its value |
| Preview.ParseNegative | admin-platform/components/test-preview.tsx:97 | a minus sign followed by a canonical decimal numeral is read as the negated value |
| Preview.ParseUnsignedDigits | admin-platform/components/test-preview.tsx:97 | after the sign, a canonical decimal numeral is read in radix 10 as its value |
| Preview.ParseInt | admin-platform/components/test-preview.tsx:97 | `Number.parseInt` without a radix (stated by ParseIntRoundTrip) |
| Preview.RemoveLeadingQ | admin-platform/components/test-preview.tsx:97 | `replace("q", "")` removes a leading `q` and nothing else |
| Preview.ConvertIdOfNumberedId | admin-platform/components/test-preview.tsx:97 | the question id `q<n>` becomes the number n |
| Preview.ConvertId | admin-platform/components/test-preview.tsx:97 | `parseInt(question_id.replace("q", ""))` (stated by ConvertIdOfNumberedId and RemoveLeadingQ) |
| Preview.ConvertQuestion | admin-platform/components/test-preview.tsx:96-104 | one server question in the editor's shape (stated by ConvertServerTest) |
| Preview.ConvertServerTest | admin-platform/components/test-preview.tsx:89-111 | the test id and title are `test_id`; question count and order are kept; text, options and correct answer are copied; the type is always multiple-choice |
| Preview.ConvertedIds | admin-platform/components/test-preview.tsx:96-97 | question i with id `q<n>` gets id n |
| Preview.Delete | admin-platform/components/test-preview.tsx:123-128 | the result holds exactly the questions whose id is not strictly equal to the given id |
| Preview.DeleteAppend | admin-platform/components/test-preview.tsx:123-128 | deletion distributes over concatenation, so the kept questions stay in their order |
| Preview.DeleteAbsent | admin-platform/components/test-preview.tsx:123-128 | deleting an id no question has changes nothing |
| Preview.NextId | admin-platform/components/test-preview.tsx:132 | with numeric ids, the new id is 1 or one more than some existing id, and greater than every existing id, so it is `max(0, ...ids) + 1`; any NaN id makes it NaN |
| Preview.ApplyEdit | admin-platform/components/test-preview.tsx:161-183 | only questions with the edited id take the buffer's text, options and correct answer; ids, types, order and every other question are kept |
| Preview.ApplyEditIdempotent | admin-platform/components/test-preview.tsx:161-183 | saving the same buffer twice is the same as saving it once |
| Preview.ChangeOption | admin-platform/components/test-preview.tsx:185-189 | length and every option id are kept; only the text at the index changes |
| Preview.TestPreview.constructor | admin-platform/components/test-preview.tsx:68-86 | the initial test is the sample with the given or a random id; the title, description and edit buffers take their initial values |
| Preview.TestPreview.Load | admin-platform/components/test-preview.tsx:89-111 | given server data, the test becomes its conversion and the title its `test_id`; without data nothing changes |
| Preview.TestPreview.SaveTitle | admin-platform/components/test-preview.tsx:113-116 | only the test's title changes, to the edited title |
| Preview.TestPreview.SaveDescription | admin-platform/components/test-preview.tsx:118-121 | only the test's description changes, to the edited description |
| Preview.TestPreview.DeleteQuestion | admin-platform/components/test-preview.tsx:123-128 | the question list becomes `Delete` of the old one; nothing else changes |
| Preview.TestPreview.OpenEditDialog | admin-platform/components/test-preview.tsx:153-159 | the buffers take the question's text, options and answer, and the dialog opens on its id |
| Preview.TestPreview.AddQuestion | admin-platform/components/test-preview.tsx:130-151 | appends one question with id `NextId`, options a to d and answer `a`, and opens it for editing |
| Preview.NewQuestion | admin-platform/components/test-preview.tsx:131-142 | the added question: id `NextId`, text `New question`, options a to d, answer `a` |
| Preview.TestPreview.SaveQuestion | admin-platform/components/test-preview.tsx:161-183 | without an edited question the list is unchanged; otherwise the list becomes `ApplyEdit`; the dialog closes and the editing id is cleared |
| Preview.TestPreview.OptionChange | admin-platform/components/test-preview.tsx:185-189 | the option buffer becomes `ChangeOption` of the old buffer |
| Monitor.RemoveById | admin-platform/app/dashboard/monitor/page.tsx:161-167 | the result holds exactly the participants whose id differs from the given one |
| Monitor.RemoveByIdAppend | admin-platform/app/dashboard/monitor/page.tsx:161-167 | removal distributes over concatenation, so the others keep their order |
| Monitor.AverageProgress | admin-platform/app/dashboard/monitor/page.tsx:197-198 | 0 with no participant; otherwise the mean rounded half up, within half a unit of the exact mean |
| Monitor.RoundBounds | admin-platform/app/dashboard/monitor/page.tsx:197-198 | floor division by a positive number lies between the two neighbouring multiples |
| Monitor.SumBounds | admin-platform/app/dashboard/monitor/page.tsx:197-198 | the sum of progress lies between n times any lower bound and n times any upper bound |
| Monitor.AverageWithinBounds | admin-platform/app/dashboard/monitor/page.tsx:197-198 | the average lies between any lower and any upper bound of the progress values |
| Monitor.BetweenMultiples | admin-platform/app/dashboard/monitor/page.tsx:197-198 | a rounded quotient of a sum between two multiples lies between their factors |
| Monitor.CountStatus | admin-platform/app/dashboard/monitor/page.tsx:317 | a status count never exceeds the number of participants |
| Monitor.StatusCountsBounded | admin-platform/app/dashboard/monitor/page.tsx:317-329 | the active, idle and left counts together are at most the participant count |
| Monitor.TestMonitor.constructor | admin-platform/app/dashboard/monitor/page.tsx:54-75 | the initial state: duration 60 minutes, 3600 seconds on the clock, nothing started |
| Monitor.TestMonitor.Tick | admin-platform/app/dashboard/monitor/page.tsx:122-139 | runs only while started, not paused and with time left; the remaining time takes one countdown step and completion is set when it reaches 0 |
| Monitor.TestMonitor.SetDuration | admin-platform/app/dashboard/monitor/page.tsx:300 | the duration changes only before the test starts |
| Monitor.TestMonitor.StartTest | admin-platform/app/dashboard/monitor/page.tsx:140-150 | starting first shows loading, and the scheduled timeout captures the current duration |
| Monitor.TestMonitor.StartTimeoutFires | admin-platform/app/dashboard/monitor/page.tsx:144-149 | the test starts with the duration captured at its click, times 60, on the clock, not the slider's current value |
| Monitor.StartWhileSliding | admin-platform/app/dashboard/monitor/page.tsx:140-150 | moving the slider while the start is loading does not change the 3600 seconds the default start puts on the clock |
| Monitor.TestMonitor.PauseResume | admin-platform/app/dashboard/monitor/page.tsx:152-154 | paused is toggled, so two toggles restore it; nothing else changes |
| Monitor.TestMonitor.RemoveParticipant | admin-platform/app/dashboard/monitor/page.tsx:156-159 | selects the participant and opens the dialog |
| Monitor.TestMonitor.ConfirmRemove | admin-platform/app/dashboard/monitor/page.tsx:161-167 | a truthy selection removes exactly the participants with that id; a null or 0 selection changes nothing; the selection is cleared and the dialog closed |
| Common.CountdownStep | admin-platform/app/dashboard/monitor/page.tsx:127-134 | a value of 1 or less becomes 0, anything else decreases by one, so the result is never negative |
| Common.Truthy | server/src/test-gateway/test.gateway.ts:102 | JavaScript truthiness: `undefined`, `null`, `false`, `0` and `""` are falsy |
| Common.ToJsString | server/src/test-gateway/services/gemini-flash.service.ts:23-31 | `String(v)`, the text a template literal inserts |
| Common.CountdownReachesZero | admin-platform/app/auth/signup/page.tsx:160-171 | from t > 0, k ticks leave t-k while k < t, and 0 from then on |
| Common.PadStart2 | admin-platform/components/test-timer.tsx:23-24 | `padStart(2, "0")` keeps the string as a suffix and fills with zeros up to two characters |
| Common.IndexOf | server/src/test-gateway/services/gemini-flash.service.ts:64 | `indexOf` finds an occurrence and no earlier one, and finds nothing only when there is no occurrence |
| Common.ConcatWindow | server/src/test-gateway/services/gemini-flash.service.ts:23-53 | any three consecutive pieces of a concatenation appear together in it |
| Common.TemplateWindow | server/src/test-gateway/services/gemini-flash.service.ts:23-53 | in a template literal each inserted value appears between the text before it and the text after it |
| Common.FirstOccurrence | server/src/test-gateway/services/gemini-flash.service.ts:65 | when the prefix holds no first character of the pattern, the first occurrence is right after the prefix |
| Common.ReplaceAt | server/src/test-gateway/services/gemini-flash.service.ts:65 | replacing in such a string swaps exactly that occurrence |
| Common.RemoveTwo | server/src/test-gateway/services/gemini-flash.service.ts:65 | removing a first and then a second pattern deletes exactly those two occurrences |
| Common.ReplaceFirst | server/src/test-gateway/services/gemini-flash.service.ts:65 | a string `replace` replaces only the first occurrence, and returns the input when there is none |
| Common.Join | admin-platform/app/dashboard/create/page.tsx:337 | joining a single topic gives that topic; several topics are stated by JoinAppend |
| Common.JoinAppend | admin-platform/app/dashboard/create/page.tsx:337 | joining one more element appends the separator and that element, so the topics appear in order, one `", "` apart |
| CreateWizard.OrEmpty | admin-platform/app/dashboard/create/page.tsx:307 | `user_prompt \|\| ""` is the prompt when given and the empty string otherwise |
| CreateWizard.SchemaAccepts | admin-platform/app/dashboard/create/page.tsx:32-40 | the form schema: five non-empty strings and 5 to 50 questions |
| CreateWizard.FormRequestInBounds | admin-platform/app/dashboard/create/page.tsx:32-40 | a form request built from accepted values has 5 to 50 questions and a non-empty subject, topic, difficulty and format |
| CreateWizard.BookRequestInBounds | admin-platform/app/dashboard/create/page.tsx:32-40 | a book request built from accepted values has 5 to 50 questions and a non-empty subject, difficulty and format |
| CreateWizard.FormRequest | admin-platform/app/dashboard/create/page.tsx:301-308 | the form payload copies subject, topic, difficulty, format and count, with the prompt defaulting to the empty string |
| CreateWizard.FormRequestIgnoresLanguage | admin-platform/app/dashboard/create/page.tsx:301-308 | the chosen language never reaches the payload |
| CreateWizard.BookRequest | admin-platform/app/dashboard/create/page.tsx:335-342 | the topic is the selected topics joined by `, `, and the prompt is `Book: <file>. ` followed by the prompt or the empty string |
| CreateWizard.AsPayload | admin-platform/app/dashboard/create/page.tsx:301-308 | the payload has exactly the six keys the wizard sends |
| CreateWizard.WizardRequestAccepted | admin-platform/app/dashboard/create/page.tsx:301-311 | the gateway accepts every wizard payload, and the generator's language slot receives the user's prompt |
| CreateWizard.BookRequestLacksTestId | admin-platform/app/dashboard/create/page.tsx:335-345 | a book payload carries no truthy testId |
| CreateWizard.RemoveAll | admin-platform/app/dashboard/create/page.tsx:270 | the filter removes every copy of the topic and keeps every other topic; an absent topic leaves the list unchanged |
| CreateWizard.RemoveAllAppend | admin-platform/app/dashboard/create/page.tsx:270 | the filter distributes over concatenation and keeps a single other topic, so the kept topics stay in order with their multiplicity |
| CreateWizard.Toggle | admin-platform/app/dashboard/create/page.tsx:268-274 | a present topic is filtered out with all its copies, the rest keeping their order; an absent one is appended at the end |
| CreateWizard.RemoveAppended | admin-platform/app/dashboard/create/page.tsx:268-274 | removing a topic just appended to a list without it restores the list |
| CreateWizard.ToggleTwiceRestores | admin-platform/app/dashboard/create/page.tsx:268-274 | toggling an absent topic twice restores the list |
| CreateWizard.ProgressAfter | admin-platform/app/dashboard/create/page.tsx:160-164 | progress becomes the larger of the current value and the reported value, or 0 when none is reported |
| CreateWizard.ErrorMessage | admin-platform/app/dashboard/create/page.tsx:185-190 | a non-empty server message is shown as is; otherwise `Server error` |
| CreateWizard.Wizard.constructor | admin-platform/app/dashboard/create/page.tsx:44-56 | step 1, no topics, no file, not generating, progress 0, no error and no test |
| CreateWizard.Wizard.NextStep | admin-platform/app/dashboard/create/page.tsx:357-361 | the step increases by one up to 3 and stays within 1..3 |
| CreateWizard.Wizard.PrevStep | admin-platform/app/dashboard/create/page.tsx:364-368 | the step decreases by one down to 1 and stays within 1..3 |
| CreateWizard.Wizard.ForceNextStep | admin-platform/app/dashboard/create/page.tsx:349-354 | step 3, not generating, progress 100 |
| CreateWizard.Wizard.ToggleTopic | admin-platform/app/dashboard/create/page.tsx:268-274 | the selected topics become `Toggle` of the old ones |
| CreateWizard.Wizard.ChooseFile | admin-platform/app/dashboard/create/page.tsx:222-227 | the chosen file is recorded |
| CreateWizard.Wizard.Generate | admin-platform/app/dashboard/create/page.tsx:277-312 | called only with values the schema accepts; generating starts at 0 and exactly one create-by-form event with the form payload is sent, keeping every sent request within the schema bounds |
| CreateWizard.Wizard.GenerateFromBook | admin-platform/app/dashboard/create/page.tsx:277-346 | called only with values the schema accepts; without a file or a topic nothing is sent and nothing changes; otherwise generating starts and one create-by-book event with the book payload is sent |
| CreateWizard.Wizard.OnProgress | admin-platform/app/dashboard/create/page.tsx:160-164 | progress becomes `ProgressAfter` of the old progress |
| CreateWizard.Wizard.OnCreated | admin-platform/app/dashboard/create/page.tsx:167-177 | the test data is stored, generating stops and progress is 100 |
| CreateWizard.Wizard.OnCreatedTimeout | admin-platform/app/dashboard/create/page.tsx:179-181 | the wizard moves to step 3 |
| CreateWizard.Wizard.OnError | admin-platform/app/dashboard/create/page.tsx:185-190 | the error message is shown and generating stops |
| SignUp.ValidateEmailSound | admin-platform/app/auth/signup/page.tsx:35-38 | every accepted address is local@domain.tld with three non-empty parts free of white space and `@` |
| SignUp.ValidateEmail | admin-platform/app/auth/signup/page.tsx:35-38 | the e-mail pattern (stated by ValidateEmailIffShape) |
| SignUp.SplitAtDot | admin-platform/app/auth/signup/page.tsx:35-38 | a plain string with a `.` strictly inside splits into non-empty plain domain and top-level parts |
| SignUp.ValidateEmailComplete | admin-platform/app/auth/signup/page.tsx:35-38 | every address of that shape is accepted |
| SignUp.ValidateEmailIffShape | admin-platform/app/auth/signup/page.tsx:35-38 | the check accepts exactly the addresses of that shape |
| SignUp.ValidEmailHasOneAt | admin-platform/app/auth/signup/page.tsx:35-38 | an accepted address contains exactly one `@` |
| SignUp.CheckDetails | admin-platform/app/auth/signup/page.tsx:55-82 | each field gets at most one message; the "required" message takes precedence; each field's error is present exactly when its check fails |
| SignUp.DetailsAcceptedIff | admin-platform/app/auth/signup/page.tsx:55-98 | no errors exactly when the name is given, the e-mail is given and well formed, the password has at least 8 characters and the confirmation equals it |
| SignUp.SignUpPage.constructor | admin-platform/app/auth/signup/page.tsx:16-33 | the details step with empty fields, no errors, not loading, cooldown 0 |
| SignUp.SignUpPage.SubmitDetails | admin-platform/app/auth/signup/page.tsx:40-90 | the errors become `CheckDetails` of the fields, and loading starts exactly when there are none |
| SignUp.SignUpPage.DetailsSent | admin-platform/app/auth/signup/page.tsx:92-106 | the page moves to verification with the cooldown at 60, no longer loading |
| SignUp.SignUpPage.SubmitVerification | admin-platform/app/auth/signup/page.tsx:108-126 | the code is accepted exactly when it has 6 characters; otherwise the code error is shown and loading does not start |
| SignUp.SignUpPage.ResendCode | admin-platform/app/auth/signup/page.tsx:140-145 | nothing happens while the cooldown is above 0; otherwise loading starts |
| SignUp.SignUpPage.ResendDone | admin-platform/app/auth/signup/page.tsx:146-157 | the cooldown restarts at 60, no longer loading |
| SignUp.SignUpPage.CooldownTick | admin-platform/app/auth/signup/page.tsx:163-169 | the cooldown takes one countdown step; nothing else changes |
| Language.Code | admin-platform/contexts/language-context.tsx:7 | each language is saved under its two-letter code |
| Language.FromCode | admin-platform/contexts/language-context.tsx:561 | exactly `en`, `ru` and `uz` are recognised, each as the language it codes |
| Language.CodeRoundTrip | admin-platform/contexts/language-context.tsx:560-570 | a saved language reads back as itself |
| Language.TableFor | admin-platform/contexts/language-context.tsx:574 | the current language's table, or the English one when it has none |
| Language.TranslateFound | admin-platform/contexts/language-context.tsx:573-576 | a present, non-empty entry of the current table is returned |
| Language.Translate | admin-platform/contexts/language-context.tsx:573-576 | `t(key)` (stated by TranslateFound, TranslateFallsBackToKey and TranslateFallsBackToEnglish) |
| Language.TranslateFallsBackToKey | admin-platform/contexts/language-context.tsx:575 | a missing or empty entry gives the key itself, and the result equals the key only then or when the entry is the key; a non-empty key never translates to the empty string |
| Language.TranslateFallsBackToEnglish | admin-platform/contexts/language-context.tsx:574 | a language without a table translates as English |
| Language.LanguageProvider.constructor | admin-platform/contexts/language-context.tsx:555-556 | the initial language is English, not yet mounted |
| Language.LanguageProvider.Mount | admin-platform/contexts/language-context.tsx:558-564 | a saved value is adopted only when it is `en`, `ru` or `uz`; anything else leaves the language unchanged |
| Language.LanguageProvider.SetLanguage | admin-platform/contexts/language-context.tsx:566-571 | the language becomes the chosen one, it is saved, and every later lookup uses its table |
| Language.LanguageProvider.T | admin-platform/contexts/language-context.tsx:573-576 | the result is the key or an entry of the current table |
| Language.SetThenReload | admin-platform/contexts/language-context.tsx:558-571 | a chosen language survives a reload |

## Left out

- JavaScript numbers are modelled as unbounded integers: floating point, `NaN` arithmetic other than `parseInt`'s, and UTF-16 string lengths (`password.length`) are not represented.
- Object keys are modelled as a map: prototype keys (`constructor`, `toString`) that a JavaScript object lookup would also find are not modelled, in `optionIdMap[...]`, `translations[...]` and the payload checks.
- Socket.io transport: delivery, ordering, CORS and `handleConnection`'s automatic generation on connect are not modelled. Rooms are a map and emitted events a log; a handler's returned `{ event, data }` is logged as the event the adapter sends back to the caller. server/src/test-gateway/events.ts is not part of this model; event names follow admin-platform/lib/socket.ts.
- admin-platform/lib/socket.ts: the socket singleton is not modelled. `getSocket()` always returns a socket there, so the wizard's "Not connected to server" branches are unreachable and are omitted.
- The model call and `JSON.parse` are parameters that may fail; their behaviour is not modelled. `continueTest` returns whatever the call gives.
- Prisma is a value store with availability and unique keys. Relations, includes and database-generated ids are not modelled. `findByTempCode` returns the linked test rather than the code row.
- `uuidv4` and `Math.random` are parameters: an id supply per question and a fraction below one.
- Timers: each `setTimeout`/`setInterval` callback is its own method (`StartTimeoutFires`, `DetailsSent`, `ResendDone`, `OnCreatedTimeout`, `Tick`, `CooldownTick`), callable in any order its preconditions allow. Clearing of intervals and the timing between callbacks are not modelled.
- The random progress simulations (`simulateProgress`, `processBook`), the monitor's random participant departures and mock results, clipboard, downloads, navigation and `alert` are not modelled.
- `localStorage` is a field of the language provider. The translation tables' contents are a parameter, not the literal tables.
- Rendering, animation, dialogs and styling are not modelled, except the timer's destructive flag.
- The sign-up page's `catch` branches are not modelled: the simulated promises there never reject.
- Preview.ChangeOption: requires an index inside the option list. The page only calls it with indices of rendered options; an out-of-range index in JavaScript would instead store an option without an id at that index, leaving holes before it.
- Preview.TestPreview.constructor: the sample test and the random id suffix are parameters.
- Gateway.TestGateway.HandleCreateTestByForm: the `console.log` calls and the logger are left out.
- A payload that is not an object (`null`, `undefined`, a number) is not represented: a payload is always a map. In the source, `payload.hasOwnProperty` and `payload.testId` then throw a TypeError, which the form and book handlers send back as an `error` event and the join, leave, submit and progress handlers do not catch.
- TestService.CreateTest: the option ids are not unique keys of the store. Options that share an old id get the same new id (SharedOldIdSharesNewId). If the database made option ids unique, that write would fail and `createTest` would return undefined, while the model returns the created test.
- CreateWizard.BookRequestInBounds: does not promise a non-empty topic. The joined topics are empty only when a single empty topic is selected, and the page's topic list is not part of this model.
