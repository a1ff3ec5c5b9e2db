# Daily-report prompt and reply classification of the `/generate` endpoint

The service takes a JSON description of one student's tutoring session and
turns it into a prompt for OpenAI's chat-completions API. It sends the
prompt once and turns the outcome of that call into a single reply, an HTTP
status and a `report` text. This project models, in Dafny, the two
deterministic parts of its only handler, `POST /generate`, and proves
properties of them.

- **The report prompt.** The `"MM월 DD일"` date text, built from the month
  and day zero-padded to two digits. The greeting, which speaks for the
  teacher when `teacherName` is a string with a non-white-space character
  and for the academy when `teacherName` is falsy or a blank string. The
  score and weak-score renderings, which follow JavaScript truthiness. The
  fixed template the request fields are written into (module
  `ReportPrompt`, file `report_prompt.dfy`).
- **The reply classification.** A thrown error gives 500. A non-ok upstream
  response gives a fixed 502. An ok response without content gives 500. An
  ok response with content gives 200 with that content (module `Upstream`,
  file `upstream.dfy`).
- **The handler.** It connects the two: it destructures the body, builds
  the prompt, sends one `gpt-4o` request to a provider passed in as a
  function, and classifies the result (module `GenerateHandler`, file
  `generate_handler.dfy`).
- **JavaScript values.** Module `JsValues` (`js_values.dfy`) holds the
  JavaScript semantics the handler relies on: primitive values, truthiness,
  template rendering, decimal rendering, `padStart`, `trim` and `slice`.

Request fields are JavaScript values. A missing property is `undefined` and
renders as `"undefined"` in the template, as it does in the source. Reading
the clock (`new Date()`) and calling the network are not modelled. The
month index, the day of the month and the provider's outcome are
parameters instead.

The source file has CR LF line ends. Inside a JavaScript template literal
they read as a single line feed, so every line of the modelled prompt ends
in `"\n"`. Template line 76 keeps its trailing space.

The model keeps these behaviours of `server.js` as written:
- A non-ok upstream response gets 502. The upstream status is not passed on.
- Fields get no defaults. An absent `attendance` renders as `"undefined"`,
  not as `"정상"`.
- The date comes from the server's local clock, not from a fixed time zone.
- There is no check that the required fields are present.
- There is no score normalisation, notice line, test-reason line or
  length mode.

When `teacherName` is truthy but not a string (a number, `true`), the call
`teacherName.trim()` throws a TypeError before the `try` block. The handler
then sends no reply and makes no upstream call. The model keeps this as the
`Rejected` outcome of `GenerateHandler.Generate`.

## Model

| member | source | states |
|---|---|---|
| `JsValues.NatToString` | server.js:42-43 | `String(n)` has at least one character, all decimal digits, and starts with `0` exactly when `n` is 0 |
| `JsValues.NatToStringLength` | server.js:42-43 | `String(n)` has one digit exactly when `n` is below 10, and at most two exactly when `n` is below 100 |
| `JsValues.NatToStringValue` | server.js:42-43 | reading back the digits of `String(n)` gives `n` |
| `JsValues.NatToStringOfValue` | server.js:42-43 | every digit string without a leading zero is `String` of its value, the other direction of the round trip |
| `JsValues.PadStart` | server.js:42-43 | `padStart(width, fill)` has length max(\|s\|, width), ends with `s`, and has only `fill` before it |
| `JsValues.RenderNumberValue` | server.js:65-73 | an integer of magnitude at most 2^53 (one a double holds exactly) interpolated into the template reads back as that integer, with a leading `-` when negative |
| `JsValues.FalsyValues` | server.js:46 | the falsy values are exactly `undefined`, `null`, `false`, `0` and `""` |
| `JsValues.TrimStart` | server.js:46 | the result is the suffix of `s` after its leading white space, and starts with a non-white-space character when non-empty |
| `JsValues.TrimEnd` | server.js:46 | the result is the prefix of `s` before its trailing white space, and ends with a non-white-space character when non-empty |
| `JsValues.TrimEmptyIffBlank` | server.js:46 | `s.trim() !== ''` holds exactly when `s` has a character that is not JavaScript white space |
| `JsValues.SliceTo` | server.js:111 | `slice(0, n)` is the prefix of `s` of length min(\|s\|, n) |
| `ReportPrompt.Pad2TwoDigits` | server.js:42-43 | below 100, `String(n).padStart(2, '0')` is exactly two digits that read back as `n` |
| `ReportPrompt.Pad2Length` | server.js:42-43 | below 100, the padded number is exactly two characters long |
| `ReportPrompt.DateTextLayout` | server.js:41-44 | for every month index 0-11 and day 1-31, the date text is seven characters: the padded `getMonth() + 1`, `"월 "`, the padded day, `"일"` |
| `ReportPrompt.DateTextRoundTrip` | server.js:41-44 | reading the two digit pairs of the date text back gives the clock reading it was made from, month counted from 0 again |
| `ReportPrompt.DateTextInjective` | server.js:41-44 | two clock readings with the same date text are the same reading |
| `ReportPrompt.SelectSalutationCases` | server.js:46-48 | the teacher greeting is chosen iff `teacherName` is a string with a non-white-space character, and it then speaks for that string; the academy greeting is chosen iff `teacherName` is falsy or a blank string; the selection throws iff `teacherName` is truthy and not a string |
| `ReportPrompt.ConcatHasPiece` | server.js:47-48 | each piece of a concatenation stands verbatim at the offset where the pieces before it end |
| `ReportPrompt.GreetingMentions` | server.js:47-48 | both greetings contain the class name, the student name and the date text; the teacher greeting also contains the teacher's name |
| `ReportPrompt.AcademyGreetingIgnoresTeacher` | server.js:46-48 | when the academy greets, the greeting does not depend on `teacherName` |
| `ReportPrompt.ScoreTextMeaning` | server.js:71 | the score line reads `미응시` iff the score is falsy (so `0` and `""` read `미응시`); otherwise it is the rendered score followed by `점` |
| `ReportPrompt.WeakScoreTextMeaning` | server.js:72 | the weak-score line reads `없음` iff the weak score is falsy; otherwise it is the rendered value followed by `점` |
| `ReportPrompt.ScoreTextZeroString` | server.js:71 | the string `"0"` is truthy, so it renders `0점`, unlike the number 0 |
| `ReportPrompt.UnlinesLine` | server.js:50-87 | each template line stands verbatim at its start offset in the joined text, followed by a line feed |
| `ReportPrompt.LineStartsIncrease` | server.js:50-87 | an earlier template line ends before a later one starts |
| `ReportPrompt.OpenedLine` | server.js:50-87 | behind the template's opening line break, each line stands at one past its start offset, followed by a line feed |
| `ReportPrompt.AdjacentLines` | server.js:50-87 | two consecutive template lines stand in the prompt one right after the other, each followed by a line feed |
| `ReportPrompt.PromptLine` | server.js:50-87 | each of the 36 template lines appears verbatim in the prompt after its opening line break, followed by a line feed |
| `ReportPrompt.GreetingLine` | server.js:50-87 | the template has 36 lines; line 4 (source line 55) is the rule line and line 5 (source line 56) is the greeting |
| `ReportPrompt.GreetingFollowsRule` | server.js:55-56 | the rule line `- 인사말은 반드시 아래 문장으로 시작:` is followed by a line feed, then the greeting verbatim, then a line feed |
| `ReportPrompt.InputLinesInOrder` | server.js:64-73 | the input lines come right after one another in the order 출결, 태도, 과제, 수업 진도, 과제 내용, 테스트 범위, 데일리 테스트 점수, 취약유사 점수, 추가 요구조건, each as its label and the field's rendering, all after the greeting |
| `ReportPrompt.BuildPromptGreeting` | server.js:41-87 | building fails iff `teacherName` is truthy and not a string; otherwise the prompt's greeting line is the selected greeting for the clock's date text, and it contains that date text |
| `Upstream.ClassifyStatus` | server.js:109-124 | every outcome gets exactly one of 200, 500 and 502; 502 iff the upstream response is not ok; 200 iff it is ok with non-empty content |
| `Upstream.ReplyRevealsKind` | server.js:109-123 | the kind of outcome (thrown, non-ok, malformed, delivered) can be recovered from the reply alone |
| `Upstream.NonOkReply` | server.js:109-111 | a non-ok response gives 502, with a report that starts `⚠️ OpenAI 호출 실패: HTTP `, continues with the status and status text, and ends with the first min(200, \|body\|) characters of the body; the body part is empty when reading the body fails |
| `Upstream.FailureHeadParts` | server.js:111 | the failure head is the fixed prefix at offset 0, then the status digits, a space, the status text and a closing space, each at its offset, and nothing else |
| `Upstream.NonOkReplyNamesStatus` | server.js:111 | the non-ok report starts with the fixed prefix, followed by `String(status)`, a space, the status text and a space; `JsValues.NatToStringValue` reads those digits back as the status |
| `Upstream.StatusNotPropagated` | server.js:109-111 | any two non-ok responses get the same status code, 502 |
| `Upstream.OkReply` | server.js:114-120 | an ok response gives 200 with the content verbatim when the content is non-empty, and 500 with `⚠️ GPT 응답 형식 오류` when it is missing or empty |
| `Upstream.ThrownReply` | server.js:121-123 | a thrown error gives 500 with `⚠️ 서버 내부 오류: ` followed by `요청 시간 초과` for an AbortError, else the error's message, else (an empty message) its name |
| `GenerateHandler.GenerateRepliesOnce` | server.js:34-124 | the handler rejects iff `teacherName` is truthy and not a string; otherwise it sends one `gpt-4o` request whose one user message is the built prompt, and answers with the classification of the provider's outcome, status 200, 500 or 502 |
| `GenerateHandler.GenerateReadsOnlyFields` | server.js:35-87 | two bodies that agree on the twelve destructured fields are handled the same way for the same clock reading and provider, whatever other properties they carry |
| `GenerateHandler.EmptyBodyStillAnswered` | server.js:35-73 | an empty body is still answered; its fields render as `undefined` and its scores as `미응시` and `없음` |

## Left out

- The Express app, the CORS options and header middleware, preflight handling, the JSON body parser, `/health` and `app.listen` (server.js:2-32, 127-128): transport set-up with no logic of its own.
- The `fetch` call itself, its URL and headers, `JSON.stringify` of the request body, the `AbortController` and the 30-second timer (server.js:90-107): network I/O and timing. What they produce enters the model only as an `Upstream.Outcome`, and the request as `GenerateHandler.ChatRequest`.
- Reading the clock with `new Date()` (server.js:41), and its time zone: the month index and the day of the month are parameters.
- `process.env` and dotenv (server.js:4, 97, 127): the API key is configuration I/O, and the file never checks it.
- What Express and Node do with the rejected promise after the TypeError from `teacherName.trim`: it depends on the Express and Node versions (Express 5 hands it to its error handler, which answers 500; under Express 4 it is an unhandled rejection, which ends the process on Node 15 and later). This lies outside the handler.
- Field values that are fractional numbers, integers of magnitude above 2^53, or objects and arrays: fields are modelled as `undefined`, `null`, booleans, integers of magnitude at most 2^53 (`JsValues.SafeInteger`) and strings. Above 2^53 a JSON number is rounded to a double, and `String` writes the shortest digits that round back to it, padded with zeros (2^60 renders as `1152921504606847000`); from 10^21 on it writes exponent form.
- JsValues.RenderNumberValue: the read-back is stated for integers of magnitude at most 2^53 only, the numbers the model carries; it does not hold of JavaScript above that, where `String` rounds the digits.
- Thrown values that are not error objects, and a `choices[0].message.content` that is not a string: the outcome carries an error's name and message, and the content as a string.
- The text the language model generates (beyond being returned verbatim).
- JsValues.SliceTo: counts in Unicode code points, where JavaScript's `slice` counts UTF-16 code units; the two agree on text without characters above U+FFFF.
- Upstream.NonOkReply: counts the 200-character cut in Unicode code points, where JavaScript's `slice` counts UTF-16 code units; the two agree on text without characters above U+FFFF.
