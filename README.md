# Lead-capture form of the yijian-website footer, modelled in Dafny

The site is static markup except for one form: the footer asks a visitor
for a name, a phone number and a child's school grade and posts them to
`/api/contact`. This project models the two pieces of logic behind it.

- **The browser side** (`src/sections/Footer.tsx`): `validateForm`, an
  ordered, short-circuiting check of the three fields that reports only the
  first failure; `fetchWithRetry`, a bounded retry loop that stops at the
  first call that does not throw; and `handleSubmit`, which maps the result
  onto the component's four state variables (`formData`, `isSubmitting`,
  `submitStatus`, `errorMessage`). The network is replaced by an injected
  list of attempt results. Each result either threw, or returned a response
  with an ok flag and a body that is not JSON, the JSON value `null`, or
  another JSON value with an optional string `message`.
- **The server side** (`server/main.py`): the `ContactForm` field
  validators `validate_name`, `validate_phone` and `validate_grade`. Each
  either raises with a fixed message or returns the stripped value.

Modules, one per concern:

| file | module | contents |
|---|---|---|
| wrappers.dfy | Wrappers | `Option` |
| text.dfy | Text | white space, ASCII digits, `Trim` and its laws |
| phone_pattern.dfy | PhonePattern | `/^1[3-9]\d{9}$/` as a sequence of character classes, and what it accepts |
| retry.dfy | Retry | attempts, `RetrySpec` (the loop's meaning), the `FetchWithRetry` loop |
| footer.dfy | Footer | `FormData`, `Validate`, `SubmitSpec`, and the class `LeadForm` holding the component state |
| server.dfy | Server | the three pydantic validators |
| client_server.dfy | ClientServer | how the two sets of rules relate |

`LeadForm.HandleSubmit` is proved against the function `SubmitSpec`, and
`FetchWithRetry` against `RetrySpec`; the source's promises are proved about
those two functions. The body that `HandleSubmit` posts is `formData` as
typed, not trimmed (`src/sections/Footer.tsx:108`). The server strips each
field again. So the refinement results are stated on the untrimmed fields.
Under the shared white-space assumption below, every phone the browser
accepts is accepted by the server, and the converse fails (`12345678901`).
The real programs trim differently, so the first result does not carry over
as it stands: `"13800138000\uFEFF"` passes `validateForm`, because
JavaScript's `trim` removes U+FEFF, but Python's `strip` keeps it, so the
server sees 12 characters and refuses the phone. A one-character name passes the browser and is
refused by the server, which wants at least two characters.

Points of the code that the model keeps:

- `handleSubmit` has no re-entrancy check; only the submit button is disabled while `isSubmitting` is
  true (line 234). `SubmitIgnoresInFlightFlag` proves the handler never reads `isSubmitting`, and
  `NoReentrancyGuard` shows a second submission going out while one is in flight.
- A validation failure sets only `errorMessage`; `submitStatus` keeps its value (lines 50-54).
- `response.json()` is awaited before `response.ok` is examined (line 111). A 2xx response whose body is
  not JSON therefore ends in the catch, with the warming-up message and the form kept.
- A non-2xx response whose body is `null` also ends in the catch: `data.message` throws (line 123).
  A 2xx `null` body is a success.

Assumptions: the model uses one white-space set, the ASCII one (space, tab,
line feed, vertical tab, form feed, carriage return), for both JavaScript's
`trim` and Python's `strip`. The real sets differ: `trim` also removes
U+FEFF and other Unicode spaces, and `strip` also removes
`\x1c`-`\x1f` and other Unicode spaces, which `trim` keeps. Digits are ASCII `0`-`9` for both `\d` and `str.isdigit`. Lengths
count Unicode scalar values, as Python's `len` counts code points. The
network list must hold at least `maxRetries` results, one for every call the
loop may make.

## Model

| member | source | states |
|---|---|---|
| Text.Trim | src/sections/Footer.tsx:27 | the trimmed value has no white space at either end, and it is empty exactly when the input is blank |
| Text.TrimIsInfix | server/main.py:46 | trimming removes white space only at the two ends: the result is an infix of the input, with only white space around it |
| Text.TrimIdempotent | server/main.py:40 | trimming an already trimmed value changes nothing |
| PhonePattern.MobilePatternMeaning | src/sections/Footer.tsx:36 | the anchored pattern `1[3-9]\d{9}` accepts a string iff it has 11 characters: `1`, then one of `3`-`9`, then nine ASCII digits |
| PhonePattern.TestMobile | src/sections/Footer.tsx:36-37 | `phoneRegex.test` is true iff the string is a mobile number of that shape, hence 11 ASCII digits |
| Retry.RetrySpec | src/sections/Footer.tsx:82-100 | with `maxRetries <= 0` no call is made and it throws; otherwise 1 to `maxRetries` calls: every call but the last threw, a returned response is the last call's, a rethrow happens only after `maxRetries` calls with the last error; waits = calls - 1 |
| Retry.FetchWithRetry | src/sections/Footer.tsx:83-99 | the counted loop with early return and rethrow produces exactly the outcome, call count and wait count of `RetrySpec` |
| Retry.AnswerIsNotRetried | src/sections/Footer.tsx:85-86 | the first call that returns a response, ok or not, ends the loop: it is the result, after exactly that many calls |
| Retry.RethrowIffAllThrew | src/sections/Footer.tsx:87-93 | the last error escapes iff `maxRetries > 0` and every permitted call threw |
| Footer.WithField | src/sections/Footer.tsx:19-24 | a change event replaces exactly the named field |
| Footer.Validate | src/sections/Footer.tsx:26-46 | no failure iff the trimmed name and grade are non-empty and the trimmed phone is a mobile number; otherwise the reported failure is the first of name-empty, phone-empty, phone-malformed, grade-empty that applies |
| Footer.FirstFailureIgnoresLaterFields | src/sections/Footer.tsx:27-44 | a reported failure depends only on the fields checked up to it; changing later fields does not change it |
| Footer.FailureMessage | src/sections/Footer.tsx:123 | a present, non-empty server `message` is shown verbatim; a missing or empty one gives the default text |
| Footer.Settle | src/sections/Footer.tsx:111-131 | after the network phase `isSubmitting` is false; success iff a 2xx response whose body is JSON (including `null`), which empties the form; a non-2xx response with a non-null JSON body shows its message; an exhausted retry, a body that is not JSON, or a non-2xx `null` body shows the warming-up message; every error path keeps the form |
| Footer.SubmitSpec | src/sections/Footer.tsx:48-132 | at most 2 calls; an invalid form makes no call and changes only `errorMessage`, to the first failure's message; a valid form posts its untrimmed fields, makes at least one call, ends with `isSubmitting` false and status success (form emptied, no message) or error (form kept, a message shown) |
| Footer.LeadForm.constructor | src/sections/Footer.tsx:10-17 | the component starts with an empty form, not submitting, idle, no message |
| Footer.LeadForm.HandleChange | src/sections/Footer.tsx:19-24 | only the named field of `formData` changes |
| Footer.LeadForm.ValidateForm | src/sections/Footer.tsx:26-46 | returns true iff `Validate` finds no failure; on a failure only `errorMessage` changes, to its message |
| Footer.LeadForm.HandleSubmit | src/sections/Footer.tsx:48-132 | the step-by-step handler leaves the state, call count and posted body that `SubmitSpec` gives |
| Footer.LeadForm.TimerFired | src/sections/Footer.tsx:118-120 | the reset timer sets the status to idle and changes nothing else |
| Footer.ServerRejectionShownVerbatim | src/sections/Footer.tsx:121-124 | a first response that is non-2xx with a message: one call, status error, that exact message, form kept |
| Footer.RetryThenSuccess | src/sections/Footer.tsx:83-115 | a thrown first call and a 2xx second: two calls, success, form emptied |
| Footer.BothAttemptsThrow | src/sections/Footer.tsx:87-127 | both calls throw: two calls, error, the warming-up message, form kept |
| Footer.SubmitIgnoresInFlightFlag | src/sections/Footer.tsx:48-57 | for every state and network, the calls, the posted body and the resulting state do not depend on `isSubmitting` (an invalid form leaves the flag as it was) |
| Footer.NoReentrancyGuard | src/sections/Footer.tsx:48-57 | a submission started while `isSubmitting` is already true still validates and calls the network |
| Server.ValidateName | server/main.py:34-40 | accepted iff at least 2 characters after stripping, returning the stripped name; a blank name raises the empty-name message, a shorter one the too-short message |
| Server.ValidatePhone | server/main.py:42-50 | accepted iff the stripped value starts with `1`, has length 11 and is all digits, returning it; a blank value raises the empty message, any other refusal the format message |
| Server.ValidateGrade | server/main.py:52-56 | accepted iff not blank, returning the stripped, non-empty grade; otherwise raises the empty-grade message |
| Server.ValidatorsIdempotent | server/main.py:34-56 | each validator accepts its own output and returns it unchanged |
| ClientServer.ClientPhoneAcceptedByServer | server/main.py:48 | with one white-space set for both trims, every phone the browser accepts (after trimming) is accepted by the server, which returns the trimmed value |
| ClientServer.ServerPhoneRuleIsWeaker | server/main.py:48 | `12345678901` is accepted by the server and refused by the browser pattern |
| ClientServer.ClientNameRuleIsWeaker | server/main.py:38-39 | a form with a one-character name passes `validateForm` and the server refuses that name as too short |
| ClientServer.PostedFormOnServer | src/sections/Footer.tsx:108 | the untrimmed fields a valid form posts pass the server's phone and grade checks, stored trimmed; the name passes iff it has at least 2 characters once trimmed |
| ClientServer.ServerBlankImpliesClientRejects | server/main.py:36-55 | a field the server refuses as blank is also refused by the browser |

## Left out

- `fetchWithTimeout` (src/sections/Footer.tsx:60-79), `fetch`, `AbortController` and the 60-second timeout: browser networking and timers. A call is only an abstract attempt result.
- The 2-second wait between attempts (line 96): a wall-clock timer. It is only counted.
- The 3-second reset timer (lines 118-120) is the separate method `TimerFired`; when it fires relative to later events is not modelled.
- `console.warn` and `console.error` logging.
- `API_BASE_URL`, the request URL, method and headers: configuration, not logic. Only the posted body is modelled.
- React's asynchronous, batched state updates: `HandleSubmit` runs from start to end without interleaving events.
- JSX rendering and the `disabled` attributes, and the other page sections (Hero, Navbar, Features, Courses, Teachers, Competitions, App): presentation only.
- `data.message` values that are not strings: JavaScript truthiness of numbers or objects is not modelled.
- Unicode white space and Unicode digits in `trim`, `strip` and `isdigit`: replaced by the ASCII sets above. Where the two real white-space sets differ (U+FEFF removed by `trim` only, `\x1c`-`\x1f` removed by `strip` only), the two sides can disagree; `"13800138000\uFEFF"` passes the browser and is refused by the server.
- ClientServer.ClientPhoneAcceptedByServer: holds only under the shared white-space set; with the real `trim` and `strip`, U+FEFF at either end of the phone breaks it.
- `server/main.py` routing, CORS, SQLite (`init_db`, the insert of `submit_contact`, `get_contacts`, `get_stats`) and uvicorn startup: I/O and external libraries. It also leaves out how pydantic gathers the validators' errors into an HTTP 422 response.
