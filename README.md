# HaulVisor page: job orchestration

The HaulVisor front end is a single React page, `HaulVisorPage`. It submits a quantum circuit
(JSON text) to a backend service in three ways:

- compile only (`/compile`);
- run synchronously (`/run`);
- dispatch asynchronously (`/dispatch`), after which a job can be polled by id (`/jobs/{id}`).

It also loads the list of offered backends (`/devices`) when it mounts. Everything the user
sees comes from a handful of state fields:

- three output channels: QASM, job log and result;
- the job id field and the status output;
- a busy flag;
- one error banner, `apiError`.

Every handler overwrites these fields with setter calls. The four button handlers write fixed
placeholders before their request, and the reply or a fallback after it. The catalog loader
writes nothing before its request.

This project models the following in Dafny:

- that state;
- the backend-catalog loader;
- the shared request wrapper `commonFetch`;
- the four button handlers;
- the page's `displayStructuredOutput` helper and its error-message fallback chains.

The network is replaced by an input. Each handler receives the reply its request got as a
`Reply` value:

- a parsed body;
- an HTTP error, with the status, whether its body parsed and its `detail`, and the status text;
- a thrown Error with its message.

Each button handler returns the request it would have sent and the state the page shows while
that request is awaited. The catalog loader returns only its request: `fetchDevices` never sets
the busy flag, so nothing shows while it is awaited.

Modules:

- `Js`: the JavaScript behaviour the page relies on:
  - parsed JSON values and truthiness for `||`;
  - `String(..)` of primitives and the decimal rendering of status codes with its read-back;
  - `displayStructuredOutput`;
  - `trim`.
- `Transport`: one HTTP exchange:
  - replies and requests;
  - the request `commonFetch` builds;
  - the two error-message fallback chains;
  - how `commonFetch` ends (body returned or message raised).
- `Orchestration`: the page state as a value.
  - For each button handler it gives the placeholder writes, the in-flight state, the writes
    after the reply and the whole transition.
  - The catalog loader is one transition, `LoadDevices`.
  - It also
  has a session model: events are handler runs or form edits, disabled while busy. The
  session lemmas say the busy flag never leaks and the selected backend is always in the catalog.
- `HaulVisor`: class `Page`, with one mutable field per `useState` and one method per handler.
  - `CommonFetch` and each handler write the fields in the source's order.
  - The three button handlers that go through `commonFetch` (compile, run, dispatch) are each
    split three ways, as in the source:
    - the statements before the awaited call;
    - the call itself (`CommonFetch`);
    - the `try`/`catch` writes after it.
  - The status check does not go through `commonFetch`: it sends its own GET. It is split into
    the blank-id hint (`ShowBlankIdHint`), the pending writes (`ShowStatusPending`) and the
    reply's `try`/`catch`/`finally` writes (`ShowStatusReply`).
  - The catalog loader is a single method, `FetchDevices`, with no placeholder writes.
  - Each method's final state is proved equal to the matching `Orchestration` transition of its
    initial state. So every property proved about the transitions holds of the class.

Where the code and a plain reading of the page's behaviour differ, the model follows the code:

- The status check clears `apiError` before its request (src/app/page.tsx:222), like `commonFetch`.
- A failure to load the catalog writes its advisory to the same `apiError` banner (src/app/page.tsx:92).
  There is no separate advisory channel, so a later call that clears the banner also hides the advisory.

## Model

| member | source | states |
|---|---|---|
| Js.Truthy | src/app/page.tsx:177-179 | the truthiness `\|\|` tests: objects and arrays are truthy, null and undefined are not, a string is truthy exactly when non-empty, a number exactly when non-zero, and a boolean exactly when true |
| Js.Or | src/app/page.tsx:178-179 | `a \|\| b` on JSON values gives `a` when it is truthy and `b` otherwise, so it is truthy exactly when one of them is |
| Js.OrElse | src/app/page.tsx:152 | `a \|\| b` on strings gives `a` when it is non-empty and `b` otherwise, so it is empty exactly when both are |
| Js.ToJsString | src/app/page.tsx:107 | `String(data)` of a primitive: a string is itself, an integer its signed decimal form, and null, undefined and the booleans their keywords |
| Js.NatToDecimal | src/app/page.tsx:131-132 | the `${response.status}` rendering of a status code is a non-empty string of decimal digits, with no leading zero unless the code is 0 |
| Js.DecimalRoundTrip | src/app/page.tsx:131-132 | reading the rendered digits back as a decimal number gives the status code that was rendered |
| Js.DisplayStructured | src/app/page.tsx:103-112 | objects and arrays go through `JSON.stringify`; null and undefined show "N/A"; strings show themselves; booleans show "true"/"false"; integers show their signed decimal form |
| Js.TrimStart | src/app/page.tsx:216 | the leading-whitespace half of `trim`: a suffix of the input, cutting only white space, not starting with white space |
| Js.TrimEnd | src/app/page.tsx:216 | the trailing-whitespace half of `trim`: a prefix of the input, cutting only white space, not ending with white space |
| Js.Trim | src/app/page.tsx:216-217 | `jobIdToCheck.trim()` is the stretch of the id that is left after its leading and trailing white space is removed: everything before and after that stretch is white space; it is empty exactly when the id is blank, and otherwise neither starts nor ends with white space |
| Js.TrimIdempotent | src/app/page.tsx:216 | trimming an already trimmed id changes nothing |
| Js.TrimmedIsFixed | src/app/page.tsx:216 | an id that neither starts nor ends with white space is sent exactly as typed |
| Transport.FetchRequest | src/app/page.tsx:118-128 | `commonFetch` sends the given method to the given endpoint and attaches the JSON payload exactly for POST and PUT |
| Transport.DetailOrStatus | src/app/page.tsx:132 | `detail \|\| "HTTP error! status: N"` is never empty: it is the detail when there is one, else the fixed "HTTP error! status: " followed by the numeric code |
| Transport.FetchErrorMessage | src/app/page.tsx:130-132 | for a non-ok response: an unparsable body gives "Request failed with status N"; a truthy detail gives the detail; otherwise "HTTP error! status: N"; never empty |
| Transport.StatusErrorMessage | src/app/page.tsx:227-229 | the status check's chain: an unparsable body gives the status text, or the "HTTP error! status: N" text when that is empty; a parsed body gives the same message as `commonFetch`; never empty |
| Transport.FetchOutcome | src/app/page.tsx:128-139 | `commonFetch` returns the reply's body exactly when the reply is ok; an HTTP error raises the `FetchErrorMessage` of its status and body, which is never empty; a thrown Error is re-raised with its own message |
| Orchestration.Initial | src/app/page.tsx:50-74 | the initial state is not busy, has no error, has a blank job id, offers the four default backends and has the selected backend ("pennylane") among them |
| Orchestration.LoadDevices | src/app/page.tsx:76-94 | an ok non-empty list replaces the catalog, and the backend is replaced by the first entry exactly when it is not listed; an empty list changes nothing; a failure sets only the advisory; backend-in-catalog is preserved; no other field changes |
| Orchestration.FetchStart | src/app/page.tsx:115-116 | before the request, `commonFetch` sets the busy flag and clears the error, and changes nothing else |
| Orchestration.FetchSettle | src/app/page.tsx:135-142 | after the reply, the busy flag is false; a failure sets the error to "API Error: " and the message; a success leaves the error alone; nothing else changes |
| Orchestration.CompileInFlight | src/app/page.tsx:146-148 | while /compile is awaited: busy, no error, "Compiling circuit..." in the QASM channel, empty log and result; inputs and status check unchanged |
| Orchestration.Compile | src/app/page.tsx:145-160 | the log and result end empty whatever the reply; an embedded error sets both the error ("Compilation Error: e") and the QASM channel ("Compilation failed: e"); with no error the QASM channel shows the QASM or "No QASM returned."; a failure shows "Compilation failed: " and the message; the error is empty exactly when the call and the compilation both succeeded; not busy at the end |
| Orchestration.CompileShown | src/app/page.tsx:151-159 | after the call only the QASM channel and, for an embedded error, the error banner change: the error sets both "Compilation Error: e" and "Compilation failed: e"; no error shows the QASM or "No QASM returned."; a raised message shows "Compilation failed: " and the message |
| Orchestration.RunInFlight | src/app/page.tsx:164-166 | while /run is awaited: busy, no error, and the three "Processing..." / "Submitting job to B (sync)..." / "Running..." placeholders |
| Orchestration.RunSummary | src/app/page.tsx:178 | the fallback log line names the backend and the job id, or "N/A" when there is no job id |
| Orchestration.RunShown | src/app/page.tsx:175-186 | after the call each channel shows the returned value or its fallback chain, and an embedded error also sets "Run Error: e"; a raised message puts "Run failed.", "Error: " and the message, and "Failed." in the channels; the form and status check are untouched |
| Orchestration.Run | src/app/page.tsx:163-187 | on success the QASM channel shows the QASM or its fallback; the log shows the logs or the summary naming the backend and the job id (or "N/A"); the result shows the result, else the error, else "No result data."; the error is "Run Error: e" exactly when an error came back, else empty; on failure the three channels hold "Run failed.", "Error: " and the message, and "Failed."; not busy at the end; form and status check unchanged |
| Orchestration.DispatchInFlight | src/app/page.tsx:190-192 | while /dispatch is awaited: busy, no error, and the three dispatch placeholders naming the backend |
| Orchestration.DispatchShown | src/app/page.tsx:201-212 | after the call a success overwrites the job id field with the returned id and fills the three channels; a raised message leaves the job id field alone and puts the failure placeholders in the channels; the busy flag and error are untouched |
| Orchestration.Dispatch | src/app/page.tsx:189-213 | on success the job id field becomes exactly the returned id, the log is the message and "\nJob ID: " followed by the id, and the result is the fixed "Job dispatched..." text; on failure the job id field is unchanged and the channels hold "Dispatch failed.", "Error: " and the message, and "Dispatch failed."; not busy at the end |
| Orchestration.StatusRequest | src/app/page.tsx:216-226 | no request for a blank job id; otherwise a GET of /jobs/ followed by the trimmed id, with no body |
| Orchestration.StatusFailure | src/app/page.tsx:226-235 | the status check's failure message: for an HTTP error the `StatusErrorMessage` of its status, body and status text (never empty), for a thrown Error its own message |
| Orchestration.StatusInFlight | src/app/page.tsx:221-223 | while the job record is awaited: busy, no error, "Checking status for Job ID: id..." in the status output; nothing else changes |
| Orchestration.StatusShown | src/app/page.tsx:225-240 | once the reply is in the busy flag is false; success shows the status data or "No status data found." and leaves the error alone; a failure puts the same message on the error banner and in the status output; nothing else changes |
| Orchestration.CheckStatus | src/app/page.tsx:215-241 | a blank id changes only the status output, to "Please enter a Job ID."; otherwise the busy flag ends false, channels and form are unchanged, success shows the status data or "No status data found." with no error, and a failure puts the same message in both the error and the status output |
| Orchestration.CheckStatusCases | src/app/page.tsx:216-226 | the check on the trimmed id agrees with the id being blank; a blank id gives no request and only the hint, and any other id gives the GET of /jobs/ and the trimmed id followed by the in-flight and reply writes |
| Orchestration.Enabled | src/app/page.tsx:279-358 | every input and button is disabled while busy, and the buttons and text inputs are enabled when not busy; the backend select offers only the catalog's entries and the priority select only "normal", "high" and "low" |
| Orchestration.Step | src/app/page.tsx:279-358 | a handler run or form edit, refused while busy or outside the select's options, keeps the page settled: not busy, with the selected backend in the catalog |
| Orchestration.ReplayStaysSettled | src/app/page.tsx:50-241 | every session of events that starts settled ends settled |
| Orchestration.SessionKeepsBackendOffered | src/app/page.tsx:63-92 | from the initial state, every session keeps the selected backend in the catalog and ends not busy |
| Orchestration.ErrorShowsLatestCallOnly | src/app/page.tsx:115-237 | the error banner after compile, run, dispatch or a status check of a non-blank id depends only on that call's reply |
| Orchestration.DispatchFeedsStatusCheck | src/app/page.tsx:206-232 | right after a successful dispatch with a non-blank id, the status check asks for that job and shows what it returns, with no error |
| HaulVisor.Page.constructor | src/app/page.tsx:50-74 | the fields start at the `useState` initial values, which are settled |
| HaulVisor.Page.FetchDevices | src/app/page.tsx:76-94 | sends GET /devices; the new state is `LoadDevices` of the old one; settledness is kept |
| HaulVisor.Page.CommonFetch | src/app/page.tsx:114-143 | the request sent, the busy and cleared-error state while it is out, the outcome handed back, and the final state: that of `FetchSettle` |
| HaulVisor.Page.HandleCompileOnly | src/app/page.tsx:145-161 | sends POST /compile with the circuit and backend; in flight as `CompileInFlight`; ends as `Compile`; settledness is kept |
| HaulVisor.Page.ShowCompilePending | src/app/page.tsx:146-148 | the three placeholder writes |
| HaulVisor.Page.ShowCompileOutcome | src/app/page.tsx:151-159 | the writes after `commonFetch` returns or raises |
| HaulVisor.Page.HandleRunSynchronously | src/app/page.tsx:163-187 | sends POST /run with circuit, backend, priority and retries; in flight as `RunInFlight`; ends as `Run`; settledness is kept |
| HaulVisor.Page.ShowRunPending | src/app/page.tsx:164-166 | the three placeholder writes |
| HaulVisor.Page.ShowRunOutcome | src/app/page.tsx:175-186 | the writes after `commonFetch` returns or raises |
| HaulVisor.Page.HandleDispatchAsynchronously | src/app/page.tsx:189-213 | sends POST /dispatch with the same payload; in flight as `DispatchInFlight`; ends as `Dispatch`; settledness is kept |
| HaulVisor.Page.ShowDispatchPending | src/app/page.tsx:190-192 | the three placeholder writes |
| HaulVisor.Page.ShowDispatchOutcome | src/app/page.tsx:201-212 | the writes after `commonFetch` returns or raises |
| HaulVisor.Page.HandleCheckStatus | src/app/page.tsx:215-241 | sends nothing and has no in-flight state exactly when the id is blank; otherwise sends the `StatusRequest` GET; ends as `CheckStatus`; settledness is kept |
| HaulVisor.Page.ShowBlankIdHint | src/app/page.tsx:217-219 | a blank id writes "Please enter a Job ID." to the status output and changes nothing else |
| HaulVisor.Page.CheckJob | src/app/page.tsx:221-240 | past the blank check: sends the `StatusRequest` GET of /jobs/ with the trimmed id; in flight as `StatusInFlight`; the reply's writes follow |
| HaulVisor.Page.ShowStatusPending | src/app/page.tsx:221-223 | the busy, cleared-error and "Checking status..." writes |
| HaulVisor.Page.ShowStatusReply | src/app/page.tsx:225-240 | the `try`, `catch` and `finally` writes for the reply |

## Left out

- JSX rendering, class strings and the layout file: presentation only. The only part used is
  which controls are disabled while busy and what the two selects offer (`Orchestration.Enabled`).
- `fetch`, HTTP and JSON parsing: a `Reply` value stands for what came back. A rejected fetch
  and an ok body that fails to parse are both `Thrown`. So is any other Error raised inside
  the `try` while an error reply is read. For example, an error body that parses to JSON `null`
  makes `errorData.detail` throw a TypeError (src/app/page.tsx:132, 229). The page then shows
  that TypeError's message, not "HTTP error! status: N".
- The text `JSON.stringify(data, null, 2)` produces: an uninterpreted function `stringify`.
- `console.error`: it has no effect on the state.
- `API_BASE_URL`: requests carry the path below it.
- React scheduling: batched renders, the `useEffect` re-running when `backend` changes, and
  closures that capture an older `backend`. Each handler runs to completion on the state it
  starts from, one at a time. Overlapping handlers are not modelled.
- The Error that a non-Error value would leave ("An unknown ... error occurred"): every failure
  in this model carries an Error message.
- `Number(retries)` and `parseInt` producing NaN: retries is an `int` passed through unchanged.
- Floating-point numbers in JSON values: numbers are integers. `Js.ToJsString` and
  `Js.DisplayStructured` render every integer in plain decimal. JavaScript's `String(n)` gives
  exponent notation ("1e+21") from 10^21 upwards, and `JSON.parse` rounds integers beyond 2^53.
  Neither is modelled.
- Response fields of the wrong type: `qasm`, `error`, `job_id`, `message` and `detail` are
  strings, with "" standing for a missing or falsy value.
- A null body from /devices is not modelled: the catalog reply is a list.
- An ok reply whose JSON is `null` is not modelled. `data.qasm` then throws inside the
  handler's own `try` after `commonFetch` has returned. The channels show the failure text
  ("Compilation failed: ...", "Run failed.", "Dispatch failed.") while `apiError` stays "".
  `Reply` has no case for this: `Ok` always carries a record, and `Thrown` always sets `apiError`.
- HaulVisor.Page.HandleDispatchAsynchronously: does not model that a missing `message` or
  `job_id` renders as "undefined" in the log and stores undefined in the job id field, because
  the response fields are strings in this model.
- Js.Trim: removes the white space listed in `IsWhitespace` only, not every Unicode space
  separator that JavaScript's `trim` removes.
