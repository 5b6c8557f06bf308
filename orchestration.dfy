/** The job-orchestration state of the HaulVisor page as a value, and each handler as a
    transition from the state before the click (and the reply the network gave) to the
    state after it. Each handler also has an "in flight" state: what the page shows while
    its request is awaited. */
module Orchestration {
  import opened Js
  import opened Transport

  /** Success bodies. A string field is "" when the server left it out or sent a falsy value. */
  datatype CompileBody = CompileBody(qasm: string, error: string)
  datatype RunBody = RunBody(qasm: string, error: string, jobId: string, logs: Json, result: Json)
  datatype DispatchBody = DispatchBody(jobId: string, message: string, qasm: string)
  datatype StatusBody = StatusBody(jobId: string, statusData: Json)

  /** Every state field of the page: the form inputs, the backend catalog, the output
      channels, the job id field, the busy flag and the error channel. */
  datatype PageState = PageState(
    circuitJson: string,
    backend: string,
    priority: string,
    retries: int,
    availableBackends: seq<string>,
    qasmOutput: string,
    jobLog: string,
    resultOutput: string,
    jobIdToCheck: string,
    statusCheckOutput: string,
    isLoading: bool,
    apiError: string)

  const DefaultCircuit: string :=
    "{\n  \"name\": \"BellState\",\n  \"qubits\": 2,\n  \"shots\": 1024,\n  \"gates\": [\n"
    + "    { \"op\": \"H\", \"target\": 0 },\n"
    + "    { \"op\": \"CX\", \"control\": 0, \"target\": 1 },\n"
    + "    { \"op\": \"MEASURE\", \"target\": 0 },\n"
    + "    { \"op\": \"MEASURE\", \"target\": 1 }\n  ]\n}"

  const DefaultBackends: seq<string> := ["pennylane", "qiskit", "braket", "ibm"]

  const Priorities: seq<string> := ["normal", "high", "low"]

  const DevicesAdvisory: string := "Could not fetch available backends. Using defaults."

  /** The selected backend is one the catalog offers. */
  predicate BackendOffered(s: PageState) {
    s.backend in s.availableBackends
  }

  /** The form inputs and the backend catalog are the same in both states. */
  predicate SameForm(s: PageState, r: PageState) {
    SameInputs(s, r) && r.backend == s.backend && r.availableBackends == s.availableBackends
  }

  /** The circuit text, priority and retry count are the same in both states. */
  predicate SameInputs(s: PageState, r: PageState) {
    r.circuitJson == s.circuitJson && r.priority == s.priority && r.retries == s.retries
  }

  /** The QASM, log and result channels are the same in both states. */
  predicate SameChannels(s: PageState, r: PageState) {
    r.qasmOutput == s.qasmOutput && r.jobLog == s.jobLog && r.resultOutput == s.resultOutput
  }

  /** The job id field and the status output are the same in both states. */
  predicate SameStatusCheck(s: PageState, r: PageState) {
    r.jobIdToCheck == s.jobIdToCheck && r.statusCheckOutput == s.statusCheckOutput
  }

  /** Between handlers: not busy, and the selection is in the catalog. */
  predicate Settled(s: PageState) {
    BackendOffered(s) && !s.isLoading
  }

  /** The state the page mounts with. */
  function Initial(): (s: PageState)
    ensures Settled(s)
    ensures s.apiError == "" && IsBlank(s.jobIdToCheck)
    ensures s.availableBackends == DefaultBackends && s.priority in Priorities
  {
    PageState(DefaultCircuit, "pennylane", "normal", 3, DefaultBackends,
      "Awaiting circuit submission...", "Awaiting job activity...", "Awaiting results...",
      "", "", false, "")
  }

  // ---------------------------------------------------------------------------
  // Backend catalog

  const DevicesRequest: Request := Request(Get, "/devices", None)

  /** `fetchDevices` applied to the reply from /devices. */
  function LoadDevices(s: PageState, reply: Reply<seq<string>>): (r: PageState)
    ensures SameInputs(s, r) && SameChannels(s, r) && SameStatusCheck(s, r) && r.isLoading == s.isLoading
    ensures reply.Ok? && reply.body != [] ==>
      r.availableBackends == reply.body && r.apiError == s.apiError
      && (r.backend == s.backend <==> s.backend in reply.body)
      && (s.backend !in reply.body ==> r.backend == reply.body[0])
    ensures reply.Ok? && reply.body == [] ==> r == s
    ensures !reply.Ok? ==> r == s.(apiError := DevicesAdvisory)
    ensures BackendOffered(s) ==> BackendOffered(r)
    ensures reply.Ok? && reply.body != [] ==> BackendOffered(r)
  {
    match reply
    case Ok(data) =>
      if |data| > 0 then
        var listed := s.(availableBackends := data);
        if s.backend !in data then listed.(backend := data[0]) else listed
      else s
    case HttpError(_, _, _) => s.(apiError := DevicesAdvisory)
    case Thrown(_) => s.(apiError := DevicesAdvisory)
  }

  // ---------------------------------------------------------------------------
  // The shared wrapper `commonFetch`

  /** `commonFetch` before its request: busy, and the error channel cleared; nothing else. */
  function FetchStart(s: PageState): (r: PageState)
    ensures r.isLoading && r.apiError == ""
    ensures SameForm(s, r) && SameChannels(s, r) && SameStatusCheck(s, r)
  {
    s.(isLoading := true, apiError := "")
  }

  /** `commonFetch` after its request: the `finally` clears the busy flag, and a failure
      is written to the error channel before it is re-raised; nothing else changes. */
  function FetchSettle<T>(m: PageState, o: Outcome<T>): (r: PageState)
    ensures !r.isLoading
    ensures o.Raised? ==> r.apiError == "API Error: " + o.message
    ensures o.Success? ==> r.apiError == m.apiError
    ensures SameForm(m, r) && SameChannels(m, r) && SameStatusCheck(m, r)
  {
    var t := if o.Raised? then m.(apiError := "API Error: " + o.message) else m;
    t.(isLoading := false)
  }

  /** The message of the Error a failed reply makes `commonFetch` raise. */
  function FailureMessage<T>(reply: Reply<T>): string
    requires !reply.Ok?
  {
    FetchOutcome(reply).message
  }

  // ---------------------------------------------------------------------------
  // Compile only

  function CompileRequest(s: PageState): Request {
    FetchRequest("/compile", CompilePayload(s.circuitJson, s.backend), Post)
  }

  /** The placeholders `handleCompileOnly` writes before it awaits /compile. */
  function CompilePending(s: PageState): PageState {
    s.(qasmOutput := "Compiling circuit...", jobLog := "", resultOutput := "")
  }

  /** `handleCompileOnly` while /compile is awaited. */
  function CompileInFlight(s: PageState): (r: PageState)
    ensures r.isLoading && r.apiError == ""
    ensures r.qasmOutput == "Compiling circuit..." && r.jobLog == "" && r.resultOutput == ""
    ensures SameForm(s, r) && SameStatusCheck(s, r)
  {
    FetchStart(CompilePending(s))
  }

  /** What `handleCompileOnly` writes once `commonFetch` has returned or raised: only the
      QASM channel, and the error channel when the compiler reported an error. */
  function CompileShown(t: PageState, o: Outcome<CompileBody>): (r: PageState)
    ensures SameForm(t, r) && SameStatusCheck(t, r) && r.isLoading == t.isLoading
    ensures r.jobLog == t.jobLog && r.resultOutput == t.resultOutput
    ensures o.Success? && o.value.error != "" ==>
      r.qasmOutput == "Compilation failed: " + o.value.error && r.apiError == "Compilation Error: " + o.value.error
    ensures o.Success? && o.value.error == "" ==>
      r.qasmOutput == (if o.value.qasm != "" then o.value.qasm else "No QASM returned.") && r.apiError == t.apiError
    ensures o.Raised? ==> r.qasmOutput == "Compilation failed: " + o.message && r.apiError == t.apiError
  {
    match o
    case Success(data) =>
      var shown := t.(qasmOutput := OrElse(data.qasm, "No QASM returned."));
      if data.error != "" then
        shown.(apiError := "Compilation Error: " + data.error, qasmOutput := "Compilation failed: " + data.error)
      else shown
    case Raised(message) =>
      t.(qasmOutput := "Compilation failed: " + message)
  }

  /** The whole of `handleCompileOnly`. The log and result channels end empty whatever the
      reply; an embedded error is reported on both the error channel and the QASM channel;
      the error channel is empty exactly when the call and the compilation both succeeded. */
  function Compile(s: PageState, reply: Reply<CompileBody>): (r: PageState)
    ensures r.jobLog == "" && r.resultOutput == "" && !r.isLoading
    ensures SameForm(s, r) && SameStatusCheck(s, r)
    ensures reply.Ok? && reply.body.error != "" ==>
      r.apiError == "Compilation Error: " + reply.body.error
      && r.qasmOutput == "Compilation failed: " + reply.body.error
    ensures reply.Ok? && reply.body.error == "" ==>
      r.apiError == ""
      && r.qasmOutput == (if reply.body.qasm != "" then reply.body.qasm else "No QASM returned.")
    ensures !reply.Ok? ==>
      r.apiError == "API Error: " + FailureMessage(reply)
      && r.qasmOutput == "Compilation failed: " + FailureMessage(reply)
    ensures r.apiError == "" <==> reply.Ok? && reply.body.error == ""
  {
    var o := FetchOutcome(reply);
    CompileShown(FetchSettle(CompileInFlight(s), o), o)
  }

  // ---------------------------------------------------------------------------
  // Synchronous run

  function RunRequest(s: PageState): Request {
    FetchRequest("/run", JobPayload(s.circuitJson, s.backend, s.priority, s.retries), Post)
  }

  /** The placeholders `handleRunSynchronously` writes before it awaits /run. */
  function RunPending(s: PageState): PageState {
    s.(qasmOutput := "Processing...",
       jobLog := "Submitting job to " + s.backend + " (sync)...",
       resultOutput := "Running...")
  }

  /** `handleRunSynchronously` while /run is awaited. */
  function RunInFlight(s: PageState): (r: PageState)
    ensures r.isLoading && r.apiError == ""
    ensures r.qasmOutput == "Processing..." && r.resultOutput == "Running..."
    ensures r.jobLog == "Submitting job to " + s.backend + " (sync)..."
    ensures SameForm(s, r) && SameStatusCheck(s, r)
  {
    FetchStart(RunPending(s))
  }

  /** The summary written to the log when a run returns no logs. */
  function RunSummary(backend: string, jobId: string): (r: string)
    ensures jobId != "" ==> r == "Synchronous run completed for backend: " + backend + ". Job ID: " + jobId
    ensures jobId == "" ==> r == "Synchronous run completed for backend: " + backend + ". Job ID: N/A"
  {
    "Synchronous run completed for backend: " + backend + ". Job ID: " + OrElse(jobId, "N/A")
  }

  /** What `handleRunSynchronously` writes once `commonFetch` has returned or raised: the
      three channels always, and the error channel when the run reported an error. */
  function RunShown(t: PageState, o: Outcome<RunBody>, stringify: Json -> string): (r: PageState)
    ensures SameForm(t, r) && SameStatusCheck(t, r) && r.isLoading == t.isLoading
    ensures o.Success? ==>
      && r.qasmOutput == (if o.value.qasm != "" then o.value.qasm else "QASM not available from this run.")
      && r.jobLog == (if Truthy(o.value.logs) then DisplayStructured(o.value.logs, stringify)
                      else RunSummary(t.backend, o.value.jobId))
      && r.resultOutput == (if Truthy(o.value.result) then DisplayStructured(o.value.result, stringify)
                            else if o.value.error != "" then o.value.error else "No result data.")
      && r.apiError == (if o.value.error != "" then "Run Error: " + o.value.error else t.apiError)
    ensures o.Raised? ==>
      r.qasmOutput == "Run failed." && r.jobLog == "Error: " + o.message
      && r.resultOutput == "Failed." && r.apiError == t.apiError
  {
    match o
    case Success(data) =>
      var shown := t.(qasmOutput := OrElse(data.qasm, "QASM not available from this run."),
                      jobLog := DisplayStructured(Or(data.logs, Str(RunSummary(t.backend, data.jobId))), stringify),
                      resultOutput := DisplayStructured(Or(data.result, Str(OrElse(data.error, "No result data."))), stringify));
      if data.error != "" then shown.(apiError := "Run Error: " + data.error) else shown
    case Raised(message) =>
      t.(qasmOutput := "Run failed.", jobLog := "Error: " + message, resultOutput := "Failed.")
  }

  /** The whole of `handleRunSynchronously`. On success each channel shows the returned
      value or its fallback chain; on failure all three channels get fixed placeholders,
      so nothing shown before the click survives. */
  function Run(s: PageState, reply: Reply<RunBody>, stringify: Json -> string): (r: PageState)
    ensures !r.isLoading
    ensures SameForm(s, r) && SameStatusCheck(s, r)
    ensures reply.Ok? ==>
      var data := reply.body;
      && r.qasmOutput == (if data.qasm != "" then data.qasm else "QASM not available from this run.")
      && (Truthy(data.logs) ==> r.jobLog == DisplayStructured(data.logs, stringify))
      && (!Truthy(data.logs) ==>
            r.jobLog == "Synchronous run completed for backend: " + s.backend + ". Job ID: "
                        + (if data.jobId != "" then data.jobId else "N/A"))
      && (Truthy(data.result) ==> r.resultOutput == DisplayStructured(data.result, stringify))
      && (!Truthy(data.result) && data.error != "" ==> r.resultOutput == data.error)
      && (!Truthy(data.result) && data.error == "" ==> r.resultOutput == "No result data.")
      && r.apiError == (if data.error != "" then "Run Error: " + data.error else "")
    ensures !reply.Ok? ==>
      r.qasmOutput == "Run failed." && r.jobLog == "Error: " + FailureMessage(reply)
      && r.resultOutput == "Failed." && r.apiError == "API Error: " + FailureMessage(reply)
  {
    var o := FetchOutcome(reply);
    RunShown(FetchSettle(RunInFlight(s), o), o, stringify)
  }

  // ---------------------------------------------------------------------------
  // Asynchronous dispatch

  function DispatchRequest(s: PageState): Request {
    FetchRequest("/dispatch", JobPayload(s.circuitJson, s.backend, s.priority, s.retries), Post)
  }

  /** The placeholders `handleDispatchAsynchronously` writes before it awaits /dispatch. */
  function DispatchPending(s: PageState): PageState {
    s.(qasmOutput := "Processing...",
       jobLog := "Dispatching job to " + s.backend + " (async)...",
       resultOutput := "Awaiting job ID...")
  }

  /** `handleDispatchAsynchronously` while /dispatch is awaited. */
  function DispatchInFlight(s: PageState): (r: PageState)
    ensures r.isLoading && r.apiError == ""
    ensures r.qasmOutput == "Processing..." && r.resultOutput == "Awaiting job ID..."
    ensures r.jobLog == "Dispatching job to " + s.backend + " (async)..."
    ensures SameForm(s, r) && SameStatusCheck(s, r)
  {
    FetchStart(DispatchPending(s))
  }

  /** What `handleDispatchAsynchronously` writes once `commonFetch` has returned or raised:
      the three channels always, and the job id field on success only. */
  function DispatchShown(t: PageState, o: Outcome<DispatchBody>): (r: PageState)
    ensures SameForm(t, r) && r.statusCheckOutput == t.statusCheckOutput
    ensures r.isLoading == t.isLoading && r.apiError == t.apiError
    ensures o.Success? ==>
      r.jobIdToCheck == o.value.jobId
      && r.qasmOutput == (if o.value.qasm != "" then o.value.qasm else "QASM not available from dispatch.")
      && r.jobLog == o.value.message + "\nJob ID: " + o.value.jobId
      && r.resultOutput == "Job dispatched. Check status with ID."
    ensures o.Raised? ==>
      r.jobIdToCheck == t.jobIdToCheck
      && r.qasmOutput == "Dispatch failed." && r.jobLog == "Error: " + o.message && r.resultOutput == "Dispatch failed."
  {
    match o
    case Success(data) =>
      t.(qasmOutput := OrElse(data.qasm, "QASM not available from dispatch."),
         jobLog := data.message + "\nJob ID: " + data.jobId,
         resultOutput := "Job dispatched. Check status with ID.",
         jobIdToCheck := data.jobId)
    case Raised(message) =>
      t.(qasmOutput := "Dispatch failed.", jobLog := "Error: " + message, resultOutput := "Dispatch failed.")
  }

  /** The whole of `handleDispatchAsynchronously`. A success overwrites the job id field
      with exactly the returned id; a failure leaves that field alone and puts fixed
      placeholders in all three channels. */
  function Dispatch(s: PageState, reply: Reply<DispatchBody>): (r: PageState)
    ensures !r.isLoading
    ensures SameForm(s, r) && r.statusCheckOutput == s.statusCheckOutput
    ensures reply.Ok? ==>
      r.jobIdToCheck == reply.body.jobId
      && r.jobLog == reply.body.message + "\nJob ID: " + reply.body.jobId
      && r.resultOutput == "Job dispatched. Check status with ID."
      && r.qasmOutput == (if reply.body.qasm != "" then reply.body.qasm else "QASM not available from dispatch.")
      && r.apiError == ""
    ensures !reply.Ok? ==>
      r.jobIdToCheck == s.jobIdToCheck
      && r.qasmOutput == "Dispatch failed." && r.jobLog == "Error: " + FailureMessage(reply)
      && r.resultOutput == "Dispatch failed." && r.apiError == "API Error: " + FailureMessage(reply)
  {
    var o := FetchOutcome(reply);
    DispatchShown(FetchSettle(DispatchInFlight(s), o), o)
  }

  // ---------------------------------------------------------------------------
  // Status check

  /** The request `handleCheckStatus` issues, if any: none for a blank job id, otherwise a
      GET of the trimmed id. */
  function StatusRequest(s: PageState): (r: Option<Request>)
    ensures r.None? <==> IsBlank(s.jobIdToCheck)
    ensures r.Some? ==> r.value.verb == Get && r.value.body == None
    ensures r.Some? ==> r.value.path == "/jobs/" + Trim(s.jobIdToCheck)
  {
    var jobId := Trim(s.jobIdToCheck);
    if jobId == "" then None else Some(Request(Get, "/jobs/" + jobId, None))
  }

  /** The message of the Error the status check raises for a failed reply. */
  function StatusFailure(reply: Reply<StatusBody>): (message: string)
    requires !reply.Ok?
    ensures reply.HttpError? ==> message == StatusErrorMessage(reply.status, reply.errorBody, reply.statusText)
    ensures reply.Thrown? ==> message == reply.message
    ensures reply.HttpError? ==> message != ""
  {
    match reply
    case HttpError(status, errorBody, statusText) => StatusErrorMessage(status, errorBody, statusText)
    case Thrown(message) => message
  }

  /** `handleCheckStatus` while the job record is awaited. */
  function StatusInFlight(s: PageState): (r: PageState)
    ensures r.isLoading && r.apiError == ""
    ensures r.statusCheckOutput == "Checking status for Job ID: " + Trim(s.jobIdToCheck) + "..."
    ensures SameForm(s, r) && SameChannels(s, r) && r.jobIdToCheck == s.jobIdToCheck
  {
    s.(isLoading := true)
     .(apiError := "")
     .(statusCheckOutput := "Checking status for Job ID: " + Trim(s.jobIdToCheck) + "...")
  }

  /** The rest of `handleCheckStatus` once the reply is in; the `finally` clears the busy flag. */
  function StatusShown(m: PageState, reply: Reply<StatusBody>, stringify: Json -> string): (r: PageState)
    ensures !r.isLoading
    ensures SameForm(m, r) && SameChannels(m, r) && r.jobIdToCheck == m.jobIdToCheck
    ensures reply.Ok? ==>
      r.apiError == m.apiError
      && r.statusCheckOutput == (if Truthy(reply.body.statusData) then DisplayStructured(reply.body.statusData, stringify)
                                 else "No status data found.")
    ensures !reply.Ok? ==>
      r.apiError == "API Error: " + StatusFailure(reply)
      && r.statusCheckOutput == "Error fetching status: " + StatusFailure(reply)
  {
    var t :=
      match reply
      case Ok(data) =>
        m.(statusCheckOutput := DisplayStructured(Or(data.statusData, Str("No status data found.")), stringify))
      case HttpError(_, _, _) =>
        m.(apiError := "API Error: " + StatusFailure(reply)).(statusCheckOutput := "Error fetching status: " + StatusFailure(reply))
      case Thrown(_) =>
        m.(apiError := "API Error: " + StatusFailure(reply)).(statusCheckOutput := "Error fetching status: " + StatusFailure(reply));
    t.(isLoading := false)
  }

  /** The whole of `handleCheckStatus`. A blank job id changes only the status output and
      sends nothing; otherwise the busy flag ends false and a failure puts one and the same
      message on the error channel and in the status output. */
  function CheckStatus(s: PageState, reply: Reply<StatusBody>, stringify: Json -> string): (r: PageState)
    ensures IsBlank(s.jobIdToCheck) ==> r == s.(statusCheckOutput := "Please enter a Job ID.")
    ensures !IsBlank(s.jobIdToCheck) ==>
      !r.isLoading && SameForm(s, r) && SameChannels(s, r) && r.jobIdToCheck == s.jobIdToCheck
    ensures !IsBlank(s.jobIdToCheck) && reply.Ok? ==>
      r.apiError == ""
      && r.statusCheckOutput == (if Truthy(reply.body.statusData) then DisplayStructured(reply.body.statusData, stringify)
                                 else "No status data found.")
    ensures !IsBlank(s.jobIdToCheck) && !reply.Ok? ==>
      r.apiError == "API Error: " + StatusFailure(reply)
      && r.statusCheckOutput == "Error fetching status: " + StatusFailure(reply)
  {
    if Trim(s.jobIdToCheck) == "" then s.(statusCheckOutput := "Please enter a Job ID.")
    else StatusShown(StatusInFlight(s), reply, stringify)
  }

  /** The two paths of `CheckStatus`, split on the trimmed id as `handleCheckStatus` splits
      them, and that test agrees with the id being blank. */
  lemma CheckStatusCases(s: PageState, reply: Reply<StatusBody>, stringify: Json -> string)
    ensures Trim(s.jobIdToCheck) == "" <==> IsBlank(s.jobIdToCheck)
    ensures Trim(s.jobIdToCheck) == "" ==>
      CheckStatus(s, reply, stringify) == s.(statusCheckOutput := "Please enter a Job ID.")
    ensures Trim(s.jobIdToCheck) != "" ==>
      CheckStatus(s, reply, stringify) == StatusShown(StatusInFlight(s), reply, stringify)
    ensures Trim(s.jobIdToCheck) == "" ==> StatusRequest(s) == None
    ensures Trim(s.jobIdToCheck) != "" ==>
      StatusRequest(s) == Some(Request(Get, "/jobs/" + Trim(s.jobIdToCheck), None))
  {
  }

  // ---------------------------------------------------------------------------
  // Sessions: the handlers together with the form's own inputs

  /** One thing that can happen to the page: a handler runs to completion with the reply it
      got, or the user edits one of the form inputs. */
  datatype Event =
    | DevicesLoaded(devices: Reply<seq<string>>)
    | CompileClicked(compile: Reply<CompileBody>)
    | RunClicked(run: Reply<RunBody>)
    | DispatchClicked(dispatch: Reply<DispatchBody>)
    | CheckStatusClicked(status: Reply<StatusBody>)
    | CircuitEdited(text: string)
    | BackendChosen(name: string)
    | PriorityChosen(level: string)
    | RetriesEdited(count: int)
    | JobIdEdited(text: string)

  /** Whether the page can receive the event: every button and input is disabled while
      busy, and the two selects offer only their listed options. Loading the catalog is
      an effect, not a control. */
  predicate Enabled(s: PageState, e: Event)
    ensures e.DevicesLoaded? ==> Enabled(s, e)
    ensures Enabled(s, e) && !e.DevicesLoaded? ==> !s.isLoading
    ensures !e.BackendChosen? && !e.PriorityChosen? ==> (Enabled(s, e) <==> e.DevicesLoaded? || !s.isLoading)
    ensures e.BackendChosen? ==> (Enabled(s, e) <==> !s.isLoading && e.name in s.availableBackends)
    ensures e.PriorityChosen? ==> (Enabled(s, e) <==> !s.isLoading && e.level in Priorities)
  {
    match e
    case DevicesLoaded(_) => true
    case BackendChosen(name) => !s.isLoading && name in s.availableBackends
    case PriorityChosen(level) => !s.isLoading && level in Priorities
    case _ => !s.isLoading
  }

  /** The page after `e`; an event the page cannot receive leaves it as it is. */
  function Step(s: PageState, e: Event, stringify: Json -> string): (r: PageState)
    ensures Settled(s) ==> Settled(r)
  {
    if !Enabled(s, e) then s
    else
      match e
      case DevicesLoaded(reply) => LoadDevices(s, reply)
      case CompileClicked(reply) => Compile(s, reply)
      case RunClicked(reply) => Run(s, reply, stringify)
      case DispatchClicked(reply) => Dispatch(s, reply)
      case CheckStatusClicked(reply) => CheckStatus(s, reply, stringify)
      case CircuitEdited(text) => s.(circuitJson := text)
      case BackendChosen(name) => s.(backend := name)
      case PriorityChosen(level) => s.(priority := level)
      case RetriesEdited(count) => s.(retries := count)
      case JobIdEdited(text) => s.(jobIdToCheck := text)
  }

  /** The page after a whole session of events, one at a time. */
  function Replay(s: PageState, es: seq<Event>, stringify: Json -> string): PageState
    decreases |es|
  {
    if es == [] then s else Replay(Step(s, es[0], stringify), es[1..], stringify)
  }

  /** Every session that starts settled ends settled: the busy flag never leaks out of a
      handler, and the selected backend is always one the catalog offers. */
  lemma {:induction false} ReplayStaysSettled(s: PageState, es: seq<Event>, stringify: Json -> string)
    requires Settled(s)
    ensures Settled(Replay(s, es, stringify))
    decreases |es|
  {
    if es != [] {
      ReplayStaysSettled(Step(s, es[0], stringify), es[1..], stringify);
    }
  }

  /** From the page's initial state, every session keeps the selection in the catalog. */
  lemma SessionKeepsBackendOffered(es: seq<Event>, stringify: Json -> string)
    ensures BackendOffered(Replay(Initial(), es, stringify))
    ensures !Replay(Initial(), es, stringify).isLoading
  {
    ReplayStaysSettled(Initial(), es, stringify);
  }

  /** The error channel after compile, run, dispatch or a status check of a non-blank id
      depends on that call's reply only: no earlier failure stays visible. */
  lemma ErrorShowsLatestCallOnly(s1: PageState, s2: PageState, stringify: Json -> string,
                                 c: Reply<CompileBody>, r: Reply<RunBody>,
                                 d: Reply<DispatchBody>, q: Reply<StatusBody>)
    ensures Compile(s1, c).apiError == Compile(s2, c).apiError
    ensures Run(s1, r, stringify).apiError == Run(s2, r, stringify).apiError
    ensures Dispatch(s1, d).apiError == Dispatch(s2, d).apiError
    ensures !IsBlank(s1.jobIdToCheck) && !IsBlank(s2.jobIdToCheck) ==>
      CheckStatus(s1, q, stringify).apiError == CheckStatus(s2, q, stringify).apiError
  {
  }

  /** Dispatch hands its job id to the status check: right after a successful dispatch
      with a non-blank id, the status check asks for that job and shows what comes back. */
  lemma DispatchFeedsStatusCheck(s: PageState, body: DispatchBody, status: StatusBody, stringify: Json -> string)
    requires !IsBlank(body.jobId)
    ensures StatusRequest(Dispatch(s, Ok(body))) == Some(Request(Get, "/jobs/" + Trim(body.jobId), None))
    ensures CheckStatus(Dispatch(s, Ok(body)), Ok(status), stringify).statusCheckOutput
            == (if Truthy(status.statusData) then DisplayStructured(status.statusData, stringify) else "No status data found.")
    ensures CheckStatus(Dispatch(s, Ok(body)), Ok(status), stringify).apiError == ""
  {
  }
}
