/** The `HaulVisorPage` component: its state fields and its handlers, which overwrite
    those fields one setter call at a time. Each handler takes the reply its request got
    as an input and returns the request it would have sent and the state shown while that
    request was awaited; its final state is the matching transition of `Orchestration`. */
module HaulVisor {
  import opened Js
  import opened Transport
  import opened Orchestration

  class Page {
    /** The page's `JSON.stringify(data, null, 2)`, left uninterpreted. */
    const stringify: Json -> string

    var circuitJson: string
    var backend: string
    var priority: string
    var retries: int
    var availableBackends: seq<string>
    var qasmOutput: string
    var jobLog: string
    var resultOutput: string
    var jobIdToCheck: string
    var statusCheckOutput: string
    var isLoading: bool
    var apiError: string

    /** All fields at once. */
    function State(): PageState
      reads this
    {
      PageState(circuitJson, backend, priority, retries, availableBackends,
        qasmOutput, jobLog, resultOutput, jobIdToCheck, statusCheckOutput, isLoading, apiError)
    }

    /** The selection is in the catalog and the page is not busy. */
    ghost predicate Valid()
      reads this
    {
      Settled(State())
    }

    /** The `useState` initial values. */
    constructor (stringify: Json -> string)
      ensures this.stringify == stringify
      ensures State() == Initial() && Valid()
    {
      this.stringify := stringify;
      circuitJson := DefaultCircuit;
      backend := "pennylane";
      priority := "normal";
      retries := 3;
      availableBackends := DefaultBackends;
      qasmOutput := "Awaiting circuit submission...";
      jobLog := "Awaiting job activity...";
      resultOutput := "Awaiting results...";
      jobIdToCheck := "";
      statusCheckOutput := "";
      isLoading := false;
      apiError := "";
    }

    /** `fetchDevices`: adopt a non-empty catalog from /devices, reselecting its first entry
        when the current backend is not in it; on failure keep the defaults and leave an
        advisory on the error channel. */
    method FetchDevices(reply: Reply<seq<string>>) returns (sent: Request)
      modifies this`backend, this`availableBackends, this`apiError
      ensures sent == DevicesRequest
      ensures State() == LoadDevices(old(State()), reply)
      ensures old(Valid()) ==> Valid()
    {
      sent := DevicesRequest;
      match reply
      case Ok(data) =>
        if |data| > 0 {
          availableBackends := data;
          if backend !in data {
            backend := data[0];
          }
        }
      case HttpError(_, _, _) =>
        apiError := DevicesAdvisory;
      case Thrown(_) =>
        apiError := DevicesAdvisory;
    }

    /** `commonFetch`: busy and with the error channel cleared while the request is out;
        afterwards not busy, and on failure the error channel carries "API Error: " and the
        message that is handed back to the caller. No other field changes. */
    method CommonFetch<T>(endpoint: string, payload: Payload, verb: HttpMethod, reply: Reply<T>)
      returns (sent: Request, inFlight: PageState, outcome: Outcome<T>)
      modifies this`isLoading, this`apiError
      ensures sent == FetchRequest(endpoint, payload, verb)
      ensures inFlight == FetchStart(old(State()))
      ensures outcome == FetchOutcome(reply)
      ensures State() == FetchSettle(inFlight, outcome)
    {
      isLoading := true;
      apiError := "";
      sent := FetchRequest(endpoint, payload, verb);
      inFlight := State();
      match reply {
        case Ok(body) =>
          outcome := Success(body);
        case HttpError(status, errorBody, _) =>
          outcome := Raised(FetchErrorMessage(status, errorBody));
        case Thrown(message) =>
          outcome := Raised(message);
      }
      if outcome.Raised? {
        apiError := "API Error: " + outcome.message;
      }
      isLoading := false;
    }

    /** `handleCompileOnly`: placeholders, the /compile call, then what it returned or raised. */
    method HandleCompileOnly(reply: Reply<CompileBody>) returns (sent: Request, inFlight: PageState)
      modifies this`qasmOutput, this`jobLog, this`resultOutput, this`isLoading, this`apiError
      ensures sent == CompileRequest(old(State()))
      ensures inFlight == CompileInFlight(old(State()))
      ensures State() == Compile(old(State()), reply)
      ensures old(Valid()) ==> Valid()
    {
      ShowCompilePending();
      var payload := CompilePayload(circuitJson, backend);
      var outcome;
      sent, inFlight, outcome := CommonFetch("/compile", payload, Post, reply);
      ShowCompileOutcome(outcome);
    }

    /** The statements of `handleCompileOnly` before its `try`. */
    method ShowCompilePending()
      modifies this`qasmOutput, this`jobLog, this`resultOutput
      ensures State() == CompilePending(old(State()))
    {
      qasmOutput := "Compiling circuit...";
      jobLog := "";
      resultOutput := "";
    }

    /** The `try` block of `handleCompileOnly` after the await, or its `catch` block. */
    method ShowCompileOutcome(outcome: Outcome<CompileBody>)
      modifies this`qasmOutput, this`apiError
      ensures State() == CompileShown(old(State()), outcome)
    {
      match outcome {
        case Success(data) =>
          qasmOutput := DisplayStructured(Str(OrElse(data.qasm, "No QASM returned.")), stringify);
          if data.error != "" {
            apiError := "Compilation Error: " + data.error;
            qasmOutput := "Compilation failed: " + data.error;
          }
        case Raised(message) =>
          qasmOutput := "Compilation failed: " + message;
      }
    }

    /** `handleRunSynchronously`: placeholders, the /run call, then what it returned or raised. */
    method HandleRunSynchronously(reply: Reply<RunBody>) returns (sent: Request, inFlight: PageState)
      modifies this`qasmOutput, this`jobLog, this`resultOutput, this`isLoading, this`apiError
      ensures sent == RunRequest(old(State()))
      ensures inFlight == RunInFlight(old(State()))
      ensures State() == Run(old(State()), reply, stringify)
      ensures old(Valid()) ==> Valid()
    {
      ShowRunPending();
      var payload := JobPayload(circuitJson, backend, priority, retries);
      var outcome;
      sent, inFlight, outcome := CommonFetch("/run", payload, Post, reply);
      ShowRunOutcome(outcome);
    }

    /** The statements of `handleRunSynchronously` before its `try`. */
    method ShowRunPending()
      modifies this`qasmOutput, this`jobLog, this`resultOutput
      ensures State() == RunPending(old(State()))
    {
      qasmOutput := "Processing...";
      jobLog := "Submitting job to " + backend + " (sync)...";
      resultOutput := "Running...";
    }

    /** The `try` block of `handleRunSynchronously` after the await, or its `catch` block. */
    method ShowRunOutcome(outcome: Outcome<RunBody>)
      modifies this`qasmOutput, this`jobLog, this`resultOutput, this`apiError
      ensures State() == RunShown(old(State()), outcome, stringify)
    {
      match outcome {
        case Success(data) =>
          qasmOutput := DisplayStructured(Str(OrElse(data.qasm, "QASM not available from this run.")), stringify);
          jobLog := DisplayStructured(Or(data.logs, Str(RunSummary(backend, data.jobId))), stringify);
          resultOutput := DisplayStructured(Or(data.result, Str(OrElse(data.error, "No result data."))), stringify);
          if data.error != "" {
            apiError := "Run Error: " + data.error;
          }
        case Raised(message) =>
          qasmOutput := "Run failed.";
          jobLog := "Error: " + message;
          resultOutput := "Failed.";
      }
    }

    /** `handleDispatchAsynchronously`: placeholders, the /dispatch call, then what it
        returned or raised. */
    method HandleDispatchAsynchronously(reply: Reply<DispatchBody>) returns (sent: Request, inFlight: PageState)
      modifies this`qasmOutput, this`jobLog, this`resultOutput, this`jobIdToCheck, this`isLoading, this`apiError
      ensures sent == DispatchRequest(old(State()))
      ensures inFlight == DispatchInFlight(old(State()))
      ensures State() == Dispatch(old(State()), reply)
      ensures old(Valid()) ==> Valid()
    {
      ShowDispatchPending();
      var payload := JobPayload(circuitJson, backend, priority, retries);
      var outcome;
      sent, inFlight, outcome := CommonFetch("/dispatch", payload, Post, reply);
      ShowDispatchOutcome(outcome);
    }

    /** The statements of `handleDispatchAsynchronously` before its `try`. */
    method ShowDispatchPending()
      modifies this`qasmOutput, this`jobLog, this`resultOutput
      ensures State() == DispatchPending(old(State()))
    {
      qasmOutput := "Processing...";
      jobLog := "Dispatching job to " + backend + " (async)...";
      resultOutput := "Awaiting job ID...";
    }

    /** The `try` block of `handleDispatchAsynchronously` after the await, or its `catch` block. */
    method ShowDispatchOutcome(outcome: Outcome<DispatchBody>)
      modifies this`qasmOutput, this`jobLog, this`resultOutput, this`jobIdToCheck
      ensures State() == DispatchShown(old(State()), outcome)
    {
      match outcome {
        case Success(data) =>
          qasmOutput := DisplayStructured(Str(OrElse(data.qasm, "QASM not available from dispatch.")), stringify);
          jobLog := DisplayStructured(Str(data.message + "\nJob ID: " + data.jobId), stringify);
          resultOutput := "Job dispatched. Check status with ID.";
          jobIdToCheck := data.jobId;
        case Raised(message) =>
          qasmOutput := "Dispatch failed.";
          jobLog := "Error: " + message;
          resultOutput := "Dispatch failed.";
      }
    }

    /** `handleCheckStatus`. A blank job id sends nothing and is never in flight. */
    method HandleCheckStatus(reply: Reply<StatusBody>) returns (sent: Option<Request>, inFlight: Option<PageState>)
      modifies this`statusCheckOutput, this`isLoading, this`apiError
      ensures sent == StatusRequest(old(State()))
      ensures inFlight.None? <==> IsBlank(old(jobIdToCheck))
      ensures inFlight.Some? ==> inFlight.value == StatusInFlight(old(State()))
      ensures State() == CheckStatus(old(State()), reply, stringify)
      ensures old(Valid()) ==> Valid()
    {
      ghost var s := State();
      CheckStatusCases(s, reply, stringify);
      var jobId := Trim(jobIdToCheck);
      if jobId == "" {
        ShowBlankIdHint();
        sent, inFlight := None, None;
      } else {
        var started;
        sent, started := CheckJob(jobId, reply);
        inFlight := Some(started);
      }
    }

    /** `handleCheckStatus` for a blank id: the hint, and nothing else. */
    method ShowBlankIdHint()
      modifies this`statusCheckOutput
      ensures State() == old(State()).(statusCheckOutput := "Please enter a Job ID.")
    {
      statusCheckOutput := "Please enter a Job ID.";
    }

    /** `handleCheckStatus` past the blank check, for the trimmed id `jobId`. */
    method CheckJob(jobId: string, reply: Reply<StatusBody>) returns (sent: Option<Request>, inFlight: PageState)
      requires jobId == Trim(jobIdToCheck) && jobId != ""
      modifies this`statusCheckOutput, this`isLoading, this`apiError
      ensures sent == StatusRequest(old(State()))
      ensures inFlight == StatusInFlight(old(State()))
      ensures State() == StatusShown(inFlight, reply, stringify)
    {
      sent := StatusRequest(State());
      ShowStatusPending(jobId);
      inFlight := State();
      ShowStatusReply(reply);
    }

    /** The statements of `handleCheckStatus` between the blank check and its `try`. */
    method ShowStatusPending(jobId: string)
      requires jobId == Trim(jobIdToCheck)
      modifies this`statusCheckOutput, this`isLoading, this`apiError
      ensures State() == StatusInFlight(old(State()))
    {
      isLoading := true;
      apiError := "";
      statusCheckOutput := "Checking status for Job ID: " + jobId + "...";
    }

    /** The `try`, `catch` and `finally` blocks of `handleCheckStatus`. */
    method ShowStatusReply(reply: Reply<StatusBody>)
      modifies this`statusCheckOutput, this`isLoading, this`apiError
      ensures State() == StatusShown(old(State()), reply, stringify)
    {
      match reply {
        case Ok(data) =>
          statusCheckOutput := DisplayStructured(Or(data.statusData, Str("No status data found.")), stringify);
        case HttpError(_, _, _) | Thrown(_) =>
          var message := StatusFailure(reply);
          apiError := "API Error: " + message;
          statusCheckOutput := "Error fetching status: " + message;
      }
      isLoading := false;
    }
  }
}
