/**
  * The gRPC surface the controller uses, as an oracle: the requests it sends,
  * the fields of the responses it reads, and `_call_rpc`, which turns the
  * outcome of one call into a response or one of the script's exceptions.
  */
module Rpc {
  import opened Common
  import opened Values
  import opened Failures
  import opened Configuration

  /** The statuses `_call_rpc` translates into the script's own exceptions. */
  predicate Translated(status: StatusCode)
  {
    status == DEADLINE_EXCEEDED || status == UNAVAILABLE || status == UNIMPLEMENTED
  }

  /** `_call_rpc` never waits less than 5 seconds. */
  const MIN_RPC_TIMEOUT_MS: int := 5000

  /** The JSON document `configure_video` sends, one field per key it may hold. */
  datatype VideoPayload = VideoPayload(
    deviceName: string,
    driverId: string,
    resolution: string,
    shareWithModel: string,
    mode: string,
    webcamIndex: Option<int>,  // present only in webcam mode with an index set
    filePath: Option<string>,  // present only in file mode
    loopFile: Option<bool>)    // present only in file mode

  /** The JSON document `configure_ai_core` sends. */
  datatype AiCorePayload = AiCorePayload(executable: string, configFile: string, parallelInstances: int)

  /** The requests of the two stubs, with the fields the script sets. */
  datatype Request =
    | ModifyVideoAudioConfig(sourceName: string, videoConfig: VideoPayload, shareWithModelNode: string)
    | SetVideoAudio(name: string, activate: bool, pauseVideoInitially: bool, pauseAudioInitially: bool)
    | ModifyModelNodeConfig(modelNodeName: string, aiCoreConfig: AiCorePayload, timeoutInSeconds: int)
    | LoadModel(modelName: string)
    | MeasureStart(saveToDisk: bool)
    | MeasureIsRunning
    | GetSignal(signalName: string, interpreted: bool)
    | MeasureStop
    | GetResult

  /**
    * The response fields the script reads: `RetVal`, the member set in the
    * `RetVal` oneof of a signal response, and the two extra result fields.
    * A field the response does not have is None.
    */
  datatype Response = Response(
    retVal: Option<Value>,
    oneof: Option<Value>,
    additional: Option<Value>,
    addToProtocol: Option<Value>)

  /** What one call of a stub method does: return a response, or raise an RpcError with a status. */
  datatype CallOutcome = Returned(response: Response) | Failed(status: StatusCode)

  /**
    * The server, as an oracle: the outcome of the call with the given
    * sequence number, request and timeout in milliseconds.
    */
  type Stub = (nat, Request, int) -> CallOutcome

  /**
    * The timeout `_call_rpc` passes to every call: `max(timeout_ms / 1000, 5)`
    * seconds, in milliseconds. It reads the `timeout_ms` property, so a
    * configured 0 counts as the 10000 ms default.
    */
  function RpcTimeoutMs(s: Settings): (t: int)
    ensures t >= MIN_RPC_TIMEOUT_MS && t >= EffectiveTimeoutMs(s)
    ensures t == MIN_RPC_TIMEOUT_MS || t == EffectiveTimeoutMs(s)
  {
    var configured := EffectiveTimeoutMs(s);
    if configured >= MIN_RPC_TIMEOUT_MS then configured else MIN_RPC_TIMEOUT_MS
  }

  /**
    * `_call_rpc` on the outcome of its call: the response unchanged, a
    * deadline as TimeoutError, an unavailable or unimplemented server as
    * ConnectionError, and any other status re-raised as the same RpcError.
    */
  function CallResult(outcome: CallOutcome, name: string): (r: Result<Response, Failure>)
    ensures r.Ok? <==> outcome.Returned?
    ensures outcome.Returned? ==> r.value == outcome.response
    ensures outcome == Failed(DEADLINE_EXCEEDED) ==> r == Err(TimeoutError(name))
    ensures outcome == Failed(UNAVAILABLE) || outcome == Failed(UNIMPLEMENTED) ==> r == Err(ConnectionError(name))
    ensures outcome.Failed? && !Translated(outcome.status) ==>
              r == Err(Uncaught(RpcError(outcome.status)))
  {
    match outcome
    case Returned(response) => Ok(response)
    case Failed(status) =>
      if status == DEADLINE_EXCEEDED then Err(TimeoutError(name))
      else if status == UNAVAILABLE || status == UNIMPLEMENTED then Err(ConnectionError(name))
      else Err(Uncaught(RpcError(status)))
  }

  /**
    * A failed call ends the run with exit code 1 exactly when its status is
    * one of the three `_call_rpc` translates; any other status leaves `main`
    * as the RpcError itself.
    */
  lemma FailedCallExitCode(status: StatusCode, name: string)
    ensures var f := CallResult(Failed(status), name).error;
            && (ExitCode(f) == Some(1) <==> Translated(status))
            && (ExitCode(f).None? <==> f == Uncaught(RpcError(status)))
  {
  }

  /** One `_call_rpc`: the request and the name it reports failures under. */
  datatype Call = Call(request: Request, name: string)

  /** The result of issuing calls one after another, and how many were made. */
  datatype Issued = Issued(result: Result<(), Failure>, made: nat)

  /**
    * Straight-line code that makes `calls` in order, the first as call number
    * `first`: a failed call raises at once and the calls after it are not made.
    */
  function Issue(stub: Stub, timeoutMs: int, first: nat, calls: seq<Call>): (r: Issued)
    ensures r.made <= |calls|
    ensures r.result.Ok? ==> r.made == |calls|
    ensures r.result.Err? ==> 1 <= r.made
    decreases |calls|
  {
    if calls == [] then Issued(Ok(()), 0)
    else match CallResult(stub(first, calls[0].request, timeoutMs), calls[0].name)
      case Err(e) => Issued(Err(e), 1)
      case Ok(_) =>
        var rest := Issue(stub, timeoutMs, first + 1, calls[1..]);
        Issued(rest.result, rest.made + 1)
  }

  /**
    * The calls before the last one made all succeeded; the run fails exactly
    * when the last call made failed, and with that call's failure.
    */
  lemma {:induction false} IssueStopsAtFailure(stub: Stub, timeoutMs: int, first: nat, calls: seq<Call>)
    ensures var r := Issue(stub, timeoutMs, first, calls);
            && (forall j :: 0 <= j < |calls| && (r.result.Ok? || j < r.made - 1) ==>
                  CallResult(stub(first + j, calls[j].request, timeoutMs), calls[j].name).Ok?)
            && (r.result.Err? ==>
                  CallResult(stub(first + r.made - 1, calls[r.made - 1].request, timeoutMs), calls[r.made - 1].name) == Err(r.result.error))
    decreases |calls|
  {
    if calls != [] {
      IssueStopsAtFailure(stub, timeoutMs, first + 1, calls[1..]);
      var r := Issue(stub, timeoutMs, first, calls);
      forall j | 1 <= j < |calls| && (r.result.Ok? || j < r.made - 1)
        ensures CallResult(stub(first + j, calls[j].request, timeoutMs), calls[j].name).Ok?
      {
        assert calls[j] == calls[1..][j - 1];
      }
    }
  }

  /**
    * Issuing two runs of calls one after the other is issuing them together:
    * the second run starts only when the first succeeds.
    */
  lemma {:induction false} IssueAppend(stub: Stub, timeoutMs: int, first: nat, front: seq<Call>, back: seq<Call>)
    ensures var a := Issue(stub, timeoutMs, first, front);
            var b := Issue(stub, timeoutMs, first + |front|, back);
            Issue(stub, timeoutMs, first, front + back) == if a.result.Err? then a else Issued(b.result, |front| + b.made)
    decreases |front|
  {
    if front == [] {
      assert front + back == back;
    } else {
      var both := front + back;
      assert both[0] == front[0];
      assert both[1..] == front[1..] + back;
      IssueAppend(stub, timeoutMs, first + 1, front[1..], back);
      var rest := Issue(stub, timeoutMs, first + 1, both[1..]);
      match CallResult(stub(first, front[0].request, timeoutMs), front[0].name)
      case Err(e) =>
        assert Issue(stub, timeoutMs, first, front) == Issued(Err(e), 1);
        assert Issue(stub, timeoutMs, first, both) == Issued(Err(e), 1);
      case Ok(_) =>
        assert Issue(stub, timeoutMs, first, both) == Issued(rest.result, rest.made + 1);
        var a := Issue(stub, timeoutMs, first + 1, front[1..]);
        assert Issue(stub, timeoutMs, first, front) == Issued(a.result, a.made + 1);
    }
  }
}
