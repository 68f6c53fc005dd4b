/**
  * `main`: load and override the configuration, then the steps of the
  * `try` block in order, the exit code each kind of failure maps to, and the
  * `finally` block that terminates what was launched and closes the channel.
  */
module Workflow {
  import opened Common
  import opened Dicts
  import opened Values
  import opened Failures
  import opened Configuration
  import opened Rpc
  import opened Processes
  import opened Controller

  // ---------------------------------------------------------------------
  // Steps, outcomes and exit
  // ---------------------------------------------------------------------

  /** The actions of the `try` block of `main`. */
  datatype Step =
    | LaunchTa | Connect | LaunchAiCore
    | ConfigureVideo | ConfigureAiCore | LoadModel | StartMeasurement
    | WaitForCompletion | StopMeasurement | FetchTestResult | ExportResults

  /** The steps in the order `main` takes them. */
  const STEPS: seq<Step> := [
    Step.LaunchTa, Step.Connect, Step.LaunchAiCore,
    Step.ConfigureVideo, Step.ConfigureAiCore, Step.LoadModel, Step.StartMeasurement,
    Step.WaitForCompletion, Step.StopMeasurement, Step.FetchTestResult, Step.ExportResults]

  /** The actions of the `finally` block of `main`. */
  datatype Cleanup = TerminateAiCore | TerminateTa | CloseChannel

  /** The position of each cleanup action in the `finally` block. */
  function Rank(c: Cleanup): nat
  {
    match c
    case TerminateAiCore => 0
    case TerminateTa => 1
    case CloseChannel => 2
  }

  /**
    * The `finally` block: AI-Core is terminated if it was launched, then
    * PROVEtech:TA if it was launched, then the channel is closed if it was opened.
    */
  function Teardown(aiCore: bool, ta: bool, connected: bool): (cs: seq<Cleanup>)
    ensures TerminateAiCore in cs <==> aiCore
    ensures TerminateTa in cs <==> ta
    ensures CloseChannel in cs <==> connected
    ensures forall i, j :: 0 <= i < j < |cs| ==> Rank(cs[i]) < Rank(cs[j])
  {
    (if aiCore then [TerminateAiCore] else [])
      + (if ta then [TerminateTa] else [])
      + (if connected then [CloseChannel] else [])
  }

  /** What `export_results` writes: nothing when no row was collected. */
  datatype Export = NothingWritten | Written(directory: string, signals: seq<Dict<Value>>, metadata: TestResult)

  /** `export_results(data, metadata, output_dir)`: the rows and the test result, unless there are no rows. */
  function ExportOf(signals: seq<Dict<Value>>, result: TestResult, outputDir: string): (e: Export)
    ensures e.NothingWritten? <==> signals == []
    ensures e.Written? ==> e.signals == signals && e.metadata == result && e.directory == outputDir
  {
    if signals == [] then NothingWritten else Written(outputDir, signals, result)
  }

  /** How the `try` block ends: every step done, a failure raised, or still polling when the clock ran out. */
  datatype Attempt =
    | Completed(signals: seq<Dict<Value>>, result: TestResult, exported: Export)
    | Raising(failure: Failure)
    | Polling

  /** How `main` ends: a returned exit code, an exception that leaves it, or still monitoring. */
  datatype Exit = Exited(code: int) | Raised(failure: Failure) | StillMonitoring

  /** The `except` clauses of `main` for a failure raised in its `try` block. */
  function ExitOf(f: Failure): (e: Exit)
    ensures e == Exited(1) <==> f.ConfigurationError? || f.ProcessLaunchError? || f.ConnectionError? || f.TimeoutError?
    ensures e == Exited(2) <==> f.KeyboardInterrupt?
    ensures e == Raised(f) <==> f.Uncaught?
    ensures !e.StillMonitoring?
  {
    match ExitCode(f)
    case Some(code) => Exited(code)
    case None => Raised(f)
  }

  // ---------------------------------------------------------------------
  // The command line and the world the script runs in
  // ---------------------------------------------------------------------

  /** The options `main` reads beyond the configuration overrides. */
  datatype Invocation = Invocation(
    config: Option<string>,
    args: CliArgs,
    skipTaLaunch: bool,
    skipAiCore: bool,
    monitorSeconds: Option<int>)

  /**
    * What the script meets: the `config.yaml` beside the script, the lines
    * of the configuration file, the built-ins, the server, whether the
    * endpoint gets ready in time, the clock and the operating system.
    */
  datatype Environment = Environment(
    defaultConfigPath: string,
    configLines: seq<string>,
    py: Builtins,
    stub: Stub,
    ready: bool,
    ticks: seq<Tick>,
    platform: Platform)

  /** The command that launches PROVEtech:TA, when one is configured. */
  function TaCommand(s: Settings): seq<string>
    requires s.test.taExecutable.Some?
  {
    [s.test.taExecutable.value] + TaArguments(s.grpc.port)
  }

  /** `launch_provetech` is asked to start PROVEtech:TA. */
  predicate TaWanted(s: Settings, skip: bool)
  {
    !skip && s.test.taExecutable.Some?
  }

  /** `launch_provetech` raises: the executable is missing or the spawn fails. */
  predicate TaFails(s: Settings, skip: bool, pathExists: string -> bool, spawnFails: seq<string> -> bool)
  {
    TaWanted(s, skip) && (!pathExists(s.test.taExecutable.value) || spawnFails(TaCommand(s)))
  }

  /** The ProcessLaunchError `launch_provetech` raises when it fails. */
  function TaFailure(s: Settings, pathExists: string -> bool): Failure
    requires s.test.taExecutable.Some?
  {
    var exe := s.test.taExecutable.value;
    ProcessLaunchError(if pathExists(exe) then SpawnFailed(exe) else ExecutableNotFound(exe))
  }

  /** `launch_ai_core` starts AI-Core. */
  predicate AiCoreStarts(a: AiCoreSettings, skip: bool, pathExists: string -> bool, spawnFails: seq<string> -> bool)
  {
    !skip && pathExists(a.executable) && !spawnFails(AiCoreCommand(a, pathExists))
  }

  /** The commands a launch hands to the operating system: every one whose executable exists. */
  function TaSpawned(s: Settings, skip: bool, pathExists: string -> bool): seq<seq<string>>
  {
    if TaWanted(s, skip) && pathExists(s.test.taExecutable.value) then [TaCommand(s)] else []
  }

  function AiCoreSpawned(a: AiCoreSettings, skip: bool, pathExists: string -> bool): seq<seq<string>>
  {
    if !skip && pathExists(a.executable) then [AiCoreCommand(a, pathExists)] else []
  }

  // ---------------------------------------------------------------------
  // The measurement steps
  // ---------------------------------------------------------------------

  /** The calls from `configure_video` to `start_measurement`, in order. */
  function SetupCalls(s: Settings, video: Request): (calls: seq<Call>)
    ensures |calls| == 5
  {
    [ Call(video, "ModifyVideoAudioConfig"),
      Call(ActivateVideo(s), "SetVideoAudio"),
      Call(AiCoreRequest(s), "ModifyModelNodeConfig"),
      Call(Request.LoadModel(s.test.modelName), "LoadModel"),
      Call(MeasureStart(false), "MeasureStart") ]
  }

  /**
    * The five setup calls are the two of `configure_video` followed by one
    * call for each of the next three steps.
    */
  lemma {:induction false} SetupIssue(stub: Stub, timeoutMs: int, first: nat, calls: seq<Call>)
    requires |calls| == 5
    ensures var video := Issue(stub, timeoutMs, first, calls[..2]);
            var aiCore := Issue(stub, timeoutMs, first + 2, [calls[2]]);
            var model := Issue(stub, timeoutMs, first + 3, [calls[3]]);
            var start := Issue(stub, timeoutMs, first + 4, [calls[4]]);
            Issue(stub, timeoutMs, first, calls) ==
              if video.result.Err? then video
              else if aiCore.result.Err? then Issued(aiCore.result, 3)
              else if model.result.Err? then Issued(model.result, 4)
              else Issued(start.result, 5)
  {
    assert calls == calls[..2] + ([calls[2]] + ([calls[3]] + [calls[4]]));
    IssueAppend(stub, timeoutMs, first, calls[..2], [calls[2]] + ([calls[3]] + [calls[4]]));
    IssueAppend(stub, timeoutMs, first + 2, [calls[2]], [calls[3]] + [calls[4]]);
    IssueAppend(stub, timeoutMs, first + 3, [calls[3]], [calls[4]]);
  }

  /**
    * The setup steps one by one: `configure_video` with its two calls, then
    * one call for each of the next three steps; the first step whose call
    * fails is where they end.
    */
  lemma PreparedInSteps(s: Settings, stub: Stub, pathExists: string -> bool, first: nat)
    requires VideoRequest(s, pathExists).Ok?
    ensures var t := RpcTimeoutMs(s);
            var video := Issue(stub, t, first, [Call(VideoRequest(s, pathExists).value, "ModifyVideoAudioConfig"),
                                                Call(ActivateVideo(s), "SetVideoAudio")]);
            var aiCore := Issue(stub, t, first + 2, [Call(AiCoreRequest(s), "ModifyModelNodeConfig")]);
            var model := Issue(stub, t, first + 3, [Call(Request.LoadModel(s.test.modelName), "LoadModel")]);
            var start := Issue(stub, t, first + 4, [Call(MeasureStart(false), "MeasureStart")]);
            Prepared(s, stub, pathExists, first) ==
              if video.result.Err? then (video.result, 4)
              else if aiCore.result.Err? then (aiCore.result, 5)
              else if model.result.Err? then (model.result, 6)
              else (start.result, 7)
  {
    var calls := SetupCalls(s, VideoRequest(s, pathExists).value);
    SetupIssue(stub, RpcTimeoutMs(s), first, calls);
    assert calls[..2] == [Call(VideoRequest(s, pathExists).value, "ModifyVideoAudioConfig"), Call(ActivateVideo(s), "SetVideoAudio")];
  }

  /** The step of STEPS reached when the `made`-th setup call is the one that fails. */
  function SetupStep(made: nat): (step: nat)
    ensures made <= 5 ==> 4 <= step <= 7
  {
    if made <= 2 then 4 else made + 2
  }

  /**
    * `configure_video` to `start_measurement` from call number `first`:
    * the first failure and the step it ends in, or success after step 7.
    */
  function Prepared(s: Settings, stub: Stub, pathExists: string -> bool, first: nat): (r: (Result<(), Failure>, nat))
    ensures 4 <= r.1 <= 7
  {
    var video := VideoRequest(s, pathExists);
    if video.Err? then (Err(video.error), 4)
    else
      var setup := Issue(stub, RpcTimeoutMs(s), first, SetupCalls(s, video.value));
      if setup.result.Err? then (setup.result, SetupStep(setup.made)) else (Ok(()), 7)
  }

  /**
    * The setup steps fail before any call when the video settings are
    * rejected; otherwise they fail exactly when a setup call fails, with
    * the first failing call's failure, or succeed after all five calls.
    */
  lemma PreparedEnds(s: Settings, stub: Stub, pathExists: string -> bool, first: nat)
    ensures var (r, reached) := Prepared(s, stub, pathExists, first);
            var video := VideoRequest(s, pathExists);
            var t := RpcTimeoutMs(s);
            && (video.Err? ==> r == Err(video.error) && reached == 4)
            && (video.Ok? ==>
                  var calls := SetupCalls(s, video.value);
                  && (r.Ok? <==> forall j :: 0 <= j < 5 ==> CallResult(stub(first + j, calls[j].request, t), calls[j].name).Ok?)
                  && (r.Ok? ==> reached == 7)
                  && (r.Err? ==>
                        exists j :: 0 <= j < 5
                          && (forall i :: 0 <= i < j ==> CallResult(stub(first + i, calls[i].request, t), calls[i].name).Ok?)
                          && CallResult(stub(first + j, calls[j].request, t), calls[j].name) == Err(r.error)
                          && reached == SetupStep(j + 1)))
  {
    var video := VideoRequest(s, pathExists);
    if video.Ok? {
      var t := RpcTimeoutMs(s);
      var calls := SetupCalls(s, video.value);
      var setup := Issue(stub, t, first, calls);
      IssueStopsAtFailure(stub, t, first, calls);
      if setup.result.Err? {
        var j := setup.made - 1;
        assert forall i :: 0 <= i < j ==> CallResult(stub(first + i, calls[i].request, t), calls[i].name).Ok?;
      }
    }
  }

  /** The server's answers to the polling loop of a controller made with these settings. */
  function Answering(s: Settings, stub: Stub, py: Builtins): Poller
  {
    ServerPoller(Link(stub, RpcTimeoutMs(s), py), s.test.logSignals)
  }

  /**
    * What follows the polling loop: given how the loop ended, the result
    * of `stop_measurement` and the fetched test result, how the try block
    * ends and how many of STEPS it reached.
    */
  function Conclusion(outcome: Monitoring, stopped: Result<(), Failure>, fetched: Result<TestResult, Failure>,
                      outputDir: string): (r: (Attempt, nat))
    ensures 8 <= r.1 <= 11
  {
    match outcome
    case Aborted(f) => (Raising(f), 8)
    case StillPolling(_) => (Polling, 8)
    case Finished(signals) =>
      if stopped.Err? then (Raising(stopped.error), 9)
      else if fetched.Err? then (Raising(fetched.error), 10)
      else (Completed(signals, fetched.value, ExportOf(signals, fetched.value, outputDir)), 11)
  }

  /**
    * How the steps after the polling loop end: the loop's failure is
    * raised as it is; a loop still polling takes no further step; then
    * `MeasureStop` and `GetResult` raise their failures in turn; only when
    * both succeed is every step taken, with the collected rows exported.
    */
  lemma ConclusionEnds(outcome: Monitoring, stopped: Result<(), Failure>, fetched: Result<TestResult, Failure>,
                       outputDir: string)
    ensures var (a, reached) := Conclusion(outcome, stopped, fetched, outputDir);
            && (a.Completed? <==> reached == |STEPS|)
            && (a.Polling? <==> outcome.StillPolling?)
            && (a.Polling? ==> reached == 8)
            && (outcome.Aborted? <==> reached == 8 && a.Raising?)
            && (outcome.Aborted? ==> a == Raising(outcome.failure))
            && (reached == 9 <==> outcome.Finished? && stopped.Err?)
            && (reached == 9 ==> a == Raising(stopped.error))
            && (reached == 10 <==> outcome.Finished? && stopped.Ok? && fetched.Err?)
            && (reached == 10 ==> a == Raising(fetched.error))
            && (a.Completed? ==>
                  && outcome == Finished(a.signals)
                  && fetched == Ok(a.result)
                  && a.exported == ExportOf(a.signals, a.result, outputDir))
  {
  }

  /**
    * The steps after a successful setup: the polling loop from call `at`,
    * answered by `p`, then `MeasureStop` and `GetResult` right after the
    * loop's last call.
    */
  function AfterSetup(stub: Stub, timeoutMs: int, p: Poller, at: nat, maxDuration: Option<int>, ticks: seq<Tick>,
                      outputDir: string): (r: (Attempt, nat))
    ensures 8 <= r.1 <= |STEPS|
  {
    var m := Monitor(p, at, maxDuration, ticks, []);
    var stopAt := at + m.made;
    Conclusion(m.outcome,
               Issue(stub, timeoutMs, stopAt, [Call(MeasureStop, "MeasureStop")]).result,
               TestResultOf(CallResult(stub(stopAt + 1, GetResult, timeoutMs), "GetResult")),
               outputDir)
  }

  /**
    * How the steps after the setup end: with the polling loop's failure;
    * still polling; with the failure of the `MeasureStop` call or of the
    * `GetResult` call; or with every step taken, the rows the loop
    * collected and the fetched result exported.
    */
  lemma AfterSetupEnds(stub: Stub, timeoutMs: int, p: Poller, at: nat, maxDuration: Option<int>, ticks: seq<Tick>,
                       outputDir: string)
    ensures var (a, reached) := AfterSetup(stub, timeoutMs, p, at, maxDuration, ticks, outputDir);
            var m := Monitor(p, at, maxDuration, ticks, []);
            var stopped := CallResult(stub(at + m.made, MeasureStop, timeoutMs), "MeasureStop");
            var fetched := TestResultOf(CallResult(stub(at + m.made + 1, GetResult, timeoutMs), "GetResult"));
            && (a.Completed? <==> reached == |STEPS|)
            && (m.outcome.StillPolling? <==> a.Polling?)
            && (a.Polling? ==> reached == 8)
            && (m.outcome.Aborted? <==> reached == 8 && a.Raising?)
            && (m.outcome.Aborted? ==> a == Raising(m.outcome.failure))
            && (reached == 9 <==> m.outcome.Finished? && stopped.Err?)
            && (reached == 9 ==> a == Raising(stopped.error))
            && (reached == 10 <==> m.outcome.Finished? && stopped.Ok? && fetched.Err?)
            && (reached == 10 ==> a == Raising(fetched.error))
            && (a.Completed? ==>
                  && m.outcome == Finished(a.signals)
                  && fetched == Ok(a.result)
                  && a.exported == ExportOf(a.signals, a.result, outputDir))
  {
    var m := Monitor(p, at, maxDuration, ticks, []);
    var stopAt := at + m.made;
    var stopped := Issue(stub, timeoutMs, stopAt, [Call(MeasureStop, "MeasureStop")]).result;
    IssueStopsAtFailure(stub, timeoutMs, stopAt, [Call(MeasureStop, "MeasureStop")]);
    ConclusionEnds(m.outcome, stopped, TestResultOf(CallResult(stub(stopAt + 1, GetResult, timeoutMs), "GetResult")),
                   outputDir);
  }

  /**
    * A completed run always exports: the loop stops only after collecting a
    * row, collects at most one row per tick, and each row is the one read
    * in its iteration, whose reads start at call `at + k * (width + 1)`.
    */
  lemma CompletedRunExports(stub: Stub, timeoutMs: int, p: Poller, at: nat, maxDuration: Option<int>, ticks: seq<Tick>,
                            outputDir: string)
    requires AfterSetup(stub, timeoutMs, p, at, maxDuration, ticks, outputDir).0.Completed?
    ensures var a := AfterSetup(stub, timeoutMs, p, at, maxDuration, ticks, outputDir).0;
            && 1 <= |a.signals| <= |ticks|
            && a.exported == Written(outputDir, a.signals, a.result)
            && forall k :: 0 <= k < |a.signals| ==> p.read(at + k * (p.width + 1), ticks[k]).row == Ok(a.signals[k])
  {
    AfterSetupEnds(stub, timeoutMs, p, at, maxDuration, ticks, outputDir);
    MonitorCounts(p, at, maxDuration, ticks, []);
    MonitorReads(p, at, maxDuration, ticks, []);
  }

  /**
    * The steps from `configure_video` on, with the calls numbered from
    * `first` and the polling loop answered by `p`: the setup calls, then
    * the rest from call `first + 5`.
    */
  function Measurement(s: Settings, stub: Stub, pathExists: string -> bool, p: Poller, first: nat,
                       maxDuration: Option<int>, ticks: seq<Tick>): (r: (Attempt, nat))
    ensures 4 <= r.1 <= |STEPS|
  {
    var (setup, reached) := Prepared(s, stub, pathExists, first);
    if setup.Err? then (Raising(setup.error), reached)
    else AfterSetup(stub, RpcTimeoutMs(s), p, first + 5, maxDuration, ticks, s.test.outputDir)
  }

  /**
    * The measurement steps stop at the first failing setup step, raising
    * its failure, before the polling loop; past the setup they end as the
    * steps after it do.
    */
  lemma MeasurementEnds(s: Settings, stub: Stub, pathExists: string -> bool, p: Poller, first: nat,
                        maxDuration: Option<int>, ticks: seq<Tick>)
    ensures var (a, reached) := Measurement(s, stub, pathExists, p, first, maxDuration, ticks);
            var setup := Prepared(s, stub, pathExists, first).0;
            && (a.Completed? <==> reached == |STEPS|)
            && (a.Polling? ==> reached == 8)
            && (reached < 8 <==> setup.Err?)
            && (reached < 8 ==> a == Raising(setup.error))
            && (reached >= 8 ==>
                  (a, reached) == AfterSetup(stub, RpcTimeoutMs(s), p, first + 5, maxDuration, ticks, s.test.outputDir))
  {
    if Prepared(s, stub, pathExists, first).0.Ok? {
      AfterSetupEnds(stub, RpcTimeoutMs(s), p, first + 5, maxDuration, ticks, s.test.outputDir);
    }
  }

  // ---------------------------------------------------------------------
  // The try block and `main`
  // ---------------------------------------------------------------------

  /**
    * The `try` block of `main` on the overridden settings: launch
    * PROVEtech:TA, connect, launch AI-Core, then the measurement steps with
    * the calls numbered from 0 and the polling loop answered by `p`. How it
    * ends and how many of STEPS it reached.
    */
  function TryBlock(s: Settings, inv: Invocation, env: Environment, p: Poller,
                    pathExists: string -> bool, spawnFails: seq<string> -> bool): (r: (Attempt, nat))
    ensures 1 <= r.1 <= |STEPS|
  {
    if TaFails(s, inv.skipTaLaunch, pathExists, spawnFails) then (Raising(TaFailure(s, pathExists)), 1)
    else if !env.ready then (Raising(ConnectionError(Endpoint(s.grpc))), 2)
    else Measurement(s, env.stub, pathExists, p, 0, inv.monitorSeconds, env.ticks)
  }

  /** The whole run of `main`: its exit, how the try block ended, the steps taken and the cleanup done. */
  datatype Run = Run(exit: Exit, attempt: Attempt, done: seq<Step>, cleanup: seq<Cleanup>)

  /**
    * What `main` does once the try block has ended with `a` after `reached`
    * steps: the exit code the failure maps to, and the `finally` block,
    * which does not run while the loop is still polling.
    */
  function Closing(s: Settings, inv: Invocation, pathExists: string -> bool, spawnFails: seq<string> -> bool,
                   a: Attempt, reached: nat): (r: Run)
    requires reached <= |STEPS|
    ensures r.attempt == a && r.done == STEPS[..reached]
    ensures r.exit == Exited(0) <==> a.Completed?
    ensures r.exit.StillMonitoring? <==> a.Polling?
    ensures a.Polling? ==> r.cleanup == []
    ensures !a.Polling? ==> (CloseChannel in r.cleanup <==> reached >= 3)
  {
    var exit := match a
      case Completed(_, _, _) => Exited(0)
      case Raising(f) => ExitOf(f)
      case Polling => StillMonitoring;
    var aiCore := reached >= 3 && AiCoreStarts(s.aiCore, inv.skipAiCore, pathExists, spawnFails);
    var ta := TaWanted(s, inv.skipTaLaunch) && !TaFails(s, inv.skipTaLaunch, pathExists, spawnFails);
    var cleanup := if a.Polling? then [] else Teardown(aiCore, ta, reached >= 3);
    Run(exit, a, STEPS[..reached], cleanup)
  }

  /** `main` once the settings are loaded: the try block, then what follows it. */
  function Session(s: Settings, inv: Invocation, env: Environment, p: Poller,
                   pathExists: string -> bool, spawnFails: seq<string> -> bool): (r: Run)
    ensures 1 <= |r.done| <= |STEPS| && r.done == STEPS[..|r.done|]
  {
    var (a, reached) := TryBlock(s, inv, env, p, pathExists, spawnFails);
    Closing(s, inv, pathExists, spawnFails, a, reached)
  }

  /**
    * How the session ends: the steps taken are a prefix of STEPS; it
    * returns 0 exactly when it took them all; a failed launch of
    * PROVEtech:TA or a failed connect return 1; any other failure returns 1
    * when `main` catches its kind and leaves `main` otherwise.
    */
  lemma SessionExits(s: Settings, inv: Invocation, env: Environment, p: Poller,
                     pathExists: string -> bool, spawnFails: seq<string> -> bool)
    ensures var run := Session(s, inv, env, p, pathExists, spawnFails);
            var taFails := TaFails(s, inv.skipTaLaunch, pathExists, spawnFails);
            && 1 <= |run.done| <= |STEPS| && run.done == STEPS[..|run.done|]
            && (run.exit == Exited(0) <==> run.done == STEPS)
            && (run.exit.StillMonitoring? <==> run.attempt.Polling?)
            && (run.attempt.Raising? ==> run.exit == ExitOf(run.attempt.failure))
            && (taFails <==> |run.done| == 1)
            && (taFails ==> run.attempt == Raising(TaFailure(s, pathExists)) && run.exit == Exited(1))
            && (|run.done| == 2 <==> !taFails && !env.ready)
            && (|run.done| == 2 ==> run.attempt == Raising(ConnectionError(Endpoint(s.grpc))) && run.exit == Exited(1))
            && (|run.done| >= 3 ==>
                  (run.attempt, |run.done|) == Measurement(s, env.stub, pathExists, p, 0, inv.monitorSeconds, env.ticks))
  {
    var (a, reached) := TryBlock(s, inv, env, p, pathExists, spawnFails);
    if !TaFails(s, inv.skipTaLaunch, pathExists, spawnFails) && env.ready {
      MeasurementEnds(s, env.stub, pathExists, p, 0, inv.monitorSeconds, env.ticks);
    }
    assert |STEPS[..reached]| == reached;
  }

  /**
    * The `finally` block runs whenever the try block has ended: it
    * terminates AI-Core when it was started, PROVEtech:TA when it was
    * started, and closes the channel when `connect` succeeded, in that order.
    */
  lemma SessionCleansUp(s: Settings, inv: Invocation, env: Environment, p: Poller,
                        pathExists: string -> bool, spawnFails: seq<string> -> bool)
    ensures var run := Session(s, inv, env, p, pathExists, spawnFails);
            && (run.attempt.Polling? ==> run.cleanup == [])
            && (!run.attempt.Polling? ==>
                  && (TerminateAiCore in run.cleanup <==> |run.done| >= 3 && AiCoreStarts(s.aiCore, inv.skipAiCore, pathExists, spawnFails))
                  && (TerminateTa in run.cleanup <==> TaWanted(s, inv.skipTaLaunch) && !TaFails(s, inv.skipTaLaunch, pathExists, spawnFails))
                  && (CloseChannel in run.cleanup <==> |run.done| >= 3)
                  && (forall i, j :: 0 <= i < j < |run.cleanup| ==> Rank(run.cleanup[i]) < Rank(run.cleanup[j])))
  {
    var (a, reached) := TryBlock(s, inv, env, p, pathExists, spawnFails);
    assert |STEPS[..reached]| == reached;
  }

  /** The settings `main` runs with, or the failure that loading them raises. */
  function Loaded(inv: Invocation, env: Environment, pathExists: string -> bool): Result<Settings, Failure>
  {
    // `Path(args.config) if args.config else <script dir>/config.yaml`
    var path := TextOr(inv.config, env.defaultConfigPath);
    match LoadConfiguration(pathExists(path), path, env.configLines, env.py)
    case Err(e) => Err(e)
    case Ok(s) => Ok(Overridden(s, inv.args))
  }

  /**
    * `main`: the configuration is loaded and overridden outside the try
    * block, so a failure there leaves `main` as an exception with no step
    * taken; otherwise the session runs with the server answering the loop.
    */
  function Main(inv: Invocation, env: Environment, pathExists: string -> bool, spawnFails: seq<string> -> bool): (r: Run)
    ensures |r.done| <= |STEPS| && r.done == STEPS[..|r.done|]
    ensures r.done == [] <==> Loaded(inv, env, pathExists).Err?
  {
    match Loaded(inv, env, pathExists)
    case Err(e) => Run(Raised(e), Raising(e), [], [])
    case Ok(s) => Session(s, inv, env, Answering(s, env.stub, env.py), pathExists, spawnFails)
  }

  /** A configuration that does not load is the only way `main` ends with no step taken, and it is not caught. */
  lemma MainLoadsFirst(inv: Invocation, env: Environment, pathExists: string -> bool, spawnFails: seq<string> -> bool)
    ensures var run := Main(inv, env, pathExists, spawnFails);
            var loaded := Loaded(inv, env, pathExists);
            && (loaded.Err? <==> run.done == [])
            && (loaded.Err? ==> run.exit == Raised(loaded.error) && run.cleanup == [])
  {
    var loaded := Loaded(inv, env, pathExists);
    if loaded.Ok? {
      var s := loaded.value;
      SessionExits(s, inv, env, Answering(s, env.stub, env.py), pathExists, spawnFails);
    }
  }
}
