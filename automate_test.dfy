/**
  * The methods of `automate_test.py` that drive the controller and the
  * launcher: the measurement steps on an open channel, the `try` and
  * `finally` blocks of `main`, and `main` itself. Each is proved against
  * the function of module Workflow that says how that part of `main` ends.
  */
module AutomateTest {
  import opened Common
  import opened Failures
  import opened Configuration
  import opened Rpc
  import opened Processes
  import opened Controller
  import opened Workflow

  /**
    * `configure_video`, `configure_ai_core`, `load_model` and
    * `start_measurement`: the first failure ends them, in the step it
    * belongs to; after success the five setup calls have been made.
    */
  method Setup(c: TestAutomationController) returns (r: Result<(), Failure>, reached: nat)
    requires c.channel == Open
    modifies c`calls
    ensures (r, reached) == Prepared(c.settings, c.stub, c.pathExists, old(c.calls))
    ensures r.Ok? ==> c.calls == old(c.calls) + 5
  {
    if VideoRequest(c.settings, c.pathExists).Ok? {
      PreparedInSteps(c.settings, c.stub, c.pathExists, c.calls);
    }
    r := c.ConfigureVideo();
    if r.Err? {
      return r, 4;
    }
    r := c.ConfigureAiCore();
    if r.Err? {
      return r, 5;
    }
    r := c.LoadModel();
    if r.Err? {
      return r, 6;
    }
    r := c.StartMeasurement();
    reached := 7;
  }

  /**
    * `stop_measurement`, `fetch_test_result` and `export_results` once the
    * polling loop has ended with `monitored`; none of them runs when the
    * loop failed or is still polling.
    */
  method Conclude(c: TestAutomationController, monitored: Monitoring) returns (a: Attempt, reached: nat)
    requires c.channel == Open
    modifies c`calls
    ensures var t := RpcTimeoutMs(c.settings);
            (a, reached) == Conclusion(monitored,
                                       Issue(c.stub, t, old(c.calls), [Call(MeasureStop, "MeasureStop")]).result,
                                       TestResultOf(CallResult(c.stub(old(c.calls) + 1, GetResult, t), "GetResult")),
                                       c.settings.test.outputDir)
  {
    match monitored
    case Aborted(f) =>
      return Raising(f), 8;
    case StillPolling(_) =>
      return Polling, 8;
    case Finished(signals) =>
      var stopped := c.StopMeasurement();
      if stopped.Err? {
        return Raising(stopped.error), 9;
      }
      var fetched := c.FetchTestResult();
      if fetched.Err? {
        return Raising(fetched.error), 10;
      }
      return Completed(signals, fetched.value, ExportOf(signals, fetched.value, c.settings.test.outputDir)), 11;
  }

  /** `wait_for_completion` and what follows it, after a successful setup. */
  method Finish(c: TestAutomationController, maxDuration: Option<int>, ticks: seq<Tick>) returns (a: Attempt, reached: nat)
    requires c.channel == Open
    modifies c`calls
    ensures (a, reached) == AfterSetup(c.stub, RpcTimeoutMs(c.settings), c.Answers(), old(c.calls), maxDuration, ticks,
                                       c.settings.test.outputDir)
  {
    var monitored := c.WaitForCompletion(maxDuration, ticks);
    a, reached := Conclude(c, monitored);
  }

  /** The controller steps after the AI-Core launch, on an open channel. */
  method Measure(c: TestAutomationController, maxDuration: Option<int>, ticks: seq<Tick>) returns (a: Attempt, reached: nat)
    requires c.channel == Open
    modifies c`calls
    ensures (a, reached) == Measurement(c.settings, c.stub, c.pathExists, c.Answers(), old(c.calls), maxDuration, ticks)
  {
    var r;
    r, reached := Setup(c);
    if r.Err? {
      a := Raising(r.error);
    } else {
      a, reached := Finish(c, maxDuration, ticks);
    }
  }

  /**
    * The `try` block of `main`: launch PROVEtech:TA, make the controller
    * and connect, launch AI-Core, then the measurement steps. Besides how
    * it ends, it hands the `finally` block the processes it started and
    * the controller, which exists once the launch of PROVEtech:TA has not
    * raised and has an open channel once `connect` has succeeded.
    */
  method RunSteps(s: Settings, inv: Invocation, env: Environment, launcher: Launcher)
    returns (a: Attempt, reached: nat, ta: Option<Process>, aiCore: Option<Process>, c: TestAutomationController?)
    modifies launcher
    ensures (a, reached) == TryBlock(s, inv, env, Answering(s, env.stub, env.py), launcher.pathExists, launcher.spawnFails)
    ensures ta.Some? <==> TaWanted(s, inv.skipTaLaunch) && !TaFails(s, inv.skipTaLaunch, launcher.pathExists, launcher.spawnFails)
    ensures ta.Some? ==> fresh(ta.value) && ta.value.command == TaCommand(s) && !ta.value.exited && ta.value.events == []
    ensures aiCore.Some? <==> reached >= 3 && AiCoreStarts(s.aiCore, inv.skipAiCore, launcher.pathExists, launcher.spawnFails)
    ensures aiCore.Some? ==>
              && fresh(aiCore.value) && aiCore.value.command == AiCoreCommand(s.aiCore, launcher.pathExists)
              && !aiCore.value.exited && aiCore.value.events == []
    ensures ta.Some? && aiCore.Some? ==> ta.value != aiCore.value
    ensures c != null <==> reached >= 2
    ensures c != null ==> fresh(c) && (c.channel == Open <==> reached >= 3) && (c.channel == NoChannel <==> reached == 2)
    ensures launcher.spawned == old(launcher.spawned) + TaSpawned(s, inv.skipTaLaunch, launcher.pathExists)
                                  + (if reached >= 3 then AiCoreSpawned(s.aiCore, inv.skipAiCore, launcher.pathExists) else [])
  {
    var launched := launcher.LaunchProvetech(s, inv.skipTaLaunch);
    if launched.Err? {
      return Raising(launched.error), 1, None, None, null;
    }
    ta := launched.value;
    c := new TestAutomationController(s, env.stub, launcher.pathExists, env.py);
    var connected := c.Connect(env.ready);
    if connected.Err? {
      return Raising(connected.error), 2, ta, None, c;
    }
    aiCore := launcher.LaunchAiCore(s.aiCore, inv.skipAiCore);
    assert c.Answers() == Answering(s, env.stub, env.py);
    a, reached := Measure(c, inv.monitorSeconds, env.ticks);
  }

  /** The process of an optional handle, as a set. */
  function Held(p: Option<Process>): set<Process>
  {
    if p.Some? then {p.value} else {}
  }

  /** The process of an optional handle, as a sequence. */
  function Listed(p: Option<Process>): (ps: seq<Process>)
    ensures p.Some? <==> |ps| == 1
    ensures p.Some? ==> ps[0] == p.value
  {
    if p.Some? then [p.value] else []
  }

  /**
    * The `finally` block of `main`: terminate AI-Core when it was started,
    * then PROVEtech:TA when it was started, then close the channel of a
    * controller that has one. The actions taken are returned in order.
    */
  method CleanUp(ta: Option<Process>, aiCore: Option<Process>, c: TestAutomationController?, platform: Platform)
    returns (cleanup: seq<Cleanup>)
    requires ta.Some? && aiCore.Some? ==> ta.value != aiCore.value
    modifies Held(ta), Held(aiCore), if c != null then {c} else {}
    ensures cleanup == Teardown(aiCore.Some?, ta.Some?, c != null && old(c.channel) != NoChannel)
    ensures aiCore.Some? ==>
              && aiCore.value.exited
              && aiCore.value.events == old(aiCore.value.events) + Escalation(platform, old(aiCore.value.exited), aiCore.value.exitsOn)
    ensures ta.Some? ==>
              && ta.value.exited
              && ta.value.events == old(ta.value.events) + Escalation(platform, old(ta.value.exited), ta.value.exitsOn)
    ensures c != null ==> c.calls == old(c.calls) && c.channel == (if old(c.channel) == NoChannel then NoChannel else Closed)
  {
    cleanup := [];
    if aiCore.Some? {
      TerminateProcess(aiCore.value, platform);
      cleanup := cleanup + [TerminateAiCore];
    }
    if ta.Some? {
      TerminateProcess(ta.value, platform);
      cleanup := cleanup + [TerminateTa];
    }
    if c != null && c.channel != NoChannel {
      c.CloseChannel();
      cleanup := cleanup + [CloseChannel];
    }
  }

  /**
    * The `finally` block as `main` reaches it: skipped while the loop is
    * still polling, otherwise every process started is terminated by the
    * escalation for the platform and a connected channel is closed.
    */
  method Finally(polling: bool, ta: Option<Process>, aiCore: Option<Process>, c: TestAutomationController?, platform: Platform)
    returns (cleanup: seq<Cleanup>, started: seq<Process>)
    requires ta.Some? && aiCore.Some? ==> ta.value != aiCore.value
    requires ta.Some? ==> !ta.value.exited && ta.value.events == []
    requires aiCore.Some? ==> !aiCore.value.exited && aiCore.value.events == []
    modifies Held(ta), Held(aiCore), if c != null then {c} else {}
    ensures cleanup == if polling then [] else Teardown(aiCore.Some?, ta.Some?, c != null && old(c.channel) != NoChannel)
    ensures started == Listed(aiCore) + Listed(ta)
    ensures polling ==> forall p :: p in started ==> !p.exited && p.events == []
    ensures !polling ==> forall p :: p in started ==> p.exited && p.events == Escalation(platform, false, p.exitsOn)
  {
    started := Listed(aiCore) + Listed(ta);
    cleanup := [];
    if !polling {
      cleanup := CleanUp(ta, aiCore, c, platform);
    }
  }

  /**
    * What follows the `try` block, handed how it ended and what it
    * started: the exit code, and the `finally` block unless the loop is
    * still polling.
    */
  method EndRun(s: Settings, inv: Invocation, platform: Platform, pathExists: string -> bool, spawnFails: seq<string> -> bool,
                a: Attempt, reached: nat, ta: Option<Process>, aiCore: Option<Process>, c: TestAutomationController?)
    returns (run: Run, started: seq<Process>)
    requires 1 <= reached <= |STEPS|
    requires ta.Some? <==> TaWanted(s, inv.skipTaLaunch) && !TaFails(s, inv.skipTaLaunch, pathExists, spawnFails)
    requires aiCore.Some? <==> reached >= 3 && AiCoreStarts(s.aiCore, inv.skipAiCore, pathExists, spawnFails)
    requires ta.Some? ==> !ta.value.exited && ta.value.events == []
    requires aiCore.Some? ==> !aiCore.value.exited && aiCore.value.events == []
    requires ta.Some? && aiCore.Some? ==> ta.value != aiCore.value
    requires c != null <==> reached >= 2
    requires c != null ==> (c.channel == NoChannel <==> reached == 2)
    modifies Held(ta), Held(aiCore), if c != null then {c} else {}
    ensures run == Closing(s, inv, pathExists, spawnFails, a, reached)
    ensures started == Listed(aiCore) + Listed(ta)
    ensures |started| == (if ta.Some? then 1 else 0) + (if aiCore.Some? then 1 else 0)
    ensures a.Polling? ==> forall p :: p in started ==> !p.exited && p.events == []
    ensures !a.Polling? ==> forall p :: p in started ==> p.exited && p.events == Escalation(platform, false, p.exitsOn)
  {
    var cleanup;
    cleanup, started := Finally(a.Polling?, ta, aiCore, c, platform);
    var exit := match a
      case Completed(_, _, _) => Exited(0)
      case Raising(f) => ExitOf(f)
      case Polling => StillMonitoring;
    run := Run(exit, a, STEPS[..reached], cleanup);
  }

  /**
    * `main` once the settings are loaded: the `try` block, then what
    * follows it. Every process it started is fresh, and has been
    * terminated unless the loop is still polling.
    */
  method RunSession(s: Settings, inv: Invocation, env: Environment, launcher: Launcher) returns (run: Run, started: seq<Process>)
    modifies launcher
    ensures run == Session(s, inv, env, Answering(s, env.stub, env.py), launcher.pathExists, launcher.spawnFails)
    ensures launcher.spawned == old(launcher.spawned) + TaSpawned(s, inv.skipTaLaunch, launcher.pathExists)
                                  + (if |run.done| >= 3 then AiCoreSpawned(s.aiCore, inv.skipAiCore, launcher.pathExists) else [])
    ensures forall p :: p in started ==> fresh(p)
    ensures run.attempt.Polling? ==> forall p :: p in started ==> !p.exited && p.events == []
    ensures !run.attempt.Polling? ==> forall p :: p in started ==> p.exited && p.events == Escalation(env.platform, false, p.exitsOn)
  {
    var a, reached, ta, aiCore, c := RunSteps(s, inv, env, launcher);
    run, started := EndRun(s, inv, env.platform, launcher.pathExists, launcher.spawnFails, a, reached, ta, aiCore, c);
  }

  /**
    * `main`: the configuration is loaded and overridden before the `try`
    * block, so a failure there starts nothing; otherwise the session runs
    * with the overridden settings.
    */
  method RunMain(inv: Invocation, env: Environment, launcher: Launcher) returns (run: Run, started: seq<Process>)
    modifies launcher
    ensures run == Main(inv, env, launcher.pathExists, launcher.spawnFails)
    ensures Loaded(inv, env, launcher.pathExists).Err? ==> started == [] && launcher.spawned == old(launcher.spawned)
    ensures Loaded(inv, env, launcher.pathExists).Ok? ==>
              var s := Loaded(inv, env, launcher.pathExists).value;
              launcher.spawned == old(launcher.spawned) + TaSpawned(s, inv.skipTaLaunch, launcher.pathExists)
                                    + (if |run.done| >= 3 then AiCoreSpawned(s.aiCore, inv.skipAiCore, launcher.pathExists) else [])
    ensures forall p :: p in started ==> fresh(p)
    ensures !run.exit.StillMonitoring? ==> forall p :: p in started ==> p.exited && p.events == Escalation(env.platform, false, p.exitsOn)
  {
    var path := TextOr(inv.config, env.defaultConfigPath);
    var loaded := LoadConfiguration(launcher.pathExists(path), path, env.configLines, env.py);
    if loaded.Err? {
      return Run(Raised(loaded.error), Raising(loaded.error), [], []), [];
    }
    var config := new AutomationConfig(loaded.value);
    config.ApplyCliOverrides(inv.args);
    var s := config.Current();
    assert Loaded(inv, env, launcher.pathExists) == Ok(s);
    run, started := RunSession(s, inv, env, launcher);
    SessionExits(s, inv, env, Answering(s, env.stub, env.py), launcher.pathExists, launcher.spawnFails);
  }
}
