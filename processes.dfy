/**
  * The external processes the script starts (PROVEtech:TA and AI-Core) and
  * how it stops them: `start_process`, `launch_ai_core`, `launch_provetech`
  * and the escalation of `_terminate_process`. The operating system is an
  * oracle: which paths exist, which commands fail to spawn, and which
  * signals make a process exit within the wait that follows them.
  */
module Processes {
  import opened Common
  import opened Text
  import opened Failures
  import opened Values
  import opened Configuration

  /** `os.name == "nt"` or not. */
  datatype Platform = Windows | Posix

  datatype Signal = CtrlBreak | Terminate | Kill

  /** What the script does to a process: poll it, send it a signal, or wait for it. */
  datatype Event = Polled | Sent(signal: Signal) | Waited(seconds: nat, timedOut: bool)

  const CTRL_BREAK_WAIT_S: nat := 5
  const TERMINATE_WAIT_S: nat := 10

  /** The process exits during a wait when the last thing sent to it is a signal it obeys. */
  predicate ExitsNow(events: seq<Event>, exitsOn: set<Signal>)
  {
    events != [] && events[|events| - 1].Sent? && events[|events| - 1].signal in exitsOn
  }

  /** A spawned process, seen from the script. */
  class Process {
    const command: seq<string>
    /** The signals after which this process exits within the wait that follows; Kill always ends it. */
    const exitsOn: set<Signal>
    var exited: bool
    var events: seq<Event>

    constructor (command: seq<string>, exitsOn: set<Signal>)
      ensures this.command == command && this.exitsOn == exitsOn
      ensures !exited && events == []
    {
      this.command := command;
      this.exitsOn := exitsOn;
      exited := false;
      events := [];
    }

    /** `poll()`: whether the process has exited. */
    method Poll() returns (done: bool)
      modifies this
      ensures done == exited && exited == old(exited)
      ensures events == old(events) + [Polled]
    {
      done := exited;
      events := events + [Polled];
    }

    /** `send_signal`, `terminate` and `kill`; a kill ends the process at once. */
    method SendSignal(s: Signal)
      modifies this
      ensures exited == (old(exited) || s == Kill)
      ensures events == old(events) + [Sent(s)]
    {
      exited := exited || s == Kill;
      events := events + [Sent(s)];
    }

    /** `wait(timeout=seconds)`: times out unless the process has exited or exits now. */
    method Wait(seconds: nat) returns (timedOut: bool)
      modifies this
      ensures exited == (old(exited) || ExitsNow(old(events), exitsOn))
      ensures timedOut == !exited
      ensures events == old(events) + [Waited(seconds, timedOut)]
    {
      exited := exited || ExitsNow(events, exitsOn);
      timedOut := !exited;
      events := events + [Waited(seconds, timedOut)];
    }
  }

  /** `terminate()`, a 10 s wait, and `kill()` when that wait times out. */
  function TerminateSteps(exitsOn: set<Signal>): (es: seq<Event>)
  {
    [Sent(Terminate), Waited(TERMINATE_WAIT_S, Terminate !in exitsOn)] + (if Terminate in exitsOn then [] else [Sent(Kill)])
  }

  /** The last step of an escalation leaves the process gone: a kill, or a wait it did not outlast. */
  predicate Ends(e: Event)
  {
    e == Sent(Kill) || (e.Waited? && !e.timedOut)
  }

  /** The seconds spent waiting in a run of events. */
  function WaitedSeconds(es: seq<Event>): nat
  {
    if es == [] then 0 else (if es[0].Waited? then es[0].seconds else 0) + WaitedSeconds(es[1..])
  }

  lemma {:induction false} WaitedSecondsAppend(a: seq<Event>, b: seq<Event>)
    ensures WaitedSeconds(a + b) == WaitedSeconds(a) + WaitedSeconds(b)
  {
    if a != [] {
      assert (a + b)[0] == a[0] && (a + b)[1..] == a[1..] + b;
      WaitedSecondsAppend(a[1..], b);
    } else {
      assert a + b == b;
    }
  }

  /** What `_terminate_process` does to a process that has or has not exited, and obeys `exitsOn`. */
  function Escalation(platform: Platform, exited: bool, exitsOn: set<Signal>): (es: seq<Event>)
    ensures es != [] && es[0] == Polled
    ensures exited <==> es == [Polled]
    ensures !exited ==> Ends(es[|es| - 1])
  {
    if exited then [Polled]
    else if platform == Windows then
      [Polled, Sent(CtrlBreak), Waited(CTRL_BREAK_WAIT_S, CtrlBreak !in exitsOn)]
        + (if CtrlBreak in exitsOn then [] else TerminateSteps(exitsOn))
    else
      [Polled] + TerminateSteps(exitsOn)
  }

  /**
    * `_terminate_process`: nothing but a poll for a process that has exited;
    * otherwise CTRL_BREAK and 5 s on Windows, then terminate and 10 s, then kill.
    * The process has exited afterwards.
    */
  method TerminateProcess(p: Process, platform: Platform)
    modifies p
    ensures p.events == old(p.events) + Escalation(platform, old(p.exited), p.exitsOn)
    ensures p.exited
  {
    var done := p.Poll();
    if done {
      return;
    }
    if platform == Windows {
      p.SendSignal(CtrlBreak);
      var timedOut := p.Wait(CTRL_BREAK_WAIT_S);
      if !timedOut {
        return;
      }
      p.SendSignal(Terminate);
    } else {
      p.SendSignal(Terminate);
    }
    var timedOut := p.Wait(TERMINATE_WAIT_S);
    if timedOut {
      p.SendSignal(Kill);
    }
  }

  /** A process that has already exited is polled and sent nothing. */
  lemma ExitedProcessIsLeftAlone(platform: Platform, exitsOn: set<Signal>)
    ensures forall e :: e in Escalation(platform, true, exitsOn) ==> !e.Sent?
  {
  }

  /**
    * A kill is sent only as the last step, right after a 10 s wait that
    * timed out, which itself follows a terminate.
    */
  lemma KillOnlyAfterTerminateTimesOut(platform: Platform, exited: bool, exitsOn: set<Signal>)
    ensures var es := Escalation(platform, exited, exitsOn);
            forall i :: 0 <= i < |es| && es[i] == Sent(Kill) ==>
              && i == |es| - 1 && i >= 2
              && es[i - 1] == Waited(TERMINATE_WAIT_S, true)
              && es[i - 2] == Sent(Terminate)
  {
  }

  /**
    * On Windows a running process first gets CTRL_BREAK and 5 s, and is
    * terminated only when it ignores them; elsewhere it is terminated at once.
    */
  lemma CtrlBreakComesFirstOnWindows(platform: Platform, exitsOn: set<Signal>)
    ensures var es := Escalation(platform, false, exitsOn);
            && (platform == Windows ==> es[1] == Sent(CtrlBreak) && es[2].Waited? && es[2].seconds == CTRL_BREAK_WAIT_S)
            && (platform == Windows ==> (Sent(Terminate) in es <==> CtrlBreak !in exitsOn))
            && (platform == Posix ==> es[1] == Sent(Terminate) && Sent(CtrlBreak) !in es)
  {
  }

  /**
    * A process that ignores every graceful signal is gone after at most 15 s
    * of waiting on Windows (5 s after CTRL_BREAK, 10 s after terminate) and
    * 10 s elsewhere; the bound is reached exactly when those signals are ignored.
    */
  lemma EscalationWaitBound(platform: Platform, exitsOn: set<Signal>)
    ensures var waited := WaitedSeconds(Escalation(platform, false, exitsOn));
            && (platform == Windows ==> waited <= CTRL_BREAK_WAIT_S + TERMINATE_WAIT_S)
            && (platform == Posix ==> waited == TERMINATE_WAIT_S)
            && (platform == Windows && CtrlBreak !in exitsOn ==> waited == CTRL_BREAK_WAIT_S + TERMINATE_WAIT_S)
            && (platform == Windows && CtrlBreak in exitsOn ==> waited == CTRL_BREAK_WAIT_S)
  {
    var terminate := TerminateSteps(exitsOn);
    var tail := if Terminate in exitsOn then [] else [Sent(Kill)];
    WaitedSecondsAppend([Sent(Terminate), Waited(TERMINATE_WAIT_S, Terminate !in exitsOn)], tail);
    assert WaitedSeconds(tail) == 0;
    assert WaitedSeconds(terminate) == TERMINATE_WAIT_S;
    if platform == Windows {
      var head := [Polled, Sent(CtrlBreak), Waited(CTRL_BREAK_WAIT_S, CtrlBreak !in exitsOn)];
      var rest := if CtrlBreak in exitsOn then [] else terminate;
      WaitedSecondsAppend(head, rest);
      assert WaitedSeconds(head[2..]) == CTRL_BREAK_WAIT_S by {
        assert head[2..][1..] == [];
      }
      assert WaitedSeconds(head[1..]) == CTRL_BREAK_WAIT_S by {
        assert head[1..][1..] == head[2..];
      }
    } else {
      WaitedSecondsAppend([Polled], terminate);
    }
  }

  /** The operating system as the launcher sees it, and the commands it has spawned. */
  class Launcher {
    /** `Path.exists()` of each path. */
    const pathExists: string -> bool
    /** `Popen` raises OSError for this command. */
    const spawnFails: seq<string> -> bool
    /** The signals the process started by this command obeys. */
    const obeys: seq<string> -> set<Signal>
    /** The commands `Popen` was called with, in order. */
    var spawned: seq<seq<string>>

    constructor (pathExists: string -> bool, spawnFails: seq<string> -> bool, obeys: seq<string> -> set<Signal>)
      ensures this.pathExists == pathExists && this.spawnFails == spawnFails && this.obeys == obeys
      ensures spawned == []
    {
      this.pathExists := pathExists;
      this.spawnFails := spawnFails;
      this.obeys := obeys;
      spawned := [];
    }

    /**
      * `start_process`: a missing executable fails before anything is
      * spawned; otherwise `Popen` runs the executable with the arguments and
      * an OSError becomes a ProcessLaunchError.
      */
    method StartProcess(executable: string, arguments: seq<string>) returns (r: Result<Process, Failure>)
      modifies this
      ensures !pathExists(executable) ==> r == Err(ProcessLaunchError(ExecutableNotFound(executable))) && spawned == old(spawned)
      ensures pathExists(executable) ==> spawned == old(spawned) + [[executable] + arguments]
      ensures pathExists(executable) && spawnFails([executable] + arguments) ==> r == Err(ProcessLaunchError(SpawnFailed(executable)))
      ensures r.Ok? <==> pathExists(executable) && !spawnFails([executable] + arguments)
      ensures r.Ok? ==> && fresh(r.value) && r.value.command == [executable] + arguments
                        && r.value.exitsOn == obeys([executable] + arguments)
                        && !r.value.exited && r.value.events == []
    {
      if !pathExists(executable) {
        return Err(ProcessLaunchError(ExecutableNotFound(executable)));
      }
      var command := [executable] + arguments;
      spawned := spawned + [command];
      if spawnFails(command) {
        return Err(ProcessLaunchError(SpawnFailed(executable)));
      }
      var p := new Process(command, obeys(command));
      return Ok(p);
    }

    /**
      * `launch_ai_core`: skipped on request or when the executable is missing;
      * the configuration file is passed only when it exists; a launch failure
      * is logged and swallowed.
      */
    method LaunchAiCore(s: AiCoreSettings, skip: bool) returns (p: Option<Process>)
      modifies this
      ensures skip || !pathExists(s.executable) ==> p.None? && spawned == old(spawned)
      ensures !skip && pathExists(s.executable) ==> spawned == old(spawned) + [AiCoreCommand(s, pathExists)]
      ensures p.Some? <==> !skip && pathExists(s.executable) && !spawnFails(AiCoreCommand(s, pathExists))
      ensures p.Some? ==> && fresh(p.value) && p.value.command == AiCoreCommand(s, pathExists)
                          && !p.value.exited && p.value.events == []
    {
      if skip || !pathExists(s.executable) {
        return None;
      }
      var arguments := if pathExists(s.configFile) then [s.configFile] else [];
      var r := StartProcess(s.executable, arguments);
      p := if r.Ok? then Some(r.value) else None;
    }

    /**
      * `launch_provetech`: skipped on request or when no executable is
      * configured; TA gets the gRPC port and `--automation`; a launch failure
      * is logged and raised again.
      */
    method LaunchProvetech(s: Settings, skip: bool) returns (r: Result<Option<Process>, Failure>)
      modifies this
      ensures skip || s.test.taExecutable.None? ==> r == Ok(None) && spawned == old(spawned)
      ensures !skip && s.test.taExecutable.Some? ==>
                var command := [s.test.taExecutable.value] + TaArguments(s.grpc.port);
                && (r.Err? <==> !pathExists(command[0]) || spawnFails(command))
                && (!pathExists(command[0]) ==> r == Err(ProcessLaunchError(ExecutableNotFound(command[0]))))
                && (pathExists(command[0]) && spawnFails(command) ==> r == Err(ProcessLaunchError(SpawnFailed(command[0]))))
                && (pathExists(command[0]) ==> spawned == old(spawned) + [command])
                && (!pathExists(command[0]) ==> spawned == old(spawned))
                && (r.Ok? ==> r.value.Some? && fresh(r.value.value) && r.value.value.command == command
                              && !r.value.value.exited && r.value.value.events == [])
    {
      if skip || s.test.taExecutable.None? {
        return Ok(None);
      }
      var started := StartProcess(s.test.taExecutable.value, TaArguments(s.grpc.port));
      match started
      case Err(e) =>
        return Err(e);
      case Ok(p) =>
        return Ok(Some(p));
    }
  }

  /** The command `launch_ai_core` runs: the executable, then the configuration file when it pathExists. */
  function AiCoreCommand(s: AiCoreSettings, pathExists: string -> bool): (command: seq<string>)
    ensures 1 <= |command| <= 2 && command[0] == s.executable
    ensures |command| == 2 <==> pathExists(s.configFile)
    ensures |command| == 2 ==> command[1] == s.configFile
  {
    [s.executable] + (if pathExists(s.configFile) then [s.configFile] else [])
  }

  /** The arguments of PROVEtech:TA: `--grpc-port=<port>` and `--automation`. */
  function TaArguments(port: int): (arguments: seq<string>)
    ensures |arguments| == 2 && arguments[1] == "--automation"
    ensures arguments[0] == "--grpc-port=" + IntToString(port)
  {
    ["--grpc-port=" + IntToString(port), "--automation"]
  }

  /** The port PROVEtech:TA is told to listen on reads back, through `int()`, as the configured port. */
  lemma TaPortReadsBack(port: int)
    ensures var flag := TaArguments(port)[0];
            && StartsWith(flag, "--grpc-port=")
            && IntOfText(flag[|"--grpc-port="|..]) == Some(port)
            && TaArguments(port)[1] == "--automation"
  {
    var flag := TaArguments(port)[0];
    assert flag[|"--grpc-port="|..] == IntToString(port);
    IntOfTextOfString(port);
  }
}
