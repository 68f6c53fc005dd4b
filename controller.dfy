/**
  * `TestAutomationController`: the checks and requests of each workflow step,
  * `_read_signal`, and the polling loop of `wait_for_completion`. The server
  * is the `Stub` oracle, indexed by the number of calls made so far; the
  * clock is a sequence of ticks, one per loop iteration.
  */
module Controller {
  import opened Common
  import opened Text
  import opened Dicts
  import opened Values
  import opened Failures
  import opened Configuration
  import opened Rpc

  /** The video modes `configure_video` accepts, after lower-casing. */
  const VIDEO_MODES: set<string> := {"device", "webcam", "file"}

  // ---------------------------------------------------------------------
  // The requests of the configuration steps
  // ---------------------------------------------------------------------

  /**
    * `configure_video`'s checks, made before any call, and the
    * ModifyVideoAudioConfig request it then sends. Paths exist as `pathExists` says.
    */
  function VideoRequest(s: Settings, pathExists: string -> bool): (r: Result<Request, Failure>)
    ensures r.Ok? <==> && Lower(s.video.mode) in VIDEO_MODES
                       && (Lower(s.video.mode) == "file" ==> s.video.filePath.Some? && pathExists(s.video.filePath.value))
    ensures Lower(s.video.mode) !in VIDEO_MODES ==> r == Err(ConfigurationError(UnsupportedVideoMode(s.video.mode)))
    ensures Lower(s.video.mode) == "file" && s.video.filePath.None? ==> r == Err(ConfigurationError(VideoFileRequired))
    ensures Lower(s.video.mode) == "file" && s.video.filePath.Some? && !pathExists(s.video.filePath.value) ==>
              r == Err(ConfigurationError(VideoFileMissing(s.video.filePath.value)))
    ensures r.Ok? ==> && r.value.ModifyVideoAudioConfig?
                      && r.value.sourceName == s.video.deviceName
                      && r.value.shareWithModelNode == s.test.modelName
                      && r.value.videoConfig.mode == Lower(s.video.mode)
    ensures r.Ok? ==> (r.value.videoConfig.webcamIndex.Some? <==> Lower(s.video.mode) == "webcam" && s.video.webcamIndex.Some?)
    ensures r.Ok? && r.value.videoConfig.webcamIndex.Some? ==> r.value.videoConfig.webcamIndex == s.video.webcamIndex
    ensures r.Ok? ==> (r.value.videoConfig.filePath.Some? <==> Lower(s.video.mode) == "file")
    ensures r.Ok? ==> (r.value.videoConfig.loopFile.Some? <==> Lower(s.video.mode) == "file")
    ensures r.Ok? ==> && r.value.videoConfig.deviceName == s.video.deviceName
                      && r.value.videoConfig.driverId == s.video.driverId
                      && r.value.videoConfig.resolution == s.video.resolution
                      && r.value.videoConfig.shareWithModel == s.test.modelName
    ensures r.Ok? && Lower(s.video.mode) == "file" ==>
              r.value.videoConfig.filePath == s.video.filePath && r.value.videoConfig.loopFile == Some(s.video.loopFile)
  {
    var v := s.video;
    var mode := Lower(v.mode);
    if mode !in VIDEO_MODES then Err(ConfigurationError(UnsupportedVideoMode(v.mode)))
    else if mode == "file" && v.filePath.None? then Err(ConfigurationError(VideoFileRequired))
    else if mode == "file" && !pathExists(v.filePath.value) then Err(ConfigurationError(VideoFileMissing(v.filePath.value)))
    else
      var payload := VideoPayload(
        v.deviceName, v.driverId, v.resolution, s.test.modelName, mode,
        if mode == "webcam" && v.webcamIndex.Some? then v.webcamIndex else None,
        if mode == "file" then v.filePath else None,
        if mode == "file" then Some(v.loopFile) else None);
      Ok(ModifyVideoAudioConfig(v.deviceName, payload, s.test.modelName))
  }

  /** The second call of `configure_video`: activate the source, nothing paused. */
  function ActivateVideo(s: Settings): Request
  {
    SetVideoAudio(s.video.deviceName, true, false, false)
  }

  /** `math.ceil(ms / 1000)`: the fewest whole seconds that cover `ms` milliseconds. */
  function TimeoutSeconds(ms: int): (secs: int)
    ensures 1000 * (secs - 1) < ms <= 1000 * secs
  {
    (ms + 999) / 1000
  }

  /**
    * The request of `configure_ai_core`. Its timeout is the configured
    * `timeout_ms` itself, not the `timeout_ms` property with its fallback.
    */
  function AiCoreRequest(s: Settings): (r: Request)
    ensures r.ModifyModelNodeConfig? && r.modelNodeName == s.test.modelName
    ensures r.aiCoreConfig == AiCorePayload(s.aiCore.executable, s.aiCore.configFile, s.aiCore.parallelInstances)
    ensures 1000 * (r.timeoutInSeconds - 1) < s.aiCore.timeoutMs <= 1000 * r.timeoutInSeconds
  {
    ModifyModelNodeConfig(
      s.test.modelName,
      AiCorePayload(s.aiCore.executable, s.aiCore.configFile, s.aiCore.parallelInstances),
      TimeoutSeconds(s.aiCore.timeoutMs))
  }

  /**
    * AI-Core is given the configured timeout rounded up to seconds; a
    * configured 0 sends 0 s, while the calls themselves wait 10 s.
    */
  lemma AiCoreTimeoutIsRawValue(s: Settings)
    ensures var secs := AiCoreRequest(s).timeoutInSeconds;
            1000 * (secs - 1) < s.aiCore.timeoutMs <= 1000 * secs
    ensures s.aiCore.timeoutMs == 0 ==> AiCoreRequest(s).timeoutInSeconds == 0 && RpcTimeoutMs(s) == DEFAULT_TIMEOUT_MS
  {
    var secs := AiCoreRequest(s).timeoutInSeconds;
    assert secs == TimeoutSeconds(s.aiCore.timeoutMs);
  }

  // ---------------------------------------------------------------------
  // Reading responses
  // ---------------------------------------------------------------------

  function SignalCallName(name: string): string
  {
    "GetSignal[" + name + "]"
  }

  /** `_read_signal` on the outcome of its GetSignal call: a response with an empty oneof raises RuntimeError. */
  function SignalValue(outcome: CallOutcome, name: string): (r: Result<Value, Failure>)
    ensures r.Ok? <==> outcome.Returned? && outcome.response.oneof.Some?
    ensures r.Ok? ==> r.value == outcome.response.oneof.value
    ensures outcome.Returned? && outcome.response.oneof.None? ==> r == Err(Uncaught(RuntimeError(name)))
    ensures outcome.Failed? ==> r == Err(CallResult(outcome, SignalCallName(name)).error)
  {
    match CallResult(outcome, SignalCallName(name))
    case Err(e) => Err(e)
    case Ok(response) =>
      if response.oneof.None? then Err(Uncaught(RuntimeError(name))) else Ok(response.oneof.value)
  }

  /** `_is_measurement_running` on the outcome of its IsRunning call: `bool(RetVal)`, False when it is absent. */
  function RunningValue(outcome: CallOutcome, py: Builtins): (r: Result<bool, Failure>)
    ensures r.Err? <==> outcome.Failed?
    ensures r.Err? ==> r.error == CallResult(outcome, "MeasureIsRunning").error
    ensures r.Ok? ==> (r.value <==> outcome.response.retVal.Some? && Truthy(outcome.response.retVal.value, py))
  {
    match CallResult(outcome, "MeasureIsRunning")
    case Err(e) => Err(e)
    case Ok(response) => Ok(response.retVal.Some? && Truthy(response.retVal.value, py))
  }

  /** What `fetch_test_result` returns: the three result fields, None where absent. */
  datatype TestResult = TestResult(result: Option<Value>, additionalResult: Option<Value>, addToProtocol: Option<Value>)

  function TestResultOf(r: Result<Response, Failure>): (t: Result<TestResult, Failure>)
    ensures t.Ok? <==> r.Ok?
    ensures t.Err? ==> t.error == r.error
    ensures t.Ok? ==> t.value == TestResult(r.value.retVal, r.value.additional, r.value.addToProtocol)
  {
    match r
    case Err(e) => Err(e)
    case Ok(response) => Ok(TestResult(response.retVal, response.additional, response.addToProtocol))
  }

  // ---------------------------------------------------------------------
  // The polling loop
  // ---------------------------------------------------------------------

  /** The server as the loop sees it: the stub, the timeout of every call, and `bool()` of its values. */
  datatype Link = Link(stub: Stub, timeoutMs: int, py: Builtins)

  /** The signals read into one row: the row so far, or the failure that ended the reads, and the calls made. */
  datatype Reading = Reading(row: Result<Dict<Value>, Failure>, made: nat)

  /**
    * The `for` loop of `wait_for_completion`: each signal is read with one
    * call, in the configured order, into `row`; the first failed read raises.
    */
  function ReadRow(link: Link, first: nat, signals: seq<string>, row: Dict<Value>): (r: Reading)
    ensures r.row.Ok? ==> r.made == |signals|
    ensures r.row.Err? ==> 1 <= r.made <= |signals|
    decreases |signals|
  {
    if signals == [] then Reading(Ok(row), 0)
    else match SignalValue(link.stub(first, GetSignal(signals[0], true), link.timeoutMs), signals[0])
      case Err(e) => Reading(Err(e), 1)
      case Ok(v) =>
        var rest := ReadRow(link, first + 1, signals[1..], Put(row, signals[0], v));
        Reading(rest.row, rest.made + 1)
  }

  /** The value the `j`-th read of a row that starts at call `first` returns. */
  function ReadAt(link: Link, first: nat, signals: seq<string>, j: nat): Result<Value, Failure>
    requires j < |signals|
  {
    SignalValue(link.stub(first + j, GetSignal(signals[j], true), link.timeoutMs), signals[j])
  }

  predicate UniqueNames(names: seq<string>)
  {
    forall i, j :: 0 <= i < j < |names| ==> names[i] != names[j]
  }

  /** The first read of a row read in full, and the rest of the row. */
  lemma ReadRowStep(link: Link, first: nat, signals: seq<string>, row: Dict<Value>)
    requires signals != [] && ReadRow(link, first, signals, row).row.Ok?
    ensures ReadAt(link, first, signals, 0).Ok?
    ensures ReadRow(link, first, signals, row).row ==
            ReadRow(link, first + 1, signals[1..], Put(row, signals[0], ReadAt(link, first, signals, 0).value)).row
  {
  }

  /** The first read of a row: a failure ends the row, a value goes into it before the rest is read. */
  lemma ReadRowFirst(link: Link, first: nat, signals: seq<string>, row: Dict<Value>)
    requires signals != []
    ensures ReadAt(link, first, signals, 0).Err? ==>
              ReadRow(link, first, signals, row) == Reading(Err(ReadAt(link, first, signals, 0).error), 1)
    ensures ReadAt(link, first, signals, 0).Ok? ==>
              var rest := ReadRow(link, first + 1, signals[1..], Put(row, signals[0], ReadAt(link, first, signals, 0).value));
              ReadRow(link, first, signals, row) == Reading(rest.row, rest.made + 1)
  {
  }

  /**
    * Reading from the `j`-th signal on, as part of a row whose reads start
    * at call `first`: a failed read ends the row there, a value is stored
    * and the reads go on with the next signal.
    */
  lemma ReadRowAdvance(link: Link, first: nat, signals: seq<string>, j: nat, row: Dict<Value>)
    requires j < |signals|
    ensures var rest := ReadRow(link, first + j, signals[j..], row);
            var value := ReadAt(link, first, signals, j);
            && (value.Err? ==> rest == Reading(Err(value.error), 1))
            && (value.Ok? ==>
                  var next := ReadRow(link, first + j + 1, signals[j + 1..], Put(row, signals[j], value.value));
                  rest == Reading(next.row, next.made + 1))
  {
    assert signals[j..][1..] == signals[j + 1..];
    ReadRowFirst(link, first + j, signals[j..], row);
  }

  /** One read of the loop over the signals: a failure ends the row, a value moves on to the next signal. */
  lemma {:induction false} ReadOneSignal(link: Link, first: nat, signals: seq<string>, j: nat, row: Dict<Value>,
                                         value: Result<Value, Failure>, total: Reading)
    requires j < |signals|
    requires value == SignalValue(link.stub(first + j, GetSignal(signals[j], true), link.timeoutMs), signals[j])
    requires var rest := ReadRow(link, first + j, signals[j..], row); total == Reading(rest.row, j + rest.made)
    ensures value.Err? ==> total == Reading(Err(value.error), j + 1)
    ensures value.Ok? ==>
              var rest := ReadRow(link, first + j + 1, signals[j + 1..], Put(row, signals[j], value.value));
              total == Reading(rest.row, j + 1 + rest.made)
  {
    ReadRowAdvance(link, first, signals, j, row);
  }

  /** Reading a row in full means every read of it returned a value. */
  lemma {:induction false} ReadRowSucceeds(link: Link, first: nat, signals: seq<string>, row: Dict<Value>)
    requires ReadRow(link, first, signals, row).row.Ok?
    ensures forall j :: 0 <= j < |signals| ==> ReadAt(link, first, signals, j).Ok?
    decreases |signals|
  {
    if signals != [] {
      var v := ReadAt(link, first, signals, 0).value;
      ReadRowSucceeds(link, first + 1, signals[1..], Put(row, signals[0], v));
      forall j | 1 <= j < |signals|
        ensures ReadAt(link, first, signals, j) == ReadAt(link, first + 1, signals[1..], j - 1)
      {
      }
    }
  }

  /** A row read in full keeps every entry whose key is not a signal name. */
  lemma {:induction false} ReadRowKeepsOthers(link: Link, first: nat, signals: seq<string>, row: Dict<Value>, k: string)
    requires ReadRow(link, first, signals, row).row.Ok? && k !in signals
    ensures Get(ReadRow(link, first, signals, row).row.value, k) == Get(row, k)
    decreases |signals|
  {
    if signals != [] {
      var v := ReadAt(link, first, signals, 0).value;
      assert k !in signals[1..];
      PutGet(row, signals[0], v);
      ReadRowKeepsOthers(link, first + 1, signals[1..], Put(row, signals[0], v), k);
    }
  }

  /**
    * Whatever the names, a row read in full holds under a name the value of
    * its last read: a repeated signal, or one named like the timestamp
    * column, overwrites what was stored before.
    */
  lemma {:induction false} ReadRowLastWins(link: Link, first: nat, signals: seq<string>, row: Dict<Value>, j: nat)
    requires ReadRow(link, first, signals, row).row.Ok?
    requires j < |signals| && signals[j] !in signals[j + 1..]
    ensures ReadAt(link, first, signals, j).Ok?
    ensures Get(ReadRow(link, first, signals, row).row.value, signals[j]) == Some(ReadAt(link, first, signals, j).value)
    decreases |signals|
  {
    ReadRowStep(link, first, signals, row);
    var v := ReadAt(link, first, signals, 0).value;
    var next := Put(row, signals[0], v);
    if j == 0 {
      ReadRowKeepsOthers(link, first + 1, signals[1..], next, signals[0]);
      PutGet(row, signals[0], v);
    } else {
      assert signals[1..][j - 1] == signals[j] && signals[1..][j..] == signals[j + 1..];
      ReadRowLastWins(link, first + 1, signals[1..], next, j - 1);
      assert ReadAt(link, first, signals, j) == ReadAt(link, first + 1, signals[1..], j - 1);
    }
  }

  /** Distinct names stay distinct, and differ from the first, once the first is dropped. */
  lemma UniqueTail(names: seq<string>)
    requires names != [] && UniqueNames(names)
    ensures UniqueNames(names[1..]) && names[0] !in names[1..]
  {
    forall i, j | 0 <= i < j < |names[1..]|
      ensures names[1..][i] != names[1..][j]
    {
      assert names[1..][i] == names[i + 1] && names[1..][j] == names[j + 1];
    }
    forall j | 0 <= j < |names[1..]|
      ensures names[1..][j] != names[0]
    {
      assert names[1..][j] == names[j + 1];
    }
  }

  /** With distinct signal names, a row read in full holds under each name the value its read returned. */
  lemma {:induction false} ReadRowValues(link: Link, first: nat, signals: seq<string>, row: Dict<Value>)
    requires ReadRow(link, first, signals, row).row.Ok? && UniqueNames(signals)
    ensures forall j :: 0 <= j < |signals| ==>
              ReadAt(link, first, signals, j).Ok? &&
              Get(ReadRow(link, first, signals, row).row.value, signals[j]) == Some(ReadAt(link, first, signals, j).value)
    decreases |signals|
  {
    if signals != [] {
      ReadRowSucceeds(link, first, signals, row);
      var v := ReadAt(link, first, signals, 0).value;
      var next := Put(row, signals[0], v);
      UniqueTail(signals);
      ReadRowValues(link, first + 1, signals[1..], next);
      ReadRowKeepsOthers(link, first + 1, signals[1..], next, signals[0]);
      PutGet(row, signals[0], v);
      forall j | 1 <= j < |signals|
        ensures ReadAt(link, first, signals, j) == ReadAt(link, first + 1, signals[1..], j - 1)
      {
      }
    }
  }

  /** Appending the first name and then the rest is appending them all. */
  lemma AppendFirst(front: seq<string>, names: seq<string>)
    requires names != []
    ensures front + [names[0]] + names[1..] == front + names
  {
    assert [names[0]] + names[1..] == names;
  }

  /** None of `names` is a key of `row` yet. */
  predicate AllNew(names: seq<string>, row: Dict<Value>)
  {
    forall j :: 0 <= j < |names| ==> names[j] !in Keys(row)
  }

  /** Storing the first of some distinct new names leaves the others new, and appends it to the keys. */
  lemma NewKeysStayNew(row: Dict<Value>, names: seq<string>, v: Value)
    requires names != [] && UniqueNames(names)
    requires AllNew(names, row)
    ensures Keys(Put(row, names[0], v)) == Keys(row) + [names[0]]
    ensures AllNew(names[1..], Put(row, names[0], v))
  {
    PutKeys(row, names[0], v);
    forall j | 0 <= j < |names[1..]|
      ensures names[1..][j] !in Keys(Put(row, names[0], v))
    {
      assert names[1..][j] == names[j + 1];
    }
  }

  /** With distinct signal names new to the row, reading it adds them after its keys, in configured order. */
  lemma {:induction false} ReadRowKeys(link: Link, first: nat, signals: seq<string>, row: Dict<Value>)
    requires ReadRow(link, first, signals, row).row.Ok? && UniqueNames(signals) && AllNew(signals, row)
    ensures Keys(ReadRow(link, first, signals, row).row.value) == Keys(row) + signals
    decreases |signals|
  {
    if signals != [] {
      ReadRowStep(link, first, signals, row);
      var v := ReadAt(link, first, signals, 0).value;
      var next := Put(row, signals[0], v);
      UniqueTail(signals);
      NewKeysStayNew(row, signals, v);
      ReadRowKeys(link, first + 1, signals[1..], next);
      var full := ReadRow(link, first, signals, row).row.value;
      assert full == ReadRow(link, first + 1, signals[1..], next).row.value;
      assert Keys(full) == Keys(next) + signals[1..];
      AppendFirst(Keys(row), signals);
    }
  }

  /** One entry of the clock: the timestamp of a row, and the seconds elapsed when the loop checks its limit. */
  datatype Tick = Tick(timestamp: string, elapsed: real)

  /**
    * How `wait_for_completion` ends: with its rows, with the exception that
    * left it, or still polling when the ticks run out.
    */
  datatype Monitoring = Finished(rows: seq<Dict<Value>>) | Aborted(failure: Failure) | StillPolling(rows: seq<Dict<Value>>)

  datatype Progress = Progress(outcome: Monitoring, made: nat)

  /** `max_duration and elapsed >= max_duration`. */
  predicate DurationReached(maxDuration: Option<int>, elapsed: real)
  {
    maxDuration.Some? && maxDuration.value != 0 && elapsed >= maxDuration.value as real
  }

  /** A row before its signals: the timestamp alone. */
  function FreshRow(t: Tick): Dict<Value>
  {
    [("timestamp", Str(t.timestamp))]
  }

  /**
    * What one iteration of the loop asks the server: the row read from a
    * given call number at a tick, whether the measurement runs according to
    * a given call, and how many calls reading a row takes.
    */
  datatype Poller = Poller(read: (nat, Tick) -> Reading, running: nat -> Result<bool, Failure>, width: nat)

  /** The server's answers: `|signals|` GetSignal calls per row, then one IsRunning call. */
  function ServerPoller(link: Link, signals: seq<string>): Poller
  {
    Poller((i: nat, t: Tick) => ReadRow(link, i, signals, FreshRow(t)),
           (i: nat) => RunningValue(link.stub(i, MeasureIsRunning, link.timeoutMs), link.py),
           |signals|)
  }

  /** The server's answers, one by one. */
  lemma ServerAnswers(link: Link, signals: seq<string>, i: nat, t: Tick)
    ensures ServerPoller(link, signals).width == |signals|
    ensures ServerPoller(link, signals).read(i, t) == ReadRow(link, i, signals, FreshRow(t))
    ensures ServerPoller(link, signals).running(i + |signals|) ==
            RunningValue(link.stub(i + |signals|, MeasureIsRunning, link.timeoutMs), link.py)
  {
  }

  /**
    * The loop of `wait_for_completion` from call number `first` on, with
    * `rows` collected so far: read a row, append it, ask whether the
    * measurement runs, and stop when it does not or the duration is reached.
    */
  function Monitor(p: Poller, first: nat, maxDuration: Option<int>, ticks: seq<Tick>, rows: seq<Dict<Value>>): (r: Progress)
    decreases |ticks|
  {
    if ticks == [] then Progress(StillPolling(rows), 0)
    else
      var reading := p.read(first, ticks[0]);
      if reading.row.Err? then Progress(Aborted(reading.row.error), reading.made)
      else
        var collected := rows + [reading.row.value];
        var running := p.running(first + p.width);
        if running.Err? then Progress(Aborted(running.error), p.width + 1)
        else if !running.value || DurationReached(maxDuration, ticks[0].elapsed) then Progress(Finished(collected), p.width + 1)
        else
          var rest := Monitor(p, first + p.width + 1, maxDuration, ticks[1..], collected);
          Progress(rest.outcome, p.width + 1 + rest.made)
  }

  /** Whether the `k`-th iteration goes on: the measurement still runs and the duration is not reached. */
  predicate GoesOn(p: Poller, first: nat, maxDuration: Option<int>, ticks: seq<Tick>, k: nat)
    requires k < |ticks|
  {
    && p.running(first + k * (p.width + 1) + p.width) == Ok(true)
    && !DurationReached(maxDuration, ticks[k].elapsed)
  }

  /** The `k`-th iteration from call `first` is iteration `k - 1` from the call after the first iteration. */
  lemma GoesOnShift(p: Poller, first: nat, maxDuration: Option<int>, ticks: seq<Tick>, k: nat)
    requires 1 <= k < |ticks|
    ensures first + k * (p.width + 1) == (first + p.width + 1) + (k - 1) * (p.width + 1)
    ensures GoesOn(p, first, maxDuration, ticks, k) == GoesOn(p, first + p.width + 1, maxDuration, ticks[1..], k - 1)
  {
    assert k * (p.width + 1) == (p.width + 1) + (k - 1) * (p.width + 1);
  }

  /** One iteration of the loop: how it ends, or where the rest of the loop starts. */
  lemma MonitorFirst(p: Poller, first: nat, maxDuration: Option<int>, ticks: seq<Tick>, rows: seq<Dict<Value>>)
    requires ticks != []
    ensures var reading := p.read(first, ticks[0]);
            var m := Monitor(p, first, maxDuration, ticks, rows);
            var running := p.running(first + p.width);
            && (reading.row.Err? ==> m == Progress(Aborted(reading.row.error), reading.made))
            && (reading.row.Ok? && running.Err? ==> m == Progress(Aborted(running.error), p.width + 1))
            && (reading.row.Ok? && running.Ok? && (!running.value || DurationReached(maxDuration, ticks[0].elapsed)) ==>
                  m == Progress(Finished(rows + [reading.row.value]), p.width + 1))
            && (reading.row.Ok? && running == Ok(true) && !DurationReached(maxDuration, ticks[0].elapsed) ==>
                  var rest := Monitor(p, first + p.width + 1, maxDuration, ticks[1..], rows + [reading.row.value]);
                  m == Progress(rest.outcome, p.width + 1 + rest.made))
  {
  }

  /** A round that reads a row while the measurement runs and the duration is not reached leaves the rest to the next round. */
  lemma MonitorGoesOn(p: Poller, first: nat, maxDuration: Option<int>, ticks: seq<Tick>, rows: seq<Dict<Value>>,
                      row: Dict<Value>, next: nat)
    requires ticks != [] && p.read(first, ticks[0]).row == Ok(row)
    requires p.running(first + p.width) == Ok(true) && !DurationReached(maxDuration, ticks[0].elapsed)
    requires next == first + p.width + 1
    ensures var rest := Monitor(p, next, maxDuration, ticks[1..], rows + [row]);
            Monitor(p, first, maxDuration, ticks, rows) == Progress(rest.outcome, next - first + rest.made)
  {
    MonitorFirst(p, first, maxDuration, ticks, rows);
  }

  /** The calls of one more iteration. */
  lemma OneMoreIteration(iterations: nat, width: nat)
    ensures iterations * (width + 1) + width + 1 == (iterations + 1) * (width + 1)
    ensures 1 * (width + 1) == width + 1
  {
  }

  /**
    * The loop keeps the rows it started with and adds one row per iteration,
    * at `width + 1` calls per iteration; a finished loop has added at least
    * one row, and a loop still polling has used every tick.
    */
  lemma {:induction false} MonitorCounts(p: Poller, first: nat, maxDuration: Option<int>, ticks: seq<Tick>, rows: seq<Dict<Value>>)
    ensures var r := Monitor(p, first, maxDuration, ticks, rows);
            !r.outcome.Aborted? ==>
              var added := |r.outcome.rows| - |rows|;
              && rows <= r.outcome.rows
              && 0 <= added <= |ticks|
              && r.made == added * (p.width + 1)
              && (r.outcome.StillPolling? ==> added == |ticks|)
              && (r.outcome.Finished? ==> 1 <= added)
    decreases |ticks|
  {
    if ticks != [] {
      var reading := p.read(first, ticks[0]);
      if reading.row.Ok? && GoesOn(p, first, maxDuration, ticks, 0) {
        var collected := rows + [reading.row.value];
        MonitorCounts(p, first + p.width + 1, maxDuration, ticks[1..], collected);
        var rest := Monitor(p, first + p.width + 1, maxDuration, ticks[1..], collected);
        if !rest.outcome.Aborted? {
          OneMoreIteration(|rest.outcome.rows| - |collected|, p.width);
        }
      }
    }
  }

  /**
    * Every iteration but the last went on: a finished loop stopped at the
    * first iteration that did not, and a loop still polling never stopped.
    */
  lemma {:induction false} MonitorStops(p: Poller, first: nat, maxDuration: Option<int>, ticks: seq<Tick>, rows: seq<Dict<Value>>)
    ensures var r := Monitor(p, first, maxDuration, ticks, rows);
            !r.outcome.Aborted? ==>
              var added := |r.outcome.rows| - |rows|;
              && (forall k :: 0 <= k < |ticks| && (r.outcome.StillPolling? || k < added - 1) ==> GoesOn(p, first, maxDuration, ticks, k))
              && (r.outcome.Finished? ==> 1 <= added <= |ticks| && !GoesOn(p, first, maxDuration, ticks, added - 1))
    decreases |ticks|
  {
    MonitorCounts(p, first, maxDuration, ticks, rows);
    if ticks != [] {
      var reading := p.read(first, ticks[0]);
      if reading.row.Ok? && GoesOn(p, first, maxDuration, ticks, 0) {
        var collected := rows + [reading.row.value];
        var next := first + p.width + 1;
        MonitorStops(p, next, maxDuration, ticks[1..], collected);
        forall k | 1 <= k < |ticks|
          ensures GoesOn(p, first, maxDuration, ticks, k) == GoesOn(p, next, maxDuration, ticks[1..], k - 1)
        {
          GoesOnShift(p, first, maxDuration, ticks, k);
        }
      }
    }
  }

  /**
    * Each row the loop adds is the row read in its iteration, whose reads
    * start at call `first + k * (width + 1)`.
    */
  lemma {:induction false} MonitorReads(p: Poller, first: nat, maxDuration: Option<int>, ticks: seq<Tick>, rows: seq<Dict<Value>>)
    ensures var r := Monitor(p, first, maxDuration, ticks, rows);
            !r.outcome.Aborted? ==>
              forall k :: 0 <= k < |ticks| && |rows| + k < |r.outcome.rows| ==>
                p.read(first + k * (p.width + 1), ticks[k]).row == Ok(r.outcome.rows[|rows| + k])
    decreases |ticks|
  {
    MonitorCounts(p, first, maxDuration, ticks, rows);
    if ticks != [] {
      var reading := p.read(first, ticks[0]);
      if reading.row.Ok? && GoesOn(p, first, maxDuration, ticks, 0) {
        var collected := rows + [reading.row.value];
        var next := first + p.width + 1;
        MonitorCounts(p, next, maxDuration, ticks[1..], collected);
        MonitorReads(p, next, maxDuration, ticks[1..], collected);
        var out := Monitor(p, first, maxDuration, ticks, rows).outcome;
        if !out.Aborted? {
          assert out.rows[|rows|] == collected[|rows|];
          forall k | 1 <= k < |ticks| && |rows| + k < |out.rows|
            ensures p.read(first + k * (p.width + 1), ticks[k]).row == Ok(out.rows[|rows| + k])
          {
            GoesOnShift(p, first, maxDuration, ticks, k);
            assert ticks[k] == ticks[1..][k - 1];
            assert out.rows[|rows| + k] == out.rows[|collected| + (k - 1)];
          }
        }
      }
    }
  }

  // ---------------------------------------------------------------------
  // The controller
  // ---------------------------------------------------------------------

  /** `self.channel`: not yet made, open, or closed by the teardown of `main`. */
  datatype Channel = NoChannel | Open | Closed

  class TestAutomationController {
    const settings: Settings
    /** The server behind both stubs. */
    const stub: Stub
    /** `Path.exists()` of each path. */
    const pathExists: string -> bool
    const py: Builtins
    var channel: Channel
    /** The number of calls made so far; the next call is the stub's call number `calls`. */
    var calls: nat

    constructor (settings: Settings, stub: Stub, pathExists: string -> bool, py: Builtins)
      ensures this.settings == settings && this.stub == stub && this.pathExists == pathExists && this.py == py
      ensures channel == NoChannel && calls == 0
    {
      this.settings := settings;
      this.stub := stub;
      this.pathExists := pathExists;
      this.py := py;
      channel := NoChannel;
      calls := 0;
    }

    /** The server with the timeout of every call. */
    function Server(): Link
    {
      Link(stub, RpcTimeoutMs(settings), py)
    }

    /** `connect`: the channel opens when the endpoint is ready in time, else ConnectionError. */
    method Connect(ready: bool) returns (r: Result<(), Failure>)
      modifies this
      ensures calls == old(calls)
      ensures ready ==> r == Ok(()) && channel == Open
      ensures !ready ==> r == Err(ConnectionError(Endpoint(settings.grpc))) && channel == old(channel)
    {
      if !ready {
        return Err(ConnectionError(Endpoint(settings.grpc)));
      }
      channel := Open;
      return Ok(());
    }

    /** `channel.close()` in the teardown of `main`. */
    method CloseChannel()
      requires channel != NoChannel
      modifies this
      ensures channel == Closed && calls == old(calls)
    {
      channel := Closed;
    }

    /** `_call_rpc`: one call with the `max(timeout_ms, 5000)` timeout, its failure translated. */
    method CallRpc(request: Request, name: string) returns (r: Result<Response, Failure>)
      requires channel == Open
      modifies this`calls
      ensures calls == old(calls) + 1
      ensures r == CallResult(stub(old(calls), request, RpcTimeoutMs(settings)), name)
    {
      var timeoutMs := RpcTimeoutMs(settings);
      var outcome := stub(calls, request, timeoutMs);
      calls := calls + 1;
      r := CallResult(outcome, name);
    }

    /** `configure_video`: its checks fail before any call; then the configuration and the activation. */
    method ConfigureVideo() returns (r: Result<(), Failure>)
      requires channel == Open
      modifies this`calls
      ensures calls >= old(calls)
      ensures VideoRequest(settings, pathExists).Err? ==> r == Err(VideoRequest(settings, pathExists).error) && calls == old(calls)
      ensures VideoRequest(settings, pathExists).Ok? ==>
                Issued(r, calls - old(calls)) ==
                Issue(stub, RpcTimeoutMs(settings), old(calls),
                      [Call(VideoRequest(settings, pathExists).value, "ModifyVideoAudioConfig"), Call(ActivateVideo(settings), "SetVideoAudio")])
    {
      var request := VideoRequest(settings, pathExists);
      if request.Err? {
        return Err(request.error);
      }
      var configured := CallRpc(request.value, "ModifyVideoAudioConfig");
      if configured.Err? {
        return Err(configured.error);
      }
      var activated := CallRpc(ActivateVideo(settings), "SetVideoAudio");
      ghost var steps := [Call(request.value, "ModifyVideoAudioConfig"), Call(ActivateVideo(settings), "SetVideoAudio")];
      assert steps[1..] == [steps[1]] && steps[1..][1..] == [];
      assert Issue(stub, RpcTimeoutMs(settings), old(calls) + 1, steps[1..]) ==
             Issued(if activated.Err? then Err(activated.error) else Ok(()), 1);
      if activated.Err? {
        return Err(activated.error);
      }
      return Ok(());
    }

    /** A step made of one call whose response is not used. */
    method CallStep(request: Request, name: string) returns (r: Result<(), Failure>)
      requires channel == Open
      modifies this`calls
      ensures calls == old(calls) + 1
      ensures Issued(r, 1) == Issue(stub, RpcTimeoutMs(settings), old(calls), [Call(request, name)])
    {
      var response := CallRpc(request, name);
      r := if response.Err? then Err(response.error) else Ok(());
    }

    /** `configure_ai_core`. */
    method ConfigureAiCore() returns (r: Result<(), Failure>)
      requires channel == Open
      modifies this`calls
      ensures calls == old(calls) + 1
      ensures Issued(r, 1) == Issue(stub, RpcTimeoutMs(settings), old(calls), [Call(AiCoreRequest(settings), "ModifyModelNodeConfig")])
    {
      r := CallStep(AiCoreRequest(settings), "ModifyModelNodeConfig");
    }

    /** `load_model`. */
    method LoadModel() returns (r: Result<(), Failure>)
      requires channel == Open
      modifies this`calls
      ensures calls == old(calls) + 1
      ensures Issued(r, 1) == Issue(stub, RpcTimeoutMs(settings), old(calls), [Call(Request.LoadModel(settings.test.modelName), "LoadModel")])
    {
      r := CallStep(Request.LoadModel(settings.test.modelName), "LoadModel");
    }

    /** `start_measurement`, not saving to disk. */
    method StartMeasurement() returns (r: Result<(), Failure>)
      requires channel == Open
      modifies this`calls
      ensures calls == old(calls) + 1
      ensures Issued(r, 1) == Issue(stub, RpcTimeoutMs(settings), old(calls), [Call(MeasureStart(false), "MeasureStart")])
    {
      r := CallStep(MeasureStart(false), "MeasureStart");
    }

    /** `stop_measurement`. */
    method StopMeasurement() returns (r: Result<(), Failure>)
      requires channel == Open
      modifies this`calls
      ensures calls == old(calls) + 1
      ensures Issued(r, 1) == Issue(stub, RpcTimeoutMs(settings), old(calls), [Call(MeasureStop, "MeasureStop")])
    {
      r := CallStep(MeasureStop, "MeasureStop");
    }

    /** `fetch_test_result`. */
    method FetchTestResult() returns (r: Result<TestResult, Failure>)
      requires channel == Open
      modifies this`calls
      ensures calls == old(calls) + 1
      ensures r == TestResultOf(CallResult(stub(old(calls), GetResult, RpcTimeoutMs(settings)), "GetResult"))
    {
      var response := CallRpc(GetResult, "GetResult");
      r := TestResultOf(response);
    }

    /** `_is_measurement_running`. */
    method IsMeasurementRunning() returns (r: Result<bool, Failure>)
      requires channel == Open
      modifies this`calls
      ensures calls == old(calls) + 1
      ensures r == RunningValue(stub(old(calls), MeasureIsRunning, RpcTimeoutMs(settings)), py)
    {
      var response := CallRpc(MeasureIsRunning, "MeasureIsRunning");
      match response
      case Err(e) =>
        r := Err(e);
      case Ok(value) =>
        r := Ok(value.retVal.Some? && Truthy(value.retVal.value, py));
    }

    /** `_read_signal`. */
    method ReadSignal(name: string) returns (r: Result<Value, Failure>)
      requires channel == Open
      modifies this`calls
      ensures calls == old(calls) + 1
      ensures r == SignalValue(stub(old(calls), GetSignal(name, true), RpcTimeoutMs(settings)), name)
    {
      var response := CallRpc(GetSignal(name, true), SignalCallName(name));
      match response
      case Err(e) =>
        r := Err(e);
      case Ok(value) =>
        r := if value.oneof.None? then Err(Uncaught(RuntimeError(name))) else Ok(value.oneof.value);
    }

    /** The `for` loop of `wait_for_completion`: a row with the timestamp of `t`, then each signal in order. */
    method ReadSignals(t: Tick) returns (r: Result<Dict<Value>, Failure>)
      requires channel == Open
      modifies this`calls
      ensures calls >= old(calls)
      ensures r.Ok? ==> calls == old(calls) + |settings.test.logSignals|
      ensures Reading(r, calls - old(calls)) == ReadRow(Server(), old(calls), settings.test.logSignals, FreshRow(t))
    {
      var signals := settings.test.logSignals;
      var row := FreshRow(t);
      ghost var start := calls;
      ghost var link := Link(stub, RpcTimeoutMs(settings), py);
      ghost var total := ReadRow(link, start, signals, FreshRow(t));
      var j := 0;
      while j < |signals|
        invariant j <= |signals| && calls == start + j
        invariant var rest := ReadRow(link, calls, signals[j..], row);
                  total == Reading(rest.row, j + rest.made)
      {
        var value := ReadSignal(signals[j]);
        ReadOneSignal(link, start, signals, j, row, value, total);
        if value.Err? {
          return Err(value.error);
        }
        row := Put(row, signals[j], value.value);
        j := j + 1;
      }
      return Ok(row);
    }

    /** The answers of this controller's server. */
    function Answers(): Poller
    {
      ServerPoller(Server(), settings.test.logSignals)
    }

    /**
      * One iteration of the `while True` loop of `wait_for_completion`: a
      * row read and appended to `collected`, then the check whether the
      * measurement still runs and the duration is not reached.
      */
    method PollOnce(maxDuration: Option<int>, ticks: seq<Tick>, collected: seq<Dict<Value>>) returns (stop: Option<Monitoring>, more: seq<Dict<Value>>)
      requires channel == Open && ticks != []
      modifies this`calls
      ensures calls >= old(calls)
      ensures var m := Monitor(Answers(), old(calls), maxDuration, ticks, collected);
              && (stop.Some? ==> m == Progress(stop.value, calls - old(calls)))
              && (stop.None? ==>
                    var rest := Monitor(Answers(), calls, maxDuration, ticks[1..], more);
                    m == Progress(rest.outcome, calls - old(calls) + rest.made))
    {
      ghost var p := Answers();
      ghost var start := calls;
      ServerAnswers(Server(), settings.test.logSignals, start, ticks[0]);
      MonitorFirst(p, start, maxDuration, ticks, collected);
      var row := ReadSignals(ticks[0]);
      assert p.read(start, ticks[0]) == Reading(row, calls - start);
      if row.Err? {
        return Some(Aborted(row.error)), collected;
      }
      more := collected + [row.value];
      var running := IsMeasurementRunning();
      assert p.running(start + p.width) == running;
      if running.Err? {
        return Some(Aborted(running.error)), more;
      }
      if !running.value || DurationReached(maxDuration, ticks[0].elapsed) {
        return Some(Finished(more)), more;
      }
      MonitorGoesOn(p, start, maxDuration, ticks, collected, row.value, calls);
      stop := None;
    }

    /**
      * `wait_for_completion(max_duration, ...)` over the clock `ticks`: one
      * row per iteration until the measurement stops or the duration is
      * reached; a failed read or call ends it with that failure.
      */
    method WaitForCompletion(maxDuration: Option<int>, ticks: seq<Tick>) returns (r: Monitoring)
      requires channel == Open
      modifies this`calls
      ensures calls >= old(calls)
      ensures Progress(r, calls - old(calls)) == Monitor(Answers(), old(calls), maxDuration, ticks, [])
    {
      var collected: seq<Dict<Value>> := [];
      var index := 0;
      while index < |ticks|
        invariant index <= |ticks| && calls >= old(calls)
        invariant var rest := Monitor(Answers(), calls, maxDuration, ticks[index..], collected);
                  Monitor(Answers(), old(calls), maxDuration, ticks, []) == Progress(rest.outcome, calls - old(calls) + rest.made)
        decreases |ticks| - index
      {
        assert ticks[index..][1..] == ticks[index + 1..];
        var stop;
        stop, collected := PollOnce(maxDuration, ticks[index..], collected);
        if stop.Some? {
          return stop.value;
        }
        index := index + 1;
      }
      r := StillPolling(collected);
    }
  }
}
