/**
  * The configuration of the automation script: the five settings records,
  * `load_configuration` (sections, defaults and the conversions applied to
  * each field, in the order the source evaluates them), the `timeout_ms`
  * fallback, the gRPC endpoint, and `apply_cli_overrides` on the config
  * object. Paths are kept as the text they were built from.
  */
module Configuration {
  import opened Common
  import opened Text
  import opened Dicts
  import opened Values
  import opened Failures
  import opened YamlParser

  const DEFAULT_TIMEOUT_MS: int := 10000
  const DEFAULT_HOST: string := "localhost"
  const DEFAULT_PORT: int := 50051
  const DEFAULT_PARALLEL_INSTANCES: int := 1
  const DEFAULT_MODE: string := "device"
  const DEFAULT_OUTPUT_DIR: string := "./results"
  const DEFAULT_LEVEL: string := "INFO"
  const DEFAULT_LOG_FILE: string := "./logs/automation.log"

  /** The five sections, in the order they are looked up. */
  const SECTIONS: seq<string> := ["grpc", "ai_core", "video", "test", "logging"]

  // ---------------------------------------------------------------------
  // Settings
  // ---------------------------------------------------------------------

  datatype GrpcSettings = GrpcSettings(host: string, port: int)

  datatype AiCoreSettings = AiCoreSettings(
    executable: string,
    configFile: string,
    timeoutMs: int,
    parallelInstances: int)

  datatype VideoSettings = VideoSettings(
    deviceName: string,
    driverId: string,
    resolution: string,
    mode: string,
    filePath: Option<string>,
    webcamIndex: Option<int>,
    loopFile: bool)

  datatype TestSettings = TestSettings(
    modelName: string,
    taExecutable: Option<string>,
    outputDir: string,
    logSignals: seq<string>)

  datatype LoggingSettings = LoggingSettings(level: string, file: string)

  datatype Settings = Settings(
    grpc: GrpcSettings,
    aiCore: AiCoreSettings,
    video: VideoSettings,
    test: TestSettings,
    logging: LoggingSettings)

  /** `GrpcSettings.endpoint`: `host:port`. */
  function Endpoint(g: GrpcSettings): string
  {
    g.host + ":" + IntToString(g.port)
  }

  /** With a host free of ':', the endpoint splits back at its first ':' into the host and the port. */
  lemma EndpointSplits(g: GrpcSettings)
    requires ':' !in g.host && g.port >= 0
    ensures var e := Endpoint(g);
            && Find(e, {':'}) == |g.host|
            && e[..|g.host|] == g.host
            && IsDigits(e[|g.host| + 1..])
            && DecimalValue(e[|g.host| + 1..]) == g.port
  {
    var e := Endpoint(g);
    assert e[..|g.host|] == g.host;
    assert e[|g.host|] == ':';
    assert forall j :: 0 <= j < |g.host| ==> e[j] == g.host[j];
    assert e[|g.host| + 1..] == NatToString(g.port);
    DecimalRoundTrip(g.port);
  }

  /** `AutomationConfig.timeout_ms`: the configured timeout, or the default when it is 0. */
  function EffectiveTimeoutMs(s: Settings): (t: int)
    ensures t != 0
    ensures s.aiCore.timeoutMs != 0 ==> t == s.aiCore.timeoutMs
    ensures s.aiCore.timeoutMs == 0 ==> t == DEFAULT_TIMEOUT_MS
  {
    if s.aiCore.timeoutMs != 0 then s.aiCore.timeoutMs else DEFAULT_TIMEOUT_MS
  }

  // ---------------------------------------------------------------------
  // Reading the fields of a section
  // ---------------------------------------------------------------------

  /** `d.get(key, default)`. */
  function GetOr(d: Dict<Value>, key: string, default: Value): (v: Value)
    ensures Get(d, key).None? ==> v == default
    ensures Get(d, key).Some? ==> v == Get(d, key).value
  {
    match Get(d, key)
    case Some(v) => v
    case None => default
  }

  /** `int(v)`, its failure as the exception that leaves `load_configuration`. */
  function IntField(v: Value, py: Builtins): (r: Result<int, Failure>)
    ensures v.Int? ==> r == Ok(v.i)
    ensures r.Err? ==> r.error.Uncaught?
  {
    match PyInt(v, py)
    case Ok(i) => Ok(i)
    case Err(e) => Err(Uncaught(e))
  }

  /** `cfg.get(...)` on a section that is not a dict raises AttributeError. */
  const NotADict: Failure := Uncaught(AttributeError)

  /** `[str(x) for x in v]`: a list gives its items, a string its characters, a dict its keys. */
  function StrEach(v: Value, py: Builtins): (r: Result<seq<string>, Failure>)
    ensures v.List? ==> r.Ok? && |r.value| == |v.items| &&
                        forall i :: 0 <= i < |v.items| ==> r.value[i] == PyStr(v.items[i], py)
    ensures v.Map? ==> r == Ok(Keys(v.entries))
    ensures v.Str? ==> r.Ok? && |r.value| == |v.s| && forall i :: 0 <= i < |v.s| ==> r.value[i] == [v.s[i]]
    ensures r.Err? <==> IsScalar(v) && !v.Str?
  {
    match v
    case List(items) => Ok(StrItems(items, py))
    case Map(entries) => Ok(Keys(entries))
    case Str(s) => Ok(Chars(s))
    case _ => Err(Uncaught(TypeError))
  }

  function StrItems(items: seq<Value>, py: Builtins): (r: seq<string>)
    ensures |r| == |items|
    ensures forall i :: 0 <= i < |items| ==> r[i] == PyStr(items[i], py)
  {
    if items == [] then [] else [PyStr(items[0], py)] + StrItems(items[1..], py)
  }

  function Chars(s: string): (r: seq<string>)
    ensures |r| == |s|
    ensures forall i :: 0 <= i < |s| ==> r[i] == [s[i]]
  {
    if s == [] then [] else [[s[0]]] + Chars(s[1..])
  }

  // ---------------------------------------------------------------------
  // The sections
  // ---------------------------------------------------------------------

  /** The `grpc` section: host defaults to localhost and is passed to `str`, port defaults to 50051 and is passed to `int`. */
  function GrpcFrom(cfg: Value, py: Builtins): (r: Result<GrpcSettings, Failure>)
    ensures !cfg.Map? ==> r == Err(NotADict)
    ensures cfg.Map? && Get(cfg.entries, "port").None? ==> r.Ok? && r.value.port == DEFAULT_PORT
    ensures r.Ok? && Get(cfg.entries, "host").None? ==> r.value.host == DEFAULT_HOST
    ensures r.Ok? ==> forall h :: Get(cfg.entries, "host") == Some(Str(h)) ==> r.value.host == h
    ensures cfg.Map? ==> forall p :: Get(cfg.entries, "port") == Some(Int(p)) ==> r.Ok? && r.value.port == p
    ensures cfg == Map([]) ==> r == Ok(GrpcSettings(DEFAULT_HOST, DEFAULT_PORT))
  {
    if !cfg.Map? then Err(NotADict)
    else
      var d := cfg.entries;
      var host := PyStr(GetOr(d, "host", Str(DEFAULT_HOST)), py);
      match IntField(GetOr(d, "port", Int(DEFAULT_PORT)), py)
      case Err(e) => Err(e)
      case Ok(port) => Ok(GrpcSettings(host, port))
  }

  /** The `ai_core` section: paths default to "", the timeout to 10000 ms and the instance count to 1. */
  function AiCoreFrom(cfg: Value, py: Builtins): (r: Result<AiCoreSettings, Failure>)
    ensures !cfg.Map? ==> r == Err(NotADict)
    ensures r.Ok? && Get(cfg.entries, "timeout_ms").None? ==> r.value.timeoutMs == DEFAULT_TIMEOUT_MS
    ensures r.Ok? && Get(cfg.entries, "parallel_instances").None? ==> r.value.parallelInstances == DEFAULT_PARALLEL_INSTANCES
    ensures r.Ok? && Get(cfg.entries, "executable").None? ==> r.value.executable == ""
    ensures r.Ok? && Get(cfg.entries, "config_file").None? ==> r.value.configFile == ""
    ensures r.Ok? ==> forall e :: Get(cfg.entries, "executable") == Some(Str(e)) ==> r.value.executable == e
    ensures r.Ok? ==> forall c :: Get(cfg.entries, "config_file") == Some(Str(c)) ==> r.value.configFile == c
    ensures r.Ok? ==> forall t :: Get(cfg.entries, "timeout_ms") == Some(Int(t)) ==> r.value.timeoutMs == t
    ensures r.Ok? ==> forall p :: Get(cfg.entries, "parallel_instances") == Some(Int(p)) ==> r.value.parallelInstances == p
    ensures cfg.Map? && (forall k :: k in ["timeout_ms", "parallel_instances"] ==> Get(cfg.entries, k).None? || Get(cfg.entries, k).value.Int?)
            ==> r.Ok?
    ensures cfg == Map([]) ==> r == Ok(AiCoreSettings("", "", DEFAULT_TIMEOUT_MS, DEFAULT_PARALLEL_INSTANCES))
  {
    if !cfg.Map? then Err(NotADict)
    else
      var d := cfg.entries;
      var executable := PyStr(GetOr(d, "executable", Str("")), py);
      var configFile := PyStr(GetOr(d, "config_file", Str("")), py);
      match IntField(GetOr(d, "timeout_ms", Int(DEFAULT_TIMEOUT_MS)), py)
      case Err(e) => Err(e)
      case Ok(timeoutMs) =>
        match IntField(GetOr(d, "parallel_instances", Int(DEFAULT_PARALLEL_INSTANCES)), py)
        case Err(e) => Err(e)
        case Ok(instances) => Ok(AiCoreSettings(executable, configFile, timeoutMs, instances))
  }

  /**
    * `webcam_index` as the source reads it: absent, "" and [] mean no index;
    * anything else goes through `int()`.
    */
  function WebcamIndexAsWritten(v: Option<Value>, py: Builtins): (r: Result<Option<int>, Failure>)
    ensures r == Ok(None) <==> v.None? || v == Some(Str("")) || v == Some(List([]))
    ensures forall n :: v == Some(Int(n)) ==> r == Ok(Some(n))
  {
    if v.None? || v == Some(Str("")) || v == Some(List([])) then Ok(None)
    else match IntField(v.value, py)
      case Err(e) => Err(e)
      case Ok(i) => Ok(Some(i))
  }

  /** A `webcam_index:` line with nothing under it reads as an empty dict, which `int()` rejects. */
  lemma EmptyWebcamEntryRaises(py: Builtins)
    ensures WebcamIndexAsWritten(Some(Map([])), py) == Err(Uncaught(TypeError))
  {
  }

  /** `webcam_index` with an empty entry also meaning no index, as the "" and [] cases intend. */
  function WebcamIndex(v: Option<Value>, py: Builtins): (r: Result<Option<int>, Failure>)
    ensures r == Ok(None) <==> v.None? || v == Some(Str("")) || v == Some(List([])) || v == Some(Map([]))
    ensures forall n :: v == Some(Int(n)) ==> r == Ok(Some(n))
    ensures v != Some(Map([])) ==> r == WebcamIndexAsWritten(v, py)
  {
    if v == Some(Map([])) then Ok(None) else WebcamIndexAsWritten(v, py)
  }

  /** `str(video_cfg.get("mode", "device")).lower()`. */
  function ModeFrom(d: Dict<Value>, py: Builtins): (m: string)
    ensures Lower(m) == m
    ensures Get(d, "mode").None? ==> m == DEFAULT_MODE
    ensures forall t :: Get(d, "mode") == Some(Str(t)) ==> m == Lower(t)
  {
    var given := PyStr(GetOr(d, "mode", Str(DEFAULT_MODE)), py);
    LowerIdempotent(given);
    Lower(given)
  }

  /** `file_path`, as text, only when present and truthy. */
  function FilePathFrom(d: Dict<Value>, py: Builtins): (p: Option<string>)
    ensures p.Some? <==> Get(d, "file_path").Some? && Truthy(Get(d, "file_path").value, py)
    ensures p.Some? ==> p.value == PyStr(Get(d, "file_path").value, py)
    ensures forall t :: Get(d, "file_path") == Some(Str(t)) && t != "" ==> p == Some(t)
  {
    var v := Get(d, "file_path");
    if v.Some? && Truthy(v.value, py) then Some(PyStr(v.value, py)) else None
  }

  /** `bool(video_cfg.get("loop_file", False))`. */
  function LoopFileFrom(d: Dict<Value>, py: Builtins): (b: bool)
    ensures b <==> Get(d, "loop_file").Some? && Truthy(Get(d, "loop_file").value, py)
  {
    Truthy(GetOr(d, "loop_file", Bool(false)), py)
  }

  /**
    * The `video` section: the mode defaults to "device" and is lower-cased, a
    * file path is kept only when truthy, the loop flag goes through `bool`.
    */
  function VideoFrom(cfg: Value, py: Builtins): (r: Result<VideoSettings, Failure>)
    ensures !cfg.Map? ==> r == Err(NotADict)
    ensures r.Ok? ==> Lower(r.value.mode) == r.value.mode
    ensures r.Ok? && Get(cfg.entries, "mode").None? ==> r.value.mode == DEFAULT_MODE
    ensures r.Ok? ==> (r.value.filePath.Some? <==> Get(cfg.entries, "file_path").Some? && Truthy(Get(cfg.entries, "file_path").value, py))
    ensures r.Ok? ==> (r.value.webcamIndex.None? <==> WebcamIndex(Get(cfg.entries, "webcam_index"), py) == Ok(None))
    ensures r.Ok? ==> (r.value.loopFile <==> Get(cfg.entries, "loop_file").Some? && Truthy(Get(cfg.entries, "loop_file").value, py))
    ensures cfg.Map? ==> (r.Err? <==> WebcamIndex(Get(cfg.entries, "webcam_index"), py).Err?)
    ensures r.Ok? ==> && r.value.mode == ModeFrom(cfg.entries, py)
                      && r.value.filePath == FilePathFrom(cfg.entries, py)
                      && Ok(r.value.webcamIndex) == WebcamIndex(Get(cfg.entries, "webcam_index"), py)
    ensures r.Ok? ==> forall x :: Get(cfg.entries, "device_name") == Some(Str(x)) ==> r.value.deviceName == x
    ensures r.Ok? ==> forall x :: Get(cfg.entries, "driver_id") == Some(Str(x)) ==> r.value.driverId == x
    ensures r.Ok? ==> forall x :: Get(cfg.entries, "resolution") == Some(Str(x)) ==> r.value.resolution == x
    ensures cfg == Map([]) ==> r == Ok(VideoSettings("", "", "", DEFAULT_MODE, None, None, false))
  {
    if !cfg.Map? then Err(NotADict)
    else
      var d := cfg.entries;
      var mode := ModeFrom(d, py);
      var filePath := FilePathFrom(d, py);
      match WebcamIndex(Get(d, "webcam_index"), py)
      case Err(e) => Err(e)
      case Ok(webcamIndex) =>
        Ok(VideoSettings(
          PyStr(GetOr(d, "device_name", Str("")), py),
          PyStr(GetOr(d, "driver_id", Str("")), py),
          PyStr(GetOr(d, "resolution", Str("")), py),
          mode, filePath, webcamIndex, LoopFileFrom(d, py)))
  }

  /**
    * `Path(test_cfg["ta_executable"])` when the key is present and truthy:
    * anything but a string makes `Path` raise TypeError.
    */
  function TaExecutable(d: Dict<Value>, py: Builtins): (r: Result<Option<string>, Failure>)
    ensures r == Ok(None) <==> Get(d, "ta_executable").None? || !Truthy(Get(d, "ta_executable").value, py)
    ensures forall p :: Get(d, "ta_executable") == Some(Str(p)) && p != "" ==> r == Ok(Some(p))
  {
    match Get(d, "ta_executable")
    case None => Ok(None)
    case Some(v) =>
      if !Truthy(v, py) then Ok(None)
      else if v.Str? then Ok(Some(v.s))
      else Err(Uncaught(TypeError))
  }

  /** The `test` section: the output directory defaults to ./results and the signals to none. */
  function TestFrom(cfg: Value, py: Builtins): (r: Result<TestSettings, Failure>)
    ensures !cfg.Map? ==> r == Err(NotADict)
    ensures r.Ok? && Get(cfg.entries, "output_dir").None? ==> r.value.outputDir == DEFAULT_OUTPUT_DIR
    ensures r.Ok? && Get(cfg.entries, "log_signals").None? ==> r.value.logSignals == []
    ensures r.Ok? ==> forall items :: Get(cfg.entries, "log_signals") == Some(List(items)) ==>
                        |r.value.logSignals| == |items| &&
                        forall i :: 0 <= i < |items| ==> r.value.logSignals[i] == PyStr(items[i], py)
    ensures r.Ok? ==> TaExecutable(cfg.entries, py) == Ok(r.value.taExecutable)
    ensures r.Ok? ==> forall x :: Get(cfg.entries, "model_name") == Some(Str(x)) ==> r.value.modelName == x
    ensures r.Ok? ==> forall x :: Get(cfg.entries, "output_dir") == Some(Str(x)) ==> r.value.outputDir == x
    ensures cfg == Map([]) ==> r == Ok(TestSettings("", None, DEFAULT_OUTPUT_DIR, []))
  {
    if !cfg.Map? then Err(NotADict)
    else
      var d := cfg.entries;
      var modelName := PyStr(GetOr(d, "model_name", Str("")), py);
      match TaExecutable(d, py)
      case Err(e) => Err(e)
      case Ok(taExecutable) =>
        var outputDir := PyStr(GetOr(d, "output_dir", Str(DEFAULT_OUTPUT_DIR)), py);
        match StrEach(GetOr(d, "log_signals", List([])), py)
        case Err(e) => Err(e)
        case Ok(signals) => Ok(TestSettings(modelName, taExecutable, outputDir, signals))
  }

  /** The `logging` section: level INFO and file ./logs/automation.log by default. */
  function LoggingFrom(cfg: Value, py: Builtins): (r: Result<LoggingSettings, Failure>)
    ensures !cfg.Map? ==> r == Err(NotADict)
    ensures cfg.Map? ==> r.Ok?
    ensures r.Ok? && Get(cfg.entries, "level").None? ==> r.value.level == DEFAULT_LEVEL
    ensures r.Ok? && Get(cfg.entries, "file").None? ==> r.value.file == DEFAULT_LOG_FILE
    ensures cfg == Map([]) ==> r == Ok(LoggingSettings(DEFAULT_LEVEL, DEFAULT_LOG_FILE))
  {
    if !cfg.Map? then Err(NotADict)
    else
      var d := cfg.entries;
      Ok(LoggingSettings(PyStr(GetOr(d, "level", Str(DEFAULT_LEVEL)), py), PyStr(GetOr(d, "file", Str(DEFAULT_LOG_FILE)), py)))
  }

  // ---------------------------------------------------------------------
  // load_configuration
  // ---------------------------------------------------------------------

  /** The position of the first of `names` that `root` lacks; `|names|` when it has them all. */
  function FirstMissing(root: Dict<Value>, names: seq<string>): (i: nat)
    ensures i <= |names|
    ensures i < |names| ==> Get(root, names[i]).None?
    ensures forall j :: 0 <= j < i ==> Get(root, names[j]).Some?
  {
    if names == [] then 0
    else if Get(root, names[0]).None? then 0
    else 1 + FirstMissing(root, names[1..])
  }

  /** The settings built from a root with all five sections, in the order the source evaluates them. */
  function Build(root: Dict<Value>, py: Builtins): (r: Result<Settings, Failure>)
    requires forall i :: 0 <= i < |SECTIONS| ==> Get(root, SECTIONS[i]).Some?
  {
    assert Get(root, SECTIONS[0]).Some? && Get(root, SECTIONS[1]).Some? && Get(root, SECTIONS[2]).Some?;
    assert Get(root, SECTIONS[3]).Some? && Get(root, SECTIONS[4]).Some?;
    match GrpcFrom(Get(root, "grpc").value, py)
    case Err(e) => Err(e)
    case Ok(grpc) =>
      match AiCoreFrom(Get(root, "ai_core").value, py)
      case Err(e) => Err(e)
      case Ok(aiCore) =>
        match VideoFrom(Get(root, "video").value, py)
        case Err(e) => Err(e)
        case Ok(video) =>
          match TestFrom(Get(root, "test").value, py)
          case Err(e) => Err(e)
          case Ok(test) =>
            match LoggingFrom(Get(root, "logging").value, py)
            case Err(e) => Err(e)
            case Ok(logging) => Ok(Settings(grpc, aiCore, video, test, logging))
  }

  /**
    * `load_configuration(path)`, given whether the file exists and its
    * lines: a missing file, a rejected line or a missing section is a
    * ConfigurationError; a malformed value raises what the built-in raises.
    */
  function LoadConfiguration(present: bool, path: string, lines: seq<string>, py: Builtins): (r: Result<Settings, Failure>)
    ensures r.Ok? ==> present && ParseYaml(lines).Ok?
    ensures r.Ok? ==> forall i :: 0 <= i < |SECTIONS| ==> Get(ParseYaml(lines).value.entries, SECTIONS[i]).Some?
  {
    if !present then Err(ConfigurationError(ConfigFileNotFound(path)))
    else match ParseYaml(lines)
      case Err(e) => Err(ConfigurationError(ToConfigError(lines, e)))
      case Ok(root) =>
        var missing := FirstMissing(root.entries, SECTIONS);
        if missing < |SECTIONS| then Err(ConfigurationError(MissingSection(SECTIONS[missing])))
        else Build(root.entries, py)
  }

  /** The settings of a file whose five sections are present but set nothing. */
  const Defaults: Settings := Settings(
    GrpcSettings(DEFAULT_HOST, DEFAULT_PORT),
    AiCoreSettings("", "", DEFAULT_TIMEOUT_MS, DEFAULT_PARALLEL_INSTANCES),
    VideoSettings("", "", "", DEFAULT_MODE, None, None, false),
    TestSettings("", None, DEFAULT_OUTPUT_DIR, []),
    LoggingSettings(DEFAULT_LEVEL, DEFAULT_LOG_FILE))

  /** Each failure of `load_configuration` before any field is read, and the section it names. */
  lemma LoadConfigurationFailures(present: bool, path: string, lines: seq<string>, py: Builtins)
    ensures !present ==> LoadConfiguration(present, path, lines, py) == Err(ConfigurationError(ConfigFileNotFound(path)))
    ensures present && ParseYaml(lines).Err? ==>
              LoadConfiguration(present, path, lines, py) == Err(ConfigurationError(ToConfigError(lines, ParseYaml(lines).error)))
    ensures present && ParseYaml(lines).Ok? ==>
              forall i :: 0 <= i < |SECTIONS| && Get(ParseYaml(lines).value.entries, SECTIONS[i]).None? &&
                          (forall j :: 0 <= j < i ==> Get(ParseYaml(lines).value.entries, SECTIONS[j]).Some?) ==>
                LoadConfiguration(present, path, lines, py) == Err(ConfigurationError(MissingSection(SECTIONS[i])))
  {
    if present && ParseYaml(lines).Ok? {
      var root := ParseYaml(lines).value.entries;
      forall i | 0 <= i < |SECTIONS| && Get(root, SECTIONS[i]).None? && (forall j :: 0 <= j < i ==> Get(root, SECTIONS[j]).Some?)
        ensures LoadConfiguration(present, path, lines, py) == Err(ConfigurationError(MissingSection(SECTIONS[i])))
      {
        var k := FirstMissing(root, SECTIONS);
        assert k == i;
      }
    }
  }

  /** Five empty sections give the documented defaults. */
  lemma EmptySectionsGiveDefaults(root: Dict<Value>, py: Builtins)
    requires forall i :: 0 <= i < |SECTIONS| ==> Get(root, SECTIONS[i]) == Some(Map([]))
    ensures Build(root, py) == Ok(Defaults)
  {
    assert Get(root, SECTIONS[0]) == Some(Map([])) && Get(root, SECTIONS[1]) == Some(Map([]));
    assert Get(root, SECTIONS[2]) == Some(Map([])) && Get(root, SECTIONS[3]) == Some(Map([]));
    assert Get(root, SECTIONS[4]) == Some(Map([]));
  }

  // ---------------------------------------------------------------------
  // Command-line overrides
  // ---------------------------------------------------------------------

  /** The override options of the command line, as argparse leaves them: None when not given. */
  datatype CliArgs = CliArgs(
    grpcHost: Option<string>,
    grpcPort: Option<int>,
    model: Option<string>,
    videoSource: Option<string>,
    videoDriver: Option<string>,
    resolution: Option<string>,
    videoMode: Option<string>,
    videoFile: Option<string>,
    webcamIndex: Option<int>,
    loopVideo: Option<bool>,
    timeout: Option<int>,
    aiCoreConfig: Option<string>,
    aiCoreExecutable: Option<string>,
    outputDir: Option<string>,
    taExecutable: Option<string>,
    logSignal: Option<seq<string>>,
    logLevel: Option<string>)

  const NoArgs: CliArgs := CliArgs(None, None, None, None, None, None, None, None, None, None, None, None, None, None, None, None, None)

  /** `if args.x:` on text: given and not empty. */
  predicate GivenText(o: Option<string>)
  {
    o.Some? && o.value != ""
  }

  /** `if args.x:` on a number: given and not 0. */
  predicate GivenNumber(o: Option<int>)
  {
    o.Some? && o.value != 0
  }

  /** The text `o` carries when given, `current` otherwise. */
  function TextOr(o: Option<string>, current: string): (r: string)
    ensures GivenText(o) ==> r == o.value
    ensures !GivenText(o) ==> r == current
  {
    if GivenText(o) then o.value else current
  }

  function NumberOr(o: Option<int>, current: int): (r: int)
    ensures GivenNumber(o) ==> r == o.value
    ensures !GivenNumber(o) ==> r == current
  {
    if GivenNumber(o) then o.value else current
  }

  function PathOr(o: Option<string>, current: Option<string>): (r: Option<string>)
    ensures GivenText(o) ==> r == o
    ensures !GivenText(o) ==> r == current
  {
    if GivenText(o) then o else current
  }

  /** `--video-mode`, lower-cased, when given and not empty. */
  function ModeOr(o: Option<string>, current: string): (r: string)
    ensures GivenText(o) ==> r == Lower(o.value)
    ensures !GivenText(o) ==> r == current
  {
    if GivenText(o) then Lower(o.value) else current
  }

  /** `--webcam-index` replaces the index whenever it is given, 0 included. */
  function IndexOr(o: Option<int>, current: Option<int>): (r: Option<int>)
    ensures o.Some? ==> r == o
    ensures o.None? ==> r == current
  {
    if o.Some? then o else current
  }

  /** The loop flag replaces the configured one whenever it is given, false included. */
  function FlagOr(o: Option<bool>, current: bool): (r: bool)
    ensures o.Some? ==> r == o.value
    ensures o.None? ==> r == current
  {
    if o.Some? then o.value else current
  }

  /** `--log-signal` replaces the signals when it named at least one. */
  function SignalsOr(o: Option<seq<string>>, current: seq<string>): (r: seq<string>)
    ensures o.Some? && o.value != [] ==> r == o.value
    ensures o.None? || o.value == [] ==> r == current
  {
    if o.Some? && o.value != [] then o.value else current
  }

  /**
    * The settings after `apply_cli_overrides`: a text or number option
    * replaces its field when truthy, `--webcam-index` and the loop flag when
    * given at all, `--log-signal` when it named at least one signal; the
    * video mode is lower-cased.
    */
  function Overridden(s: Settings, a: CliArgs): (r: Settings)
    ensures r.aiCore.parallelInstances == s.aiCore.parallelInstances
    ensures r.logging.file == s.logging.file
    ensures Lower(s.video.mode) == s.video.mode ==> Lower(r.video.mode) == r.video.mode
  {
    LowerIdempotent(if GivenText(a.videoMode) then a.videoMode.value else "");
    Settings(
      GrpcSettings(TextOr(a.grpcHost, s.grpc.host), NumberOr(a.grpcPort, s.grpc.port)),
      AiCoreSettings(
        TextOr(a.aiCoreExecutable, s.aiCore.executable),
        TextOr(a.aiCoreConfig, s.aiCore.configFile),
        NumberOr(a.timeout, s.aiCore.timeoutMs),
        s.aiCore.parallelInstances),
      VideoSettings(
        TextOr(a.videoSource, s.video.deviceName),
        TextOr(a.videoDriver, s.video.driverId),
        TextOr(a.resolution, s.video.resolution),
        ModeOr(a.videoMode, s.video.mode),
        PathOr(a.videoFile, s.video.filePath),
        IndexOr(a.webcamIndex, s.video.webcamIndex),
        FlagOr(a.loopVideo, s.video.loopFile)),
      TestSettings(
        TextOr(a.model, s.test.modelName),
        PathOr(a.taExecutable, s.test.taExecutable),
        TextOr(a.outputDir, s.test.outputDir),
        SignalsOr(a.logSignal, s.test.logSignals)),
      LoggingSettings(TextOr(a.logLevel, s.logging.level), s.logging.file))
  }

  /** With no option given, nothing changes. */
  lemma NoOverridesChangeNothing(s: Settings)
    ensures Overridden(s, NoArgs) == s
  {
  }

  /** Applying the same options twice is applying them once. */
  lemma OverridesIdempotent(s: Settings, a: CliArgs)
    ensures Overridden(Overridden(s, a), a) == Overridden(s, a)
  {
    if GivenText(a.videoMode) {
      LowerIdempotent(a.videoMode.value);
    }
  }

  /** The configuration object: five sections whose fields the overrides assign in place. */
  class AutomationConfig {
    var grpc: GrpcSettings
    var aiCore: AiCoreSettings
    var video: VideoSettings
    var test: TestSettings
    var logging: LoggingSettings

    constructor (s: Settings)
      ensures Current() == s
    {
      grpc := s.grpc;
      aiCore := s.aiCore;
      video := s.video;
      test := s.test;
      logging := s.logging;
    }

    /** The five sections as they are now. */
    function Current(): Settings
      reads this
    {
      Settings(grpc, aiCore, video, test, logging)
    }

    /**
      * `apply_cli_overrides(config, args)`, one field at a time. The sections
      * are updated in local copies and stored back together.
      */
    method ApplyCliOverrides(args: CliArgs)
      modifies this
      ensures Current() == Overridden(old(Current()), args)
    {
      grpc := grpc.(host := TextOr(args.grpcHost, grpc.host));
      grpc := grpc.(port := NumberOr(args.grpcPort, grpc.port));
      test := test.(modelName := TextOr(args.model, test.modelName));
      video := video.(deviceName := TextOr(args.videoSource, video.deviceName));
      video := video.(driverId := TextOr(args.videoDriver, video.driverId));
      video := video.(resolution := TextOr(args.resolution, video.resolution));
      video := video.(mode := ModeOr(args.videoMode, video.mode));
      video := video.(filePath := PathOr(args.videoFile, video.filePath));
      video := video.(webcamIndex := IndexOr(args.webcamIndex, video.webcamIndex));
      video := video.(loopFile := FlagOr(args.loopVideo, video.loopFile));
      aiCore := aiCore.(timeoutMs := NumberOr(args.timeout, aiCore.timeoutMs));
      aiCore := aiCore.(configFile := TextOr(args.aiCoreConfig, aiCore.configFile));
      aiCore := aiCore.(executable := TextOr(args.aiCoreExecutable, aiCore.executable));
      test := test.(outputDir := TextOr(args.outputDir, test.outputDir));
      test := test.(taExecutable := PathOr(args.taExecutable, test.taExecutable));
      test := test.(logSignals := SignalsOr(args.logSignal, test.logSignals));
      logging := logging.(level := TextOr(args.logLevel, logging.level));
    }
  }
}
