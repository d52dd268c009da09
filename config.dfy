/** Application configuration loading of internal/config: the app-mode
    normalisation, the mode to file table, the tolerance of read errors and
    the final validation with its list of failed keys. File contents, the
    parser and the validator are given to the model as values. */
module Config {
  import opened Wrappers
  import opened Tags
  import DsSet

  // Application modes (internal/config/const.go).
  const LocalMode := "LOCAL"
  const TestMode := "TEST"
  const StageMode := "STAGE"
  const ProdMode := "PRODUCTION"

  const BaseCfgFilename := "base.yaml"
  const EnvFilename := ".env"

  /** `cfgFileMapper`: the mode-specific file of each mode; TEST has none. */
  const CfgFileMapper: map<string, string> :=
    map[LocalMode := "local.yaml", StageMode := "stage.yaml", ProdMode := "prod.yaml"]

  /** The set `availableModes` holds, as a value. */
  const AvailableModes: set<string> := {LocalMode, TestMode, StageMode, ProdMode}

  /** A loaded configuration: setting values by key; the app mode is under
      the key of its env tag. */
  type Settings = map<string, string>
  const AppModeKey := "APP_MODE"

  function AppMode(cfg: Settings): string
  {
    if AppModeKey in cfg then cfg[AppModeKey] else ""
  }

  /** Mode normalisation: an unknown mode, the empty one included, becomes
      PRODUCTION; the four known modes are kept. */
  function NormalizeMode(mode: string): (r: string)
    ensures r in AvailableModes
    ensures mode in AvailableModes ==> r == mode
    ensures mode !in AvailableModes ==> r == ProdMode
  {
    if mode in AvailableModes then mode else ProdMode
  }

  /** Normalising twice changes nothing. */
  lemma NormalizeModeIdempotent(mode: string)
    ensures NormalizeMode(NormalizeMode(mode)) == NormalizeMode(mode)
  {
  }

  /** The file read for a (normalised) mode; TEST reads none. */
  function ModeFile(mode: string): (r: Option<string>)
    ensures mode == LocalMode ==> r == Some("local.yaml")
    ensures mode == StageMode ==> r == Some("stage.yaml")
    ensures mode == ProdMode ==> r == Some("prod.yaml")
    ensures mode == TestMode ==> r == None
  {
    if mode in CfgFileMapper then Some(CfgFileMapper[mode]) else None
  }

  /** `isEOFerr`: the error's text ends with "EOF". */
  predicate IsEOFErr(msg: string)
  {
    |msg| >= 3 && msg[|msg| - 3..] == "EOF"
  }

  /** Exactly the messages that end with "EOF" qualify, whatever precedes
      the suffix. */
  lemma IsEOFErrSuffix(prefix: string, msg: string)
    ensures IsEOFErr(prefix + "EOF")
    ensures IsEOFErr(msg) <==> |msg| >= 3 && msg == msg[..|msg| - 3] + "EOF"
  {
    assert (prefix + "EOF")[|prefix|..] == "EOF";
    if |msg| >= 3 {
      assert msg == msg[..|msg| - 3] + msg[|msg| - 3..];
    }
  }

  lemma IsEOFErrExamples()
    ensures IsEOFErr("EOF") && IsEOFErr("unexpected EOF")
    ensures !IsEOFErr("EOF reached") && !IsEOFErr("")
  {
    assert "EOF reached"[8..] == "hed";
  }

  /** What `v.Struct(c)` reports: no error, a list of failed fields (as the
      library lists them), or an error of another kind. */
  datatype StructCheck = Passed | ValidationErrors(fields: seq<StructField>) | OtherError(msg: string)

  /** `ErrInvalidConfig` wrapped with the failed keys. */
  datatype ConfigError = InvalidConfig(failedKeys: seq<string>)

  /** The names the registered tag-name function gives to failed fields. */
  function FailedKeys(fields: seq<StructField>): (keys: seq<string>)
    ensures |keys| == |fields|
  {
    if fields == [] then [] else [GetTagName(fields[0])] + FailedKeys(fields[1..])
  }

  /** Each failed field is named by `getTagName`, in the order listed. */
  lemma {:induction false} FailedKeysNames(fields: seq<StructField>)
    ensures forall i :: 0 <= i < |fields| ==> FailedKeys(fields)[i] == GetTagName(fields[i])
  {
    if fields != [] {
      FailedKeysNames(fields[1..]);
    }
  }

  /** `Config.validate`: collects the name of every failed field, in order,
      and fails exactly when there is at least one. An error that is not a
      list of validation errors is not reported. */
  method Validate(check: StructCheck) returns (r: Option<ConfigError>)
    ensures r.None? <==> !check.ValidationErrors? || check.fields == []
    ensures r.Some? ==> r.value.failedKeys == FailedKeys(check.fields)
  {
    var failedKeys: seq<string> := [];
    if check.ValidationErrors? {
      var errs := check.fields;
      var i := 0;
      while i < |errs|
        invariant 0 <= i <= |errs|
        invariant failedKeys == FailedKeys(errs[..i])
      {
        assert errs[..i + 1] == errs[..i] + [errs[i]];
        FailedKeysAppend(errs[..i], errs[i]);
        failedKeys := failedKeys + [GetTagName(errs[i])];
        i := i + 1;
      }
      assert errs[..i] == errs;
    }
    if |failedKeys| > 0 {
      return Some(InvalidConfig(failedKeys));
    }
    return None;
  }

  lemma {:induction false} FailedKeysAppend(fields: seq<StructField>, f: StructField)
    ensures FailedKeys(fields + [f]) == FailedKeys(fields) + [GetTagName(f)]
  {
    if fields != [] {
      assert (fields + [f])[1..] == fields[1..] + [f];
      FailedKeysAppend(fields[1..], f);
    }
  }

  /** The outcome of `cleanenv.ReadConfig` on one path: the settings it
      applies, or a failure (a missing file is told apart, as
      `os.IsNotExist` does). */
  datatype ReadOutcome = Loaded(values: Settings) | Missing(msg: string) | Failed(msg: string)

  /** The file system as the loader sees it: the outcome of reading each
      path; a path not listed is missing. */
  type Files = map<string, ReadOutcome>

  function ReadFile(files: Files, path: string): ReadOutcome
  {
    if path in files then files[path] else Missing("open " + path + ": no such file or directory")
  }

  datatype LoadError =
    | WorkDirFailed(msg: string)
    | ReadFailed(file: string, msg: string)
    | Invalid(err: ConfigError)

  /** A read error is tolerated when the file is absent (.env only) or when
      its text ends with EOF (base and mode files). */
  predicate EnvTolerated(o: ReadOutcome) { o.Missing? }
  predicate YamlTolerated(o: ReadOutcome) { !o.Loaded? && IsEOFErr(o.msg) }

  function Apply(cfg: Settings, o: ReadOutcome): Settings
  {
    if o.Loaded? then cfg + o.values else cfg
  }

  /** The paths `Load` reads, below the working directory. */
  function EnvPath(workDir: string): string { workDir + "/" + EnvFilename }
  function ConfigPath(workDir: string, file: string): string { workDir + "/configs/" + file }

  /** Distinct file names give distinct paths. */
  lemma ConfigPathInjective(workDir: string, a: string, b: string)
    requires a != b
    ensures ConfigPath(workDir, a) != ConfigPath(workDir, b)
  {
    var pre := workDir + "/configs/";
    assert ConfigPath(workDir, a) == pre + a && ConfigPath(workDir, b) == pre + b;
    if |a| == |b| {
      var k :| 0 <= k < |a| && a[k] != b[k];
      assert (pre + a)[|pre| + k] != (pre + b)[|pre| + k];
    }
  }

  /** The mode normalisation `Load` applies to the configuration: an
      unavailable mode is replaced by PRODUCTION, anything else is kept. */
  function Normalized(cfg: Settings): (r: Settings)
    ensures AppMode(r) == NormalizeMode(AppMode(cfg))
    ensures forall k :: k != AppModeKey ==> (k in r <==> k in cfg)
  {
    if AppMode(cfg) in AvailableModes then cfg else cfg[AppModeKey := ProdMode]
  }

  /** Specification of `Load`: .env, then base.yaml, then the mode file of
      the normalised mode, then validation. Each stage is a function of what
      the earlier ones built. */
  function LoadSpec(workDir: Result<string, string>, files: Files, check: Settings -> StructCheck)
    : (r: Result<Settings, LoadError>)
    ensures workDir.Err? <==> r.Err? && r.error.WorkDirFailed?
    ensures r.Err? && r.error.ReadFailed? ==>
      r.error.file in {EnvFilename, BaseCfgFilename, "local.yaml", "stage.yaml", "prod.yaml"}
    ensures r.Err? && r.error.Invalid? ==> r.error.err.failedKeys != []
    ensures r.Ok? ==> AppModeKey in r.value
  {
    if workDir.Err? then Err(WorkDirFailed(workDir.error)) else
    var env := ReadFile(files, EnvPath(workDir.value));
    if !env.Loaded? && !EnvTolerated(env) then Err(ReadFailed(EnvFilename, env.msg))
    else LoadBase(workDir.value, files, Apply(map[], env), check)
  }

  /** The stages after .env: base.yaml, then the mode normalisation. */
  function LoadBase(wd: string, files: Files, cfg: Settings, check: Settings -> StructCheck)
    : Result<Settings, LoadError>
  {
    var base := ReadFile(files, ConfigPath(wd, BaseCfgFilename));
    if !base.Loaded? && !YamlTolerated(base) then Err(ReadFailed(BaseCfgFilename, base.msg))
    else LoadMode(wd, files, Normalized(Apply(cfg, base)), check)
  }

  /** The stages after normalisation: the mode's file when it has one. */
  function LoadMode(wd: string, files: Files, cfg: Settings, check: Settings -> StructCheck)
    : Result<Settings, LoadError>
  {
    var modeFile := ModeFile(AppMode(cfg));
    if modeFile.None? then Finish(cfg, check) else
    var modeRead := ReadFile(files, ConfigPath(wd, modeFile.value));
    if !modeRead.Loaded? && !YamlTolerated(modeRead) then Err(ReadFailed(modeFile.value, modeRead.msg))
    else Finish(Apply(cfg, modeRead), check)
  }

  /** The last stage: validation. */
  function Finish(cfg: Settings, check: Settings -> StructCheck): Result<Settings, LoadError>
  {
    var c := check(cfg);
    if c.ValidationErrors? && c.fields != [] then Err(Invalid(InvalidConfig(FailedKeys(c.fields)))) else Ok(cfg)
  }

  /** `availableModes`: the set of the four modes. */
  method AvailableModesSet() returns (s: DsSet.Set<string>)
    ensures fresh(s) && s.elems == AvailableModes
  {
    s := DsSet.Set.NewSet([LocalMode, TestMode, StageMode, ProdMode]);
    assert forall m :: m in s.elems <==> m in [LocalMode, TestMode, StageMode, ProdMode];
  }

  /** `Load`: builds the configuration step by step. */
  method Load(workDir: Result<string, string>, files: Files, check: Settings -> StructCheck)
    returns (r: Result<Settings, LoadError>)
    ensures r == LoadSpec(workDir, files, check)
  {
    if workDir.Err? {
      return Err(WorkDirFailed(workDir.error));
    }
    var wd := workDir.value;
    var cfg: Settings := map[];

    var err := ReadFile(files, EnvPath(wd));
    if !err.Loaded? && !err.Missing? {
      return Err(ReadFailed(EnvFilename, err.msg));
    }
    cfg := Apply(cfg, err);
    ghost var afterEnv := cfg;

    err := ReadFile(files, ConfigPath(wd, BaseCfgFilename));
    if !err.Loaded? && !IsEOFErr(err.msg) {
      return Err(ReadFailed(BaseCfgFilename, err.msg));
    }
    cfg := Apply(cfg, err);

    var availableModes := AvailableModesSet();
    if !availableModes.Contains(AppMode(cfg)) {
      cfg := cfg[AppModeKey := ProdMode];
    }
    assert LoadBase(wd, files, afterEnv, check) == LoadMode(wd, files, cfg, check);

    if AppMode(cfg) in CfgFileMapper {
      var modeFilename := CfgFileMapper[AppMode(cfg)];
      err := ReadFile(files, ConfigPath(wd, modeFilename));
      if !err.Loaded? && !IsEOFErr(err.msg) {
        return Err(ReadFailed(modeFilename, err.msg));
      }
      cfg := Apply(cfg, err);
    }

    var invalid := Validate(check(cfg));
    if invalid.Some? {
      return Err(Invalid(invalid.value));
    }
    return Ok(cfg);
  }

  /** A configuration is returned only when validation found no failed key. */
  lemma LoadOkIsValid(workDir: Result<string, string>, files: Files, check: Settings -> StructCheck)
    requires LoadSpec(workDir, files, check).Ok?
    ensures var c := check(LoadSpec(workDir, files, check).value);
            !c.ValidationErrors? || c.fields == []
  {
  }

  /** A missing .env is tolerated and acts as an empty one; any other
      failure to read it aborts the load. */
  lemma LoadEnvTolerance(wd: string, files: Files, check: Settings -> StructCheck)
    ensures ReadFile(files, EnvPath(wd)).Failed? ==>
      LoadSpec(Ok(wd), files, check) == Err(ReadFailed(".env", ReadFile(files, EnvPath(wd)).msg))
    ensures ReadFile(files, EnvPath(wd)).Missing? ==>
      LoadSpec(Ok(wd), files, check) == LoadSpec(Ok(wd), files[EnvPath(wd) := Loaded(map[])], check)
  {
  }

  /** A base file whose read failed with an EOF-terminated message acts as an
      empty one; any other failure to read it aborts the load. */
  lemma LoadBaseTolerance(wd: string, files: Files, check: Settings -> StructCheck)
    requires !ReadFile(files, EnvPath(wd)).Failed?
    ensures var base := ReadFile(files, ConfigPath(wd, BaseCfgFilename));
      !base.Loaded? && IsEOFErr(base.msg) ==>
        LoadSpec(Ok(wd), files, check) == LoadSpec(Ok(wd), files[ConfigPath(wd, BaseCfgFilename) := Loaded(map[])], check)
    ensures var base := ReadFile(files, ConfigPath(wd, BaseCfgFilename));
      !base.Loaded? && !IsEOFErr(base.msg) ==>
        LoadSpec(Ok(wd), files, check) == Err(ReadFailed("base.yaml", base.msg))
  {
    var basePath := ConfigPath(wd, BaseCfgFilename);
    EnvPathNotConfigPath(wd, BaseCfgFilename);
    var base := ReadFile(files, basePath);
    var cfg := Apply(map[], ReadFile(files, EnvPath(wd)));
    assert LoadSpec(Ok(wd), files, check) == LoadBase(wd, files, cfg, check);
    if !base.Loaded? && IsEOFErr(base.msg) {
      var emptied := files[basePath := Loaded(map[])];
      assert ReadFile(emptied, EnvPath(wd)) == ReadFile(files, EnvPath(wd));
      assert LoadSpec(Ok(wd), emptied, check) == LoadBase(wd, emptied, cfg, check);
      assert cfg + map[] == cfg;
      LoadModeIgnoresBase(wd, files, Normalized(cfg), check, Loaded(map[]));
    }
  }

  /** .env sits directly in the working directory, the YAML files in its
      configs directory: the paths never meet. */
  lemma EnvPathNotConfigPath(wd: string, file: string)
    ensures EnvPath(wd) != ConfigPath(wd, file)
  {
    assert |EnvPath(wd)| == |wd| + 5 < |wd| + 9 <= |ConfigPath(wd, file)|;
  }

  /** The values a read contributes: a failed or missing read none. */
  function Values(o: ReadOutcome): Settings
  {
    if o.Loaded? then o.values else map[]
  }

  /** The configuration after .env and base.yaml, mode normalised. */
  function Staged(wd: string, files: Files): Settings
  {
    Normalized(Apply(Apply(map[], ReadFile(files, EnvPath(wd))), ReadFile(files, ConfigPath(wd, BaseCfgFilename))))
  }

  /** The read of the mode file of the staged mode; none for TEST. */
  function ModeRead(wd: string, files: Files): Option<ReadOutcome>
  {
    var modeFile := ModeFile(AppMode(Staged(wd, files)));
    if modeFile.None? then None else Some(ReadFile(files, ConfigPath(wd, modeFile.value)))
  }

  /** Once .env and base.yaml are read, a mode file whose read failed with
      an EOF-terminated message acts as an empty one, any other failure to
      read it aborts the load with its name, and TEST goes straight to
      validation. */
  lemma LoadModeTolerance(wd: string, files: Files, check: Settings -> StructCheck)
    requires !ReadFile(files, EnvPath(wd)).Failed?
    requires var base := ReadFile(files, ConfigPath(wd, BaseCfgFilename));
             base.Loaded? || IsEOFErr(base.msg)
    ensures ModeRead(wd, files).None? ==> LoadSpec(Ok(wd), files, check) == Finish(Staged(wd, files), check)
    ensures var mode := ModeRead(wd, files);
      mode.Some? && !mode.value.Loaded? && IsEOFErr(mode.value.msg) ==>
        LoadSpec(Ok(wd), files, check) == Finish(Staged(wd, files), check)
    ensures var mode := ModeRead(wd, files);
      mode.Some? && !mode.value.Loaded? && !IsEOFErr(mode.value.msg) ==>
        LoadSpec(Ok(wd), files, check)
          == Err(ReadFailed(ModeFile(AppMode(Staged(wd, files))).value, mode.value.msg))
  {
    var cfg := Apply(map[], ReadFile(files, EnvPath(wd)));
    assert LoadSpec(Ok(wd), files, check) == LoadBase(wd, files, cfg, check);
    assert LoadBase(wd, files, cfg, check) == LoadMode(wd, files, Staged(wd, files), check);
  }

  /** Later files win: on success every key the mode file sets has its
      value, a key set by base.yaml and not by the mode file has base.yaml's
      value, a key only .env sets has .env's value, and no other key
      appears. The app mode, unless the mode file sets it, is the
      normalised mode of .env and base.yaml. */
  lemma LoadPrecedence(wd: string, files: Files, check: Settings -> StructCheck)
    requires LoadSpec(Ok(wd), files, check).Ok?
    ensures var r := LoadSpec(Ok(wd), files, check).value;
      var env := Values(ReadFile(files, EnvPath(wd)));
      var base := Values(ReadFile(files, ConfigPath(wd, BaseCfgFilename)));
      var mode := if ModeRead(wd, files).None? then map[] else Values(ModeRead(wd, files).value);
      && (forall k :: k in mode ==> k in r && r[k] == mode[k])
      && (forall k :: k in base && k !in mode && k != AppModeKey ==> k in r && r[k] == base[k])
      && (forall k :: k in env && k !in base && k !in mode && k != AppModeKey ==> k in r && r[k] == env[k])
      && (forall k :: k in r && k != AppModeKey ==> k in env || k in base || k in mode)
      && (AppModeKey !in mode ==> AppMode(r) == NormalizeMode(AppMode(env + base)))
  {
    var envRead := ReadFile(files, EnvPath(wd));
    var baseRead := ReadFile(files, ConfigPath(wd, BaseCfgFilename));
    var cfg := Apply(map[], envRead);
    assert cfg == Values(envRead);
    assert Apply(cfg, baseRead) == Values(envRead) + Values(baseRead);
    assert LoadSpec(Ok(wd), files, check) == LoadBase(wd, files, cfg, check);
    assert LoadBase(wd, files, cfg, check) == LoadMode(wd, files, Staged(wd, files), check);
    var staged := Staged(wd, files);
    var mode := if ModeRead(wd, files).None? then map[] else Values(ModeRead(wd, files).value);
    assert LoadSpec(Ok(wd), files, check).value == staged + mode;
  }

  /** The mode stage never reads base.yaml. */
  lemma LoadModeIgnoresBase(wd: string, files: Files, cfg: Settings, check: Settings -> StructCheck,
                            other: ReadOutcome)
    ensures LoadMode(wd, files[ConfigPath(wd, BaseCfgFilename) := other], cfg, check) == LoadMode(wd, files, cfg, check)
  {
    ConfigPathInjective(wd, "local.yaml", BaseCfgFilename);
    ConfigPathInjective(wd, "stage.yaml", BaseCfgFilename);
    ConfigPathInjective(wd, "prod.yaml", BaseCfgFilename);
  }

  /** In TEST mode no mode file is read: what any other path holds does
      not matter. */
  lemma LoadTestReadsNoModeFile(wd: string, files: Files, check: Settings -> StructCheck,
                                path: string, other: ReadOutcome)
    requires path != EnvPath(wd) && path != ConfigPath(wd, BaseCfgFilename)
    requires var env := ReadFile(files, EnvPath(wd));
             var base := ReadFile(files, ConfigPath(wd, BaseCfgFilename));
             (env.Loaded? || env.Missing?) && base.Loaded? &&
             AppMode(Apply(Apply(map[], env), base)) == TestMode
    ensures LoadSpec(Ok(wd), files[path := other], check) == LoadSpec(Ok(wd), files, check)
  {
  }
}
