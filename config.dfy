/** The orchestrator's configuration: the built-in defaults and the
    per-key fallback applied to an already-parsed TOML table. */
module Config {
  import opened Wrappers
  import opened Values

  /** `[krypton]`. The loader stores each value as found in the table, so
      none of these is known to be a string. */
  datatype KryptonConfig = KryptonConfig(mode: Value, binaryPath: Value, httpUrl: Value)

  /** `[scheduler]` */
  datatype SchedulerConfig = SchedulerConfig(throttleSleepSeconds: real)

  datatype OrchestratorConfig = OrchestratorConfig(krypton: KryptonConfig, scheduler: SchedulerConfig)

  const DefaultMode := "binary"
  const DefaultBinaryPath := "entropy_health"
  const DefaultHttpUrl := "http://127.0.0.1:3000/health"
  const DefaultThrottleSleepSeconds := 0.5

  function DefaultConfig(): (c: OrchestratorConfig)
    ensures c.krypton.mode == Str("binary")
    ensures c.krypton.binaryPath == Str("entropy_health")
    ensures c.krypton.httpUrl == Str("http://127.0.0.1:3000/health")
    ensures c.scheduler.throttleSleepSeconds == 0.5
  {
    OrchestratorConfig(
      KryptonConfig(Str(DefaultMode), Str(DefaultBinaryPath), Str(DefaultHttpUrl)),
      SchedulerConfig(DefaultThrottleSleepSeconds))
  }

  /** What reading the configuration file produced. */
  datatype ConfigFile = Missing | Unparseable | Parsed(table: map<string, Value>)

  datatype ConfigError =
    | ParseFailed                  // toml.load raised
    | SectionNotATable(name: string) // a truthy section without `.get`
    | BadSleepSeconds(v: Value)    // float(...) raised

  /** `data.get(name, {}) or {}`, followed by the `.get` calls that need it
      to be a table. */
  function Section(data: map<string, Value>, name: string): (r: Result<map<string, Value>, ConfigError>)
    ensures name !in data ==> r == Ok(map[])
    ensures name in data && !Truthy(data[name]) ==> r == Ok(map[])
    ensures name in data && data[name].Obj? ==> r == Ok(data[name].fields)
    ensures r.Err? <==> name in data && Truthy(data[name]) && !data[name].Obj?
  {
    var raw := Get(data, name, Obj(map[]));
    if !Truthy(raw) then Ok(map[])
    else if raw.Obj? then Ok(raw.fields)
    else Err(SectionNotATable(name))
  }

  /** `load_config` after the file has been read: a missing file gives the
      defaults, an unparseable one fails, and a parsed table fails only on a
      section or a back-off it cannot read. */
  function LoadConfig(file: ConfigFile): (r: Result<OrchestratorConfig, ConfigError>)
    ensures file.Missing? ==> r == Ok(DefaultConfig())
    ensures file.Unparseable? ==> r == Err(ParseFailed)
    ensures file.Parsed? && r.Err? ==> r.error.SectionNotATable? || r.error.BadSleepSeconds?
  {
    match file
    case Missing => Ok(DefaultConfig())
    case Unparseable => Err(ParseFailed)
    case Parsed(data) =>
      var kryptonRaw :- Section(data, "krypton");
      var schedulerRaw :- Section(data, "scheduler");
      var sleepRaw := Get(schedulerRaw, "throttle_sleep_seconds", Float(DefaultThrottleSleepSeconds));
      var sleep := AsFloat(sleepRaw);
      if sleep.None? then Err(BadSleepSeconds(sleepRaw))
      else
        Ok(OrchestratorConfig(
             KryptonConfig(
               Get(kryptonRaw, "mode", Str(DefaultMode)),
               Get(kryptonRaw, "binary_path", Str(DefaultBinaryPath)),
               Get(kryptonRaw, "http_url", Str(DefaultHttpUrl))),
             SchedulerConfig(sleep.value)))
  }

  /** A table with no keys gives exactly the defaults. */
  lemma EmptyTableGivesDefaults()
    ensures LoadConfig(Parsed(map[])) == Ok(DefaultConfig())
  {
  }

  /** A section that is absent or falsy is read as an empty section: the
      result is the one obtained without that section at all. */
  lemma FalsySectionIsEmpty(data: map<string, Value>, name: string)
    requires name in data && !Truthy(data[name])
    ensures LoadConfig(Parsed(data)) == LoadConfig(Parsed(data - {name}))
  {
  }

  /** Each `[krypton]` key present in a table section is taken verbatim and
      each absent key takes its default; the mode is not checked. */
  lemma KryptonKeysVerbatimOrDefault(data: map<string, Value>, c: OrchestratorConfig)
    requires LoadConfig(Parsed(data)) == Ok(c)
    ensures var k := if "krypton" in data && data["krypton"].Obj? then data["krypton"].fields else map[];
      && c.krypton.mode == Get(k, "mode", Str("binary"))
      && c.krypton.binaryPath == Get(k, "binary_path", Str("entropy_health"))
      && c.krypton.httpUrl == Get(k, "http_url", Str("http://127.0.0.1:3000/health"))
  {
  }

  /** The back-off is the `[scheduler]` value converted by `float`, or 0.5
      when the key or the section is absent. */
  lemma SleepSecondsVerbatimOrDefault(data: map<string, Value>, c: OrchestratorConfig)
    requires LoadConfig(Parsed(data)) == Ok(c)
    ensures var s := if "scheduler" in data && data["scheduler"].Obj? then data["scheduler"].fields else map[];
      AsFloat(Get(s, "throttle_sleep_seconds", Float(0.5))) == Some(c.scheduler.throttleSleepSeconds)
  {
  }

  /** Loading fails only for an unparseable file, a truthy section that is
      not a table, or a back-off `float` cannot convert. */
  lemma LoadConfigErrors(file: ConfigFile)
    ensures LoadConfig(file).Err? <==>
      || file.Unparseable?
      || (file.Parsed? && exists name :: name in {"krypton", "scheduler"} && Section(file.table, name).Err?)
      || (file.Parsed? && Section(file.table, "krypton").Ok? && Section(file.table, "scheduler").Ok?
          && AsFloat(Get(Section(file.table, "scheduler").value, "throttle_sleep_seconds", Float(0.5))).None?)
  {
  }
}
