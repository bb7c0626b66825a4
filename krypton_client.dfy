/** The health client: acquires a snapshot through the binary or the HTTP
    transport, normalises the payload, and falls back to a fixed stub
    snapshot whenever anything fails. */
module KryptonClient {
  import opened Wrappers
  import opened Values
  import opened Text
  import opened Config

  /** `KryptonHealth`. The decision is whatever value the payload held. */
  datatype Health = Health(samples: int, mean: real, variance: real, jitter: real, decision: Value)

  const Keep := Str("Keep")
  const Throttle := Str("Throttle")
  const Kill := Str("Kill")

  /** The fixed fallback snapshot. */
  function StubHealth(): (h: Health)
    ensures h.samples == 1024 && h.mean == 0.5 && h.variance == 0.25 && h.jitter == 0.01
    ensures h.decision == Str("Keep")
  {
    Health(1024, 0.5, 0.25, 0.01, Keep)
  }

  /** The bounds the client's test asserts of any fetched snapshot. */
  predicate Sane(h: Health)
  {
    && h.samples >= 0
    && 0.0 <= h.mean <= 1.0
    && h.variance >= 0.0
    && h.jitter >= 0.0
    && h.decision in {Keep, Throttle, Kill}
  }

  datatype FetchError =
    | ProcessFailed          // spawn error or non-zero exit
    | NoOutput               // stdout empty after stripping
    | HttpFailed             // network error, timeout or non-2xx status
    | DecodeFailed           // json.loads / resp.json() raised
    | NotAnObject            // decoded value is not a JSON object
    | BadField(key: string)  // int()/float() rejected a field

  const HealthKeys: set<string> := {"samples", "mean", "variance", "jitter", "decision"}

  /** `_from_payload`: each present field converted, each absent one
      defaulted, the decision copied as is, every other key ignored. */
  function FromPayload(p: map<string, Value>): (r: Result<Health, FetchError>)
    ensures r.Ok? <==>
      && AsInt(Get(p, "samples", Int(0))).Some?
      && AsFloat(Get(p, "mean", Float(0.0))).Some?
      && AsFloat(Get(p, "variance", Float(0.0))).Some?
      && AsFloat(Get(p, "jitter", Float(0.0))).Some?
    ensures r.Ok? && "samples" !in p ==> r.value.samples == 0
    ensures r.Ok? && "mean" !in p ==> r.value.mean == 0.0
    ensures r.Ok? && "variance" !in p ==> r.value.variance == 0.0
    ensures r.Ok? && "jitter" !in p ==> r.value.jitter == 0.0
    ensures r.Ok? ==> r.value.decision == (if "decision" in p then p["decision"] else Str("Keep"))
    ensures r.Ok? && "samples" in p ==> AsInt(p["samples"]) == Some(r.value.samples)
    ensures r.Ok? && "mean" in p ==> AsFloat(p["mean"]) == Some(r.value.mean)
    ensures r.Ok? && "variance" in p ==> AsFloat(p["variance"]) == Some(r.value.variance)
    ensures r.Ok? && "jitter" in p ==> AsFloat(p["jitter"]) == Some(r.value.jitter)
  {
    var samples := AsInt(Get(p, "samples", Int(0)));
    var mean := AsFloat(Get(p, "mean", Float(0.0)));
    var variance := AsFloat(Get(p, "variance", Float(0.0)));
    var jitter := AsFloat(Get(p, "jitter", Float(0.0)));
    if samples.None? then Err(BadField("samples"))
    else if mean.None? then Err(BadField("mean"))
    else if variance.None? then Err(BadField("variance"))
    else if jitter.None? then Err(BadField("jitter"))
    else Ok(Health(samples.value, mean.value, variance.value, jitter.value, Get(p, "decision", Keep)))
  }

  /** The flat payload shape a producer emits for a snapshot. */
  function ToPayload(h: Health): map<string, Value>
  {
    map["samples" := Int(h.samples), "mean" := Float(h.mean), "variance" := Float(h.variance),
        "jitter" := Float(h.jitter), "decision" := h.decision]
  }

  /** Normalising the flat shape of a snapshot gives back that snapshot. */
  lemma FromPayloadRoundTrip(h: Health)
    ensures FromPayload(ToPayload(h)) == Ok(h)
  {
  }

  /** Normalisation looks at the five health keys only. */
  lemma FromPayloadIgnoresOtherKeys(p: map<string, Value>, q: map<string, Value>)
    requires forall k :: k in HealthKeys ==> (k in p <==> k in q)
    requires forall k :: k in HealthKeys && k in p ==> p[k] == q[k]
    ensures FromPayload(p) == FromPayload(q)
  {
  }

  /** An empty payload gives all defaults and a Keep decision. */
  lemma FromEmptyPayload()
    ensures FromPayload(map[]) == Ok(Health(0, 0.0, 0.0, 0.0, Str("Keep")))
  {
  }

  /** The decision is not checked against the three known values. */
  lemma FromPayloadKeepsUnknownDecision(d: Value)
    ensures FromPayload(map["decision" := d]) == Ok(Health(0, 0.0, 0.0, 0.0, d))
  {
  }

  /** Raw outcome of running the health binary (`check=True`: a non-zero
      exit is a failure). */
  datatype ProcOutcome = ProcFailed | ProcOk(stdout: string)

  /** Raw outcome of the GET request after `raise_for_status`. */
  datatype HttpOutcome = HttpError | HttpOk(body: string)

  /** What the client cannot see: running the binary at a path, issuing a
      GET to a URL, and the partial JSON decoder. */
  datatype Env = Env(run: Value -> ProcOutcome, get: Value -> HttpOutcome, decode: string -> Option<Value>)

  /** Decode one document and require it to be an object. */
  function DecodeObject(decode: string -> Option<Value>, text: string): (r: Result<map<string, Value>, FetchError>)
    ensures decode(text).None? ==> r == Err(DecodeFailed)
    ensures decode(text).Some? && !decode(text).value.Obj? ==> r == Err(NotAnObject)
    ensures r.Ok? <==> decode(text).Some? && decode(text).value.Obj?
    ensures r.Ok? ==> decode(text) == Some(Obj(r.value))
  {
    var v := decode(text);
    if v.None? then Err(DecodeFailed)
    else if !v.value.Obj? then Err(NotAnObject)
    else Ok(v.value.fields)
  }

  /** `_fetch_via_binary`: a failed run is a failure; otherwise the output
      is handled by FromOutput. */
  function FetchViaBinary(env: Env, cfg: KryptonConfig): (r: Result<Health, FetchError>)
    ensures env.run(cfg.binaryPath).ProcFailed? ==> r == Err(ProcessFailed)
    ensures r == Err(NoOutput) <==> env.run(cfg.binaryPath).ProcOk? && AllSpace(env.run(cfg.binaryPath).stdout)
    ensures env.run(cfg.binaryPath).ProcOk? && !AllSpace(env.run(cfg.binaryPath).stdout) ==>
      r == FromLine(env.decode, LastLine(Strip(env.run(cfg.binaryPath).stdout)))
  {
    match env.run(cfg.binaryPath)
    case ProcFailed => Err(ProcessFailed)
    case ProcOk(out) => FromOutput(env.decode, out)
  }

  /** Strip the output, reject it if empty, decode its last line: blank
      output and nothing else is reported as missing, and otherwise only the
      text after the last break of the stripped output is read. */
  function FromOutput(decode: string -> Option<Value>, out: string): (r: Result<Health, FetchError>)
    ensures r == Err(NoOutput) <==> AllSpace(out)
    ensures !AllSpace(out) ==> r == FromLine(decode, LastLine(Strip(out)))
  {
    var stdout := Strip(out);
    if stdout == [] then Err(NoOutput)
    else
      var lines := SplitLines(stdout);
      FromLine(decode, lines[|lines| - 1])
  }

  /** Decode one line, require an object, normalise it. Its failures are
      those of decoding and of normalising only. */
  function FromLine(decode: string -> Option<Value>, line: string): (r: Result<Health, FetchError>)
    ensures decode(line).None? ==> r == Err(DecodeFailed)
    ensures decode(line).Some? && !decode(line).value.Obj? ==> r == Err(NotAnObject)
    ensures decode(line).Some? && decode(line).value.Obj? ==> r == FromPayload(decode(line).value.fields)
    ensures r.Err? ==> r.error == DecodeFailed || r.error == NotAnObject || r.error.BadField?
  {
    var payload :- DecodeObject(decode, line);
    FromPayload(payload)
  }

  /** `_fetch_via_http`: a nested `krypton` object wins over the top level.
      A request failure, an undecodable body and a non-object are failures;
      a success always comes from a body that decoded to an object. */
  function FetchViaHttp(env: Env, cfg: KryptonConfig): (r: Result<Health, FetchError>)
    ensures env.get(cfg.httpUrl).HttpError? ==> r == Err(HttpFailed)
    ensures env.get(cfg.httpUrl).HttpOk? && env.decode(env.get(cfg.httpUrl).body).None? ==> r == Err(DecodeFailed)
    ensures r.Ok? ==> env.get(cfg.httpUrl).HttpOk? && env.decode(env.get(cfg.httpUrl).body).Some?
                      && env.decode(env.get(cfg.httpUrl).body).value.Obj?
    ensures r.Err? ==> r.error in {HttpFailed, DecodeFailed, NotAnObject} || r.error.BadField?
  {
    match env.get(cfg.httpUrl)
    case HttpError => Err(HttpFailed)
    case HttpOk(body) =>
      var payload :- DecodeObject(env.decode, body);
      if "krypton" in payload && payload["krypton"].Obj? then FromPayload(payload["krypton"].fields)
      else FromPayload(payload)
  }

  /** `fetch`, with the configuration passed in: total; the result is the
      stub or a success of the transport the mode selects, and always the
      stub for an unknown mode. */
  function Fetch(env: Env, cfg: KryptonConfig): (h: Health)
    ensures cfg.mode != Str("binary") && cfg.mode != Str("http") ==> h == StubHealth()
    ensures cfg.mode == Str("binary") && FetchViaBinary(env, cfg).Ok? ==> h == FetchViaBinary(env, cfg).value
    ensures cfg.mode == Str("binary") && FetchViaBinary(env, cfg).Err? ==> h == StubHealth()
    ensures cfg.mode == Str("http") && FetchViaHttp(env, cfg).Ok? ==> h == FetchViaHttp(env, cfg).value
    ensures cfg.mode == Str("http") && FetchViaHttp(env, cfg).Err? ==> h == StubHealth()
    ensures || h == StubHealth()
            || (cfg.mode == Str("binary") && FetchViaBinary(env, cfg) == Ok(h))
            || (cfg.mode == Str("http") && FetchViaHttp(env, cfg) == Ok(h))
  {
    if cfg.mode == Str("binary") then FetchViaBinary(env, cfg).GetOr(StubHealth())
    else if cfg.mode == Str("http") then FetchViaHttp(env, cfg).GetOr(StubHealth())
    else StubHealth()
  }

  /** `fetch` as written: it loads the configuration first, outside its
      error handling, so a configuration that fails to load makes the fetch
      itself fail, and otherwise the loaded `[krypton]` section is used. */
  function FetchFromFile(env: Env, file: ConfigFile): (r: Result<Health, ConfigError>)
    ensures r.Err? <==> LoadConfig(file).Err?
    ensures r.Err? ==> r.error == LoadConfig(file).error
    ensures r.Ok? ==> r.value == Fetch(env, LoadConfig(file).value.krypton)
  {
    var cfg :- LoadConfig(file);
    Ok(Fetch(env, cfg.krypton))
  }

  /** A back-off `float` raises TypeError on (null, an array, a table)
      makes every fetch fail, although the fetch never reads the back-off. */
  lemma FetchFailsOnBadSleepSeconds(env: Env, v: Value)
    requires v.Null? || v.Arr? || v.Obj?
    ensures FetchFromFile(env, Parsed(map["scheduler" := Obj(map["throttle_sleep_seconds" := v])])).Err?
  {
    var data := map["scheduler" := Obj(map["throttle_sleep_seconds" := v])];
    assert Section(data, "scheduler") == Ok(map["throttle_sleep_seconds" := v]);
  }

  /** Lines before the last one, and whitespace after it, have no effect on
      the binary transport. */
  lemma BinaryIgnoresEarlierLines(env: Env, cfg: KryptonConfig, earlier: string, b: char, last: string, trailing: string)
    requires IsLineBreak(b)
    requires last != [] && NoLineBreak(last)
    requires !IsSpace(last[0]) && !IsSpace(last[|last| - 1])
    requires AllSpace(trailing)
    requires env.run(cfg.binaryPath) == ProcOk(earlier + [b] + last + trailing)
    ensures FetchViaBinary(env, cfg) == FromLine(env.decode, last)
  {
    LastLineIgnoresEarlierLines(earlier, b, last, trailing);
  }

  /** Output that is one line and a newline: that line is decoded. */
  lemma FetchSingleLine(env: Env, cfg: KryptonConfig, line: string)
    requires cfg.mode == Str("binary")
    requires line != [] && NoLineBreak(line)
    requires !IsSpace(line[0]) && !IsSpace(line[|line| - 1])
    requires env.run(cfg.binaryPath) == ProcOk(line + "\n")
    ensures Fetch(env, cfg) == FromLine(env.decode, line).GetOr(StubHealth())
  {
    StripLineAndNewline(line);
    LastLineOfUnbroken(line);
  }

  /** A last line that decodes to something other than an object is a
      failure of the binary transport. */
  lemma BinaryNonObjectFails(env: Env, cfg: KryptonConfig, out: string)
    requires env.run(cfg.binaryPath) == ProcOk(out)
    requires Strip(out) != [] && env.decode(LastLine(Strip(out))).Some?
    requires !env.decode(LastLine(Strip(out))).value.Obj?
    ensures FetchViaBinary(env, cfg) == Err(NotAnObject)
  {
  }

  /** The binary transport never drills into a nested `krypton` object. */
  lemma BinaryUsesTopLevel(env: Env, cfg: KryptonConfig, out: string, m: map<string, Value>)
    requires env.run(cfg.binaryPath) == ProcOk(out)
    requires Strip(out) != [] && env.decode(LastLine(Strip(out))) == Some(Obj(m))
    ensures FetchViaBinary(env, cfg) == FromPayload(m)
  {
  }

  /** A body that decodes to something other than an object is a failure
      of the HTTP transport. */
  lemma HttpNonObjectFails(env: Env, cfg: KryptonConfig, body: string)
    requires env.get(cfg.httpUrl) == HttpOk(body)
    requires env.decode(body).Some? && !env.decode(body).value.Obj?
    ensures FetchViaHttp(env, cfg) == Err(NotAnObject)
  {
  }

  /** HTTP shape selection: a nested `krypton` object is normalised on its
      own, otherwise the top-level object is. */
  lemma HttpShapeSelection(env: Env, cfg: KryptonConfig, body: string, m: map<string, Value>)
    requires env.get(cfg.httpUrl) == HttpOk(body)
    requires env.decode(body) == Some(Obj(m))
    ensures "krypton" in m && m["krypton"].Obj? ==> FetchViaHttp(env, cfg) == FromPayload(m["krypton"].fields)
    ensures !("krypton" in m && m["krypton"].Obj?) ==> FetchViaHttp(env, cfg) == FromPayload(m)
  {
  }

  /** With a nested `krypton` object, the outer keys have no effect: two
      envelopes around the same inner object give the same snapshot. */
  lemma HttpOuterKeysIgnored(env: Env, env': Env, cfg: KryptonConfig, m: map<string, Value>, m': map<string, Value>)
    requires env.get(cfg.httpUrl).HttpOk? && env.decode(env.get(cfg.httpUrl).body) == Some(Obj(m))
    requires env'.get(cfg.httpUrl).HttpOk? && env'.decode(env'.get(cfg.httpUrl).body) == Some(Obj(m'))
    requires "krypton" in m && "krypton" in m' && m["krypton"] == m'["krypton"] && m["krypton"].Obj?
    ensures FetchViaHttp(env, cfg) == FetchViaHttp(env', cfg) == FromPayload(m["krypton"].fields)
  {
  }

  /** An unknown mode gives the stub, whatever the transports would do. */
  lemma FetchUnknownMode(env: Env, env': Env, cfg: KryptonConfig)
    requires cfg.mode != Str("binary") && cfg.mode != Str("http")
    ensures Fetch(env, cfg) == StubHealth() && Fetch(env', cfg) == StubHealth()
  {
  }

  /** Any failure of the selected transport gives the stub, and a success is
      returned unchanged. */
  lemma FetchFailOpen(env: Env, cfg: KryptonConfig)
    ensures cfg.mode == Str("binary") && FetchViaBinary(env, cfg).Err? ==> Fetch(env, cfg) == StubHealth()
    ensures cfg.mode == Str("binary") && FetchViaBinary(env, cfg).Ok? ==> Fetch(env, cfg) == FetchViaBinary(env, cfg).value
    ensures cfg.mode == Str("http") && FetchViaHttp(env, cfg).Err? ==> Fetch(env, cfg) == StubHealth()
    ensures cfg.mode == Str("http") && FetchViaHttp(env, cfg).Ok? ==> Fetch(env, cfg) == FetchViaHttp(env, cfg).value
  {
  }

  /** Each mode consults its own transport only. */
  lemma FetchUsesOnlySelectedTransport(env: Env, cfg: KryptonConfig, run': Value -> ProcOutcome, get': Value -> HttpOutcome)
    ensures cfg.mode == Str("binary") ==> Fetch(env, cfg) == Fetch(env.(get := get'), cfg)
    ensures cfg.mode == Str("http") ==> Fetch(env, cfg) == Fetch(env.(run := run'), cfg)
  {
  }

  /** Two stub snapshots are always equal, and the stub passes the sanity
      bounds. */
  lemma StubIsConstantAndSane()
    ensures StubHealth() == Health(1024, 0.5, 0.25, 0.01, Str("Keep"))
    ensures Sane(StubHealth())
  {
  }

  /** Whenever the stub is served, the fetched snapshot is sane. */
  lemma FetchSaneOnFailure(env: Env, cfg: KryptonConfig)
    requires || (cfg.mode != Str("binary") && cfg.mode != Str("http"))
             || (cfg.mode == Str("binary") && FetchViaBinary(env, cfg).Err?)
             || (cfg.mode == Str("http") && FetchViaHttp(env, cfg).Err?)
    ensures Sane(Fetch(env, cfg))
  {
  }

  /** The decision of a successful fetch is not validated: an HTTP producer
      answering `{"decision": "Unknown"}` yields that decision. */
  lemma FetchPassesUnknownDecision(cfg: KryptonConfig)
    requires cfg.mode == Str("http")
    ensures var env := Env(_ => ProcFailed, _ => HttpOk("{}"), _ => Some(Obj(map["decision" := Str("Unknown")])));
      && Fetch(env, cfg) == Health(0, 0.0, 0.0, 0.0, Str("Unknown"))
      && !Sane(Fetch(env, cfg))
  {
  }

  /** The nested-shape example: the envelope's `status` is ignored and the
      inner snapshot is returned. */
  lemma NestedShapeExample(cfg: KryptonConfig)
    requires cfg.mode == Str("http")
    ensures var inner := map["samples" := Int(5), "mean" := Float(0.1), "variance" := Float(0.0),
                             "jitter" := Float(0.0), "decision" := Str("Throttle")];
      var env := Env(_ => ProcFailed, _ => HttpOk("body"), _ => Some(Obj(map["krypton" := Obj(inner), "status" := Str("ok")])));
      Fetch(env, cfg) == Health(5, 0.1, 0.0, 0.0, Str("Throttle"))
  {
  }
}
