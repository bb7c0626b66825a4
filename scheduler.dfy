/** One scheduler iteration: fetch a health snapshot, then skip the job,
    back off and run it, or run it, according to the snapshot's decision. */
module Scheduler {
  import opened Wrappers
  import opened Values
  import opened Config
  import opened KryptonClient

  /** The action reported for one iteration. */
  datatype Action = Run | Throttled | Skipped {
    function Name(): (s: string)
      ensures s in {"run", "throttled", "skipped"}
      ensures (s == "run") == Run?
      ensures (s == "throttled") == Throttled?
      ensures (s == "skipped") == Skipped?
    {
      match this
      case Run => "run"
      case Throttled => "throttled"
      case Skipped => "skipped"
    }
  }

  /** Why an iteration raised instead of reporting an action. */
  datatype RunError =
    | ConfigFailed(cause: ConfigError) // the fetch's configuration load raised
    | NegativeSleep(seconds: real)     // `time.sleep` raised ValueError
    | SleepOverflow(seconds: real)     // `time.sleep` raised OverflowError

  /** 2^63 nanoseconds: the signed 64-bit nanosecond clock holds delays from
      minus this value up to, but not including, this value. */
  const MaxSleepSeconds: real := 9223372036.854775808

  /** A delay that converts to the nanosecond clock; `time.sleep` checks this
      before the sign, and raises OverflowError when it fails. */
  predicate SleepInRange(seconds: real)
  {
    -MaxSleepSeconds <= seconds < MaxSleepSeconds
  }

  /** A delay `time.sleep` accepts: in range and not negative. */
  predicate SleepAccepts(seconds: real)
  {
    SleepInRange(seconds) && 0.0 <= seconds
  }

  /** What an iteration does that a caller can observe, in order. */
  datatype Event = Fetched(health: Health) | Slept(seconds: real) | JobInvoked

  /** The outcome for a decision and a back-off: only the exact strings
      "Kill" and "Throttle" are special, every other value runs the job, and
      a back-off `time.sleep` rejects makes the throttled branch raise. */
  function Gate(decision: Value, sleepSeconds: real): (r: Result<Action, RunError>)
    ensures r == Ok(Skipped) <==> decision == Kill
    ensures r == Ok(Throttled) <==> decision == Throttle && SleepAccepts(sleepSeconds)
    ensures r == Ok(Run) <==> decision != Kill && decision != Throttle
    ensures r.Err? <==> decision == Throttle && !SleepAccepts(sleepSeconds)
    ensures r.Err? && SleepInRange(sleepSeconds) ==> r.error == NegativeSleep(sleepSeconds)
    ensures r.Err? && !SleepInRange(sleepSeconds) ==> r.error == SleepOverflow(sleepSeconds)
  {
    if decision == Kill then Ok(Skipped)
    else if decision == Throttle then
      if !SleepInRange(sleepSeconds) then Err(SleepOverflow(sleepSeconds))
      else if sleepSeconds < 0.0 then Err(NegativeSleep(sleepSeconds))
      else Ok(Throttled)
    else Ok(Run)
  }

  /** The effects that follow the fetch: a back-off can only come first and
      the job only last, and there are effects exactly when the job runs. */
  function GateEffects(decision: Value, sleepSeconds: real): (e: seq<Event>)
    ensures |e| <= 2
    ensures e != [] ==> e[|e| - 1] == JobInvoked
    ensures forall k :: 0 <= k < |e| - 1 ==> e[k] == Slept(sleepSeconds)
    ensures e == [] <==> !(Gate(decision, sleepSeconds).Ok? && Gate(decision, sleepSeconds).value != Skipped)
  {
    match Gate(decision, sleepSeconds)
    case Ok(Skipped) => []
    case Ok(Throttled) => [Slept(sleepSeconds), JobInvoked]
    case Ok(Run) => [JobInvoked]
    case Err(_) => []
  }

  /** The back-off used: the given scheduler configuration's, or the
      default configuration's when none is given. */
  function SleepSeconds(schedulerCfg: Option<SchedulerConfig>): (s: real)
    ensures schedulerCfg.None? ==> s == 0.5
    ensures schedulerCfg.Some? ==> s == schedulerCfg.value.throttleSleepSeconds
  {
    match schedulerCfg
    case None => DefaultConfig().scheduler.throttleSleepSeconds
    case Some(c) => c.throttleSleepSeconds
  }

  /** Number of job invocations in a trace. */
  function JobCount(trace: seq<Event>): nat
  {
    if trace == [] then 0
    else (if trace[0] == JobInvoked then 1 else 0) + JobCount(trace[1..])
  }

  /** Number of health fetches in a trace. */
  function FetchCount(trace: seq<Event>): nat
  {
    if trace == [] then 0
    else (if trace[0].Fetched? then 1 else 0) + FetchCount(trace[1..])
  }

  lemma {:induction false} CountsAppend(a: seq<Event>, b: seq<Event>)
    ensures JobCount(a + b) == JobCount(a) + JobCount(b)
    ensures FetchCount(a + b) == FetchCount(a) + FetchCount(b)
  {
    if a == [] {
      assert a + b == b;
    } else {
      assert (a + b)[0] == a[0];
      assert (a + b)[1..] == a[1..] + b;
      CountsAppend(a[1..], b);
    }
  }

  lemma SingletonCounts(e: Event)
    ensures JobCount([e]) == (if e == JobInvoked then 1 else 0)
    ensures FetchCount([e]) == (if e.Fetched? then 1 else 0)
  {
  }

  /** Kill: skipped, and the job is not invoked. */
  lemma KillSkipsJob(s: real)
    ensures Gate(Kill, s) == Ok(Skipped)
    ensures GateEffects(Kill, s) == []
    ensures JobCount(GateEffects(Kill, s)) == 0
  {
  }

  /** Throttle with a back-off Python's `time.sleep` accepts: back off for
      the configured time, then invoke the job once, reported as throttled. */
  lemma ThrottleSleepsThenRuns(s: real)
    requires SleepAccepts(s)
    ensures Gate(Throttle, s) == Ok(Throttled)
    ensures GateEffects(Throttle, s) == [Slept(s), JobInvoked]
    ensures JobCount(GateEffects(Throttle, s)) == 1
  {
    assert GateEffects(Throttle, s) == [Slept(s)] + [JobInvoked];
    CountsAppend([Slept(s)], [JobInvoked]);
    SingletonCounts(Slept(s));
    SingletonCounts(JobInvoked);
  }

  /** Throttle with a negative back-off down to -2^63 nanoseconds: the sleep
      raises ValueError, so there is no back-off, no job and no action. */
  lemma ThrottleNegativeSleepRaises(s: real)
    requires -MaxSleepSeconds <= s < 0.0
    ensures Gate(Throttle, s) == Err(NegativeSleep(s))
    ensures GateEffects(Throttle, s) == []
    ensures JobCount(GateEffects(Throttle, s)) == 0
  {
  }

  /** Throttle with a back-off of 2^63 nanoseconds or more, or below
      -2^63 nanoseconds: the sleep raises OverflowError, so there is no
      back-off, no job and no action. */
  lemma ThrottleHugeSleepRaises(s: real)
    requires s < -MaxSleepSeconds || s >= MaxSleepSeconds
    ensures Gate(Throttle, s) == Err(SleepOverflow(s))
    ensures GateEffects(Throttle, s) == []
    ensures JobCount(GateEffects(Throttle, s)) == 0
  {
  }

  /** Every other decision, "Keep" or not a known decision at all, invokes
      the job once with no back-off. */
  lemma OtherDecisionsRun(d: Value, s: real)
    requires d != Kill && d != Throttle
    ensures Gate(d, s) == Ok(Run)
    ensures GateEffects(d, s) == [JobInvoked]
    ensures JobCount(GateEffects(d, s)) == 1
  {
  }

  /** The job runs at most once, and runs exactly when an action other than
      "skipped" is reported; a back-off happens exactly when "throttled" is;
      the gate never fetches. */
  lemma {:induction false} JobAtMostOnce(d: Value, s: real)
    ensures FetchCount(GateEffects(d, s)) == 0
    ensures JobCount(GateEffects(d, s)) <= 1
    ensures JobCount(GateEffects(d, s)) == 1 <==> Gate(d, s).Ok? && Gate(d, s).value != Skipped
    ensures (exists k :: 0 <= k < |GateEffects(d, s)| && GateEffects(d, s)[k].Slept?) <==> Gate(d, s) == Ok(Throttled)
  {
    var e := GateEffects(d, s);
    SingletonCounts(JobInvoked);
    if Gate(d, s) == Ok(Throttled) {
      assert e == [Slept(s)] + [JobInvoked];
      CountsAppend([Slept(s)], [JobInvoked]);
      SingletonCounts(Slept(s));
    }
  }

  /** The observable effects of one iteration, kept in the order they
      happen; the job's own side effect is its `JobInvoked` entry. */
  class EffectLog {
    var trace: seq<Event>

    constructor ()
      ensures trace == []
    {
      trace := [];
    }

    method Record(e: Event)
      modifies this
      ensures trace == old(trace) + [e]
    {
      trace := trace + [e];
    }
  }

  /** `run_once`. The fetch loads its configuration from `file` and reaches
      the producer through `env`; the scheduler configuration is the
      argument, or the defaults when none is given. */
  method RunOnce(log: EffectLog, file: ConfigFile, env: Env, schedulerCfg: Option<SchedulerConfig>)
    returns (result: Result<(Health, Action), RunError>)
    modifies log
    ensures FetchFromFile(env, file).Err? ==>
      result == Err(ConfigFailed(FetchFromFile(env, file).error)) && log.trace == old(log.trace)
    ensures FetchFromFile(env, file).Ok? ==>
      var h := FetchFromFile(env, file).value;
      var s := SleepSeconds(schedulerCfg);
      && log.trace == old(log.trace) + [Fetched(h)] + GateEffects(h.decision, s)
      && result == (if Gate(h.decision, s).Ok? then Ok((h, Gate(h.decision, s).value)) else Err(Gate(h.decision, s).error))
    ensures FetchCount(log.trace) <= FetchCount(old(log.trace)) + 1
    ensures JobCount(log.trace) == JobCount(old(log.trace)) + (if result.Ok? && result.value.1 != Skipped then 1 else 0)
  {
    var sleepSeconds := SleepSeconds(schedulerCfg);
    ghost var before := log.trace;

    var fetched := FetchFromFile(env, file);
    if fetched.Err? {
      return Err(ConfigFailed(fetched.error));
    }
    var health := fetched.value;
    log.Record(Fetched(health));

    ghost var effects := GateEffects(health.decision, sleepSeconds);
    if health.decision == Kill {
      result := Ok((health, Skipped));
      assert effects == [];
      assert log.trace == before + ([Fetched(health)] + effects);
    } else if health.decision == Throttle {
      if !SleepInRange(sleepSeconds) {
        result := Err(SleepOverflow(sleepSeconds));
        assert effects == [];
        assert log.trace == before + ([Fetched(health)] + effects);
      } else if sleepSeconds < 0.0 {
        result := Err(NegativeSleep(sleepSeconds));
        assert effects == [];
        assert log.trace == before + ([Fetched(health)] + effects);
      } else {
        log.Record(Slept(sleepSeconds));
        log.Record(JobInvoked);
        result := Ok((health, Throttled));
        assert effects == [Slept(sleepSeconds), JobInvoked];
        assert log.trace == before + ([Fetched(health)] + effects);
      }
    } else {
      log.Record(JobInvoked);
      result := Ok((health, Run));
      assert effects == [JobInvoked];
      assert log.trace == before + ([Fetched(health)] + effects);
    }

    CountsAppend(before, [Fetched(health)] + effects);
    CountsAppend([Fetched(health)], effects);
    SingletonCounts(Fetched(health));
    JobAtMostOnce(health.decision, sleepSeconds);
  }

  /** End to end, binary mode: the binary prints one JSON line holding a
      Keep snapshot; the iteration returns that snapshot, reports "run",
      and invokes the job once. */
  lemma BinaryKeepEndToEnd(env: Env, cfg: KryptonConfig, line: string, h: Health, s: real)
    requires cfg.mode == Str("binary")
    requires line != [] && Text.NoLineBreak(line)
    requires !Text.IsSpace(line[0]) && !Text.IsSpace(line[|line| - 1])
    requires env.run(cfg.binaryPath) == ProcOk(line + "\n")
    requires env.decode(line) == Some(Obj(ToPayload(h)))
    requires h.decision == Keep
    ensures Fetch(env, cfg) == h
    ensures Gate(Fetch(env, cfg).decision, s) == Ok(Run)
    ensures JobCount(GateEffects(Fetch(env, cfg).decision, s)) == 1
  {
    FetchSingleLine(env, cfg, line);
    FromPayloadRoundTrip(h);
    assert DecodeObject(env.decode, line) == Ok(ToPayload(h));
    assert FromLine(env.decode, line) == Ok(h);
    OtherDecisionsRun(h.decision, s);
  }
}
