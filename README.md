# Krypton boundary orchestrator — Dafny model

This project models the decision core of the Krypton boundary orchestrator.
The orchestrator gates a job on a health snapshot from the Krypton entropy
health source. The model covers three parts:

- **Health client** (`krypton_client.dfy`, module `KryptonClient`). It
  reaches the health source through the `entropy_health` binary or an HTTP
  `/health` endpoint. It normalises the payload into a `Health` snapshot,
  filling in defaults for missing fields. `fetch` first loads the
  configuration, outside its fail-open `try`: a configuration that fails to
  load makes `fetch` itself raise (`FetchFromFile`,
  `FetchFailsOnBadSleepSeconds`). Once the configuration has loaded, an
  unknown mode or any transport failure gives the fixed stub snapshot
  (1024, 0.5, 0.25, 0.01, "Keep").
  The binary transport uses Python's `str.strip()` and `str.splitlines()`.
  These are modelled in `text.dfy` (module `Text`) over Python's own
  whitespace and line-boundary character sets.
- **Scheduler** (`scheduler.dfy`, module `Scheduler`). `RunOnce` fetches
  one snapshot and maps its decision to an action. "Kill" skips the job.
  "Throttle" backs off, then runs the job; a negative back-off makes
  `time.sleep` raise, and so does one of 2^63 nanoseconds or more
  (about 9.22e9 s) or below -2^63 nanoseconds; the job then does not run
  and no action is returned.
  Anything else runs the job. A configuration error raised by the fetch
  also escapes `run_once`.
  The effects it can observe (the fetch, the back-off, the job invocation)
  are appended in order to the trace of an `EffectLog` object.
- **Configuration** (`config.dfy`, module `Config`). This covers the built-in
  defaults and the per-key fallback that `load_config` applies to a TOML
  table that has already been parsed.

`values.dfy` (module `Values`) holds the dynamically typed values that
`json.loads` and `toml.load` produce. It also models Python's truthiness,
`dict.get`, and the `int()`/`float()` conversions. `wrappers.dfy` holds
`Option` and `Result`. A Python exception becomes an `Err`.

The environment is passed in as an `Env` value. It holds three things: what
running the binary at a path yields (`ProcFailed | ProcOk(stdout)`), what a
GET to a URL yields after `raise_for_status` (`HttpError | HttpOk(body)`),
and the JSON decoder as a partial function. `Fetch` takes the loaded
`[krypton]` configuration as a parameter; `FetchFromFile` and `RunOnce`
take the configuration file's outcome and load it, as `fetch` does with
`load_config()`.

Where the code disagrees with its own declarations and docstrings (the
`Decision` and `KryptonMode` `Literal` annotations at `krypton_client.py:53`
and `config.py:27`, and the `load_config` docstring at `config.py:62-66`),
the model follows the code:

- The decision is not validated. A payload's `decision` value is carried
  through verbatim, whatever it is (`FromPayloadKeepsUnknownDecision`,
  `FetchPassesUnknownDecision`). Non-string values are included. The
  scheduler runs the job at once and reports "run" for every value except
  the exact strings "Kill" and "Throttle".
- `load_config`'s docstring says a file that cannot be parsed yields the
  defaults. The code does not catch the TOML error, so the model returns
  `Err(ParseFailed)`. A truthy section that is not a table (for example
  `krypton = "x"`) has no `.get` and also raises. The model returns
  `Err(SectionNotATable)`.
- `mode`, `binary_path` and `http_url` are stored as found, whatever their
  type. Only the string "binary" or "http" selects a transport.

## Model

| member | source | states |
|---|---|---|
| Values.Get | src/boundary_orchestrator/krypton_client.py:78-82 | `d.get(key, default)` is the stored value when the key is present and the default otherwise |
| Values.AsInt | src/boundary_orchestrator/krypton_client.py:78 | `int(x)` succeeds exactly on ints, floats and booleans; ints unchanged, floats truncated toward zero, booleans as 0/1 |
| Values.AsFloat | src/boundary_orchestrator/krypton_client.py:79-81 | `float(x)` succeeds exactly on floats, booleans and ints below the double overflow bound 2^1024 - 2^970 in magnitude; ints and floats keep their value, booleans as 0.0/1.0 |
| Values.Truncate | src/boundary_orchestrator/krypton_client.py:78 | `int()` of a float truncates toward zero: the result lies within 1 of the input, on the zero side |
| Text.TrimStart | src/boundary_orchestrator/krypton_client.py:104 | leading strip leaves a suffix whose dropped prefix is all whitespace and which does not start with whitespace |
| Text.TrimEnd | src/boundary_orchestrator/krypton_client.py:104 | trailing strip leaves a prefix whose dropped tail is all whitespace and which does not end with whitespace |
| Text.TrimmedEmptyIffAllSpace | src/boundary_orchestrator/krypton_client.py:104-106 | stripping both ends leaves nothing if and only if the text is entirely whitespace |
| Text.Strip | src/boundary_orchestrator/krypton_client.py:104 | `strip()` is empty exactly on all-whitespace text; otherwise it neither starts nor ends with whitespace and is a slice of the input with only whitespace on either side |
| Text.LastLine | src/boundary_orchestrator/krypton_client.py:109 | the last line is a suffix without line breaks, preceded by a break whenever it is not the whole text |
| Text.SplitLines | src/boundary_orchestrator/krypton_client.py:109 | `splitlines()` is empty exactly on empty text, no element holds a line break, and on text that does not end in a break the last element is the text after the last break |
| Text.StripAroundWord | src/boundary_orchestrator/krypton_client.py:104 | stripping text that ends in a word and trailing whitespace keeps the word and drops only the leading whitespace before it |
| Text.LastLineIgnoresEarlierLines | src/boundary_orchestrator/krypton_client.py:104-109 | after stripping, the last line of `earlier + break + last + trailing whitespace` is `last`, whatever `earlier` is |
| Config.DefaultConfig | src/boundary_orchestrator/config.py:48-58 | defaults are mode "binary", path "entropy_health", URL "http://127.0.0.1:3000/health", back-off 0.5 |
| Config.Section | src/boundary_orchestrator/config.py:79-80 | an absent or falsy section reads as empty, a table section as its keys; the only failure is a truthy non-table |
| Config.LoadConfig | src/boundary_orchestrator/config.py:61-94 | a missing file gives exactly the defaults, an unparseable file is a parse failure, and a parsed table fails only on a section or the back-off |
| Config.EmptyTableGivesDefaults | src/boundary_orchestrator/config.py:79-94 | a parsed table with no keys gives exactly the default configuration |
| Config.FalsySectionIsEmpty | src/boundary_orchestrator/config.py:79-80 | a falsy section loads exactly as if it were absent |
| Config.KryptonKeysVerbatimOrDefault | src/boundary_orchestrator/config.py:82-86 | each `[krypton]` key present is taken verbatim, unvalidated, and each absent key takes its default |
| Config.SleepSecondsVerbatimOrDefault | src/boundary_orchestrator/config.py:88-92 | on any table that loads, the back-off is `float` of the `[scheduler]` value, or 0.5 when the key or the section is absent |
| Config.LoadConfigErrors | src/boundary_orchestrator/config.py:75-92 | loading fails exactly on an unparseable file, a truthy non-table section, or an unconvertible back-off |
| KryptonClient.StubHealth | src/boundary_orchestrator/krypton_client.py:65-73 | the stub is samples 1024, mean 0.5, variance 0.25, jitter 0.01, decision "Keep" |
| KryptonClient.FromPayload | src/boundary_orchestrator/krypton_client.py:76-83 | succeeds exactly when every numeric field present converts; present fields are converted, absent ones become 0 / 0.0 / "Keep", the decision is copied unchecked |
| KryptonClient.FromPayloadRoundTrip | src/boundary_orchestrator/krypton_client.py:76-83 | normalising the flat payload of a snapshot gives back that snapshot |
| KryptonClient.FromPayloadIgnoresOtherKeys | src/boundary_orchestrator/krypton_client.py:76-83 | two payloads agreeing on the five health keys normalise alike, so every other key is ignored |
| KryptonClient.FromEmptyPayload | src/boundary_orchestrator/krypton_client.py:76-83 | an empty payload gives samples 0, 0.0 for the floats and decision "Keep" |
| KryptonClient.FromPayloadKeepsUnknownDecision | src/boundary_orchestrator/krypton_client.py:82 | any decision value, known or not, is passed through verbatim |
| KryptonClient.DecodeObject | src/boundary_orchestrator/krypton_client.py:108-114 | a decode failure and a non-object are failures; success exactly when the text decodes to an object, whose fields are returned |
| KryptonClient.FetchViaBinary | src/boundary_orchestrator/krypton_client.py:86-116 | a failed process is a failure; "no output" exactly when stdout is empty or all whitespace; otherwise the result of the last line of the stripped output |
| KryptonClient.FromOutput | src/boundary_orchestrator/krypton_client.py:104-116 | "no output" exactly on all-whitespace output; otherwise decoding and normalising the last line of the stripped output |
| KryptonClient.FromLine | src/boundary_orchestrator/krypton_client.py:110-116 | an undecodable line and a non-object are failures; an object is normalised as a flat payload; no other failure |
| KryptonClient.FetchViaHttp | src/boundary_orchestrator/krypton_client.py:119-144 | an HTTP error and an undecodable body are failures; success only for a body that decodes to an object; failures are HTTP, decode, non-object or a bad field |
| KryptonClient.Fetch | src/boundary_orchestrator/krypton_client.py:155-171 | the stub for an unknown mode; for "binary" or "http", the selected transport's snapshot unchanged when it succeeds and the stub when it fails |
| KryptonClient.FetchFromFile | src/boundary_orchestrator/krypton_client.py:147-171 | fails exactly when the configuration fails to load, with that error; otherwise the fetch under the loaded `[krypton]` configuration |
| KryptonClient.FetchFailsOnBadSleepSeconds | src/boundary_orchestrator/krypton_client.py:153 | a back-off on which `float` raises TypeError (null, an array, a table) makes the fetch itself fail, not fall back to the stub |
| KryptonClient.BinaryIgnoresEarlierLines | src/boundary_orchestrator/krypton_client.py:104-109 | lines before the last one, and whitespace after it, have no effect on the binary transport's result |
| KryptonClient.FetchSingleLine | src/boundary_orchestrator/krypton_client.py:97-116 | binary output of one line plus a newline is fetched as that line's normalised payload, or the stub if it fails |
| KryptonClient.BinaryNonObjectFails | src/boundary_orchestrator/krypton_client.py:113-114 | a last line that decodes to a non-object is a failure |
| KryptonClient.BinaryUsesTopLevel | src/boundary_orchestrator/krypton_client.py:116 | the binary transport always normalises the top-level object, never a nested `krypton` |
| KryptonClient.HttpNonObjectFails | src/boundary_orchestrator/krypton_client.py:135-136 | an HTTP body that decodes to a non-object is a failure |
| KryptonClient.HttpShapeSelection | src/boundary_orchestrator/krypton_client.py:139-144 | a nested `krypton` object is normalised on its own; otherwise the top-level object is |
| KryptonClient.HttpOuterKeysIgnored | src/boundary_orchestrator/krypton_client.py:139-141 | envelopes around the same nested `krypton` object give the same snapshot, whatever their other keys |
| KryptonClient.FetchUnknownMode | src/boundary_orchestrator/krypton_client.py:160-165 | a mode other than "binary"/"http" gives the stub under every environment, so no transport matters |
| KryptonClient.FetchFailOpen | src/boundary_orchestrator/krypton_client.py:155-171 | a failure of the selected transport gives the stub; a success is returned unchanged |
| KryptonClient.FetchUsesOnlySelectedTransport | src/boundary_orchestrator/krypton_client.py:156-159 | binary mode does not depend on the HTTP transport, nor HTTP mode on the binary |
| KryptonClient.StubIsConstantAndSane | src/boundary_orchestrator/krypton_client.py:65-73 | two stubs are equal and the stub satisfies the sanity bounds the client test asserts |
| KryptonClient.FetchSaneOnFailure | tests/test_krypton_client.py:5-23 | whenever the stub is served, the fetched snapshot satisfies the tested bounds |
| KryptonClient.FetchPassesUnknownDecision | src/boundary_orchestrator/krypton_client.py:139-144 | a producer's unknown decision reaches the caller unchanged, so a fetched snapshot need not be sane |
| KryptonClient.NestedShapeExample | src/boundary_orchestrator/krypton_client.py:24-37 | the nested example envelope yields the inner snapshot (5, 0.1, 0.0, 0.0, "Throttle") |
| Scheduler.Action.Name | src/boundary_orchestrator/scheduler.py:28-31 | the reported action is one of "run", "throttled", "skipped", and each action has its own name: "skipped" for Skipped, "throttled" for Throttled, "run" for Run |
| Scheduler.Gate | src/boundary_orchestrator/scheduler.py:42-50 | "skipped" exactly for "Kill", "throttled" exactly for "Throttle" with a back-off `time.sleep` accepts (at least 0 and below 2^63 ns), a `time.sleep` failure exactly for "Throttle" with any other back-off (OverflowError from 2^63 ns or below -2^63 ns, ValueError for the negative delays in between), "run" exactly otherwise |
| Scheduler.GateEffects | src/boundary_orchestrator/scheduler.py:42-50 | at most a back-off of the configured time followed by the job; effects occur exactly when an action other than "skipped" is reported |
| Scheduler.SleepSeconds | src/boundary_orchestrator/scheduler.py:33-37 | without a scheduler configuration the default back-off 0.5 is used, otherwise the given one |
| Scheduler.KillSkipsJob | src/boundary_orchestrator/scheduler.py:42-43 | "Kill" gives "skipped" and no job invocation |
| Scheduler.ThrottleSleepsThenRuns | src/boundary_orchestrator/scheduler.py:44-47 | "Throttle" with a back-off of at least 0 and below 2^63 ns gives a back-off of the configured time, then exactly one job invocation, reported as "throttled" |
| Scheduler.ThrottleNegativeSleepRaises | src/boundary_orchestrator/scheduler.py:44-45 | "Throttle" with a negative back-off of at least -2^63 ns raises ValueError from `time.sleep`: no back-off, no job, no action |
| Scheduler.ThrottleHugeSleepRaises | src/boundary_orchestrator/scheduler.py:44-45 | "Throttle" with a back-off of 2^63 ns or more, or below -2^63 ns, raises OverflowError from `time.sleep`: no back-off, no job, no action |
| Scheduler.OtherDecisionsRun | src/boundary_orchestrator/scheduler.py:48-50 | any other decision, known or not, gives exactly one job invocation and no back-off, reported as "run" |
| Scheduler.JobAtMostOnce | src/boundary_orchestrator/scheduler.py:42-50 | the job runs at most once, and exactly when an action other than "skipped" is reported; a back-off happens exactly when "throttled" is; no extra fetch |
| Scheduler.RunOnce | src/boundary_orchestrator/scheduler.py:21-52 | a configuration error from the fetch is raised with the trace unchanged; otherwise fetches once, appends the fetch then the decision's effects, and returns the snapshot unchanged with its action, or the sleep failure; the job count grows by 1 exactly when an action other than "skipped" is returned |
| Scheduler.BinaryKeepEndToEnd | src/boundary_orchestrator/scheduler.py:39-50 | a binary printing one Keep snapshot line yields that snapshot, action "run", and one job invocation |

## Left out

- Process spawning, `check=True` exit handling, `requests.get` with its 1 s timeout and `raise_for_status` are foreign calls. They appear only as the outcomes `Env.run` and `Env.get` return.
- `json.loads` / `resp.json()` are not modelled as parsers. They are the given partial function `Env.decode`.
- Reading the configuration file (the existence check, open, `toml.load`) is I/O. Its result is given as `Missing`, `Unparseable` or `Parsed(table)`.
- The stderr diagnostics of `fetch` are not modelled.
- `time.sleep` is not timed. The requested delay is recorded as a `Slept` event in the trace. Its `OverflowError` on a delay outside [-2^63, 2^63) ns, checked first, and its `ValueError` on a negative delay inside that range are modelled. The bounds are exact in real arithmetic; the rounding of the delay to a double and to whole nanoseconds near those bounds is not modelled, and NaN delays are not representable.
- The job is opaque. Its invocation is recorded as a `JobInvoked` event, and any exception it raises is not modelled.
- Values.AsInt: text that Python's `int()` would parse (such as `"12"`) is treated as a conversion failure. String parsing is library behaviour outside the model.
- Values.AsFloat: likewise for numeric text. The `OverflowError` on integers of magnitude 2^1024 - 2^970 or more is modelled, but the rounding of a large integer below that bound to the nearest double is not, and NaN/infinity are not represented.
- Floats are modelled as `real`. No arithmetic is done on them, but literals such as 0.01 are exact here and rounded to a double in Python.
- TOML date/time values are not represented in `Values.Value`.
- `cli.py` (argument parsing, version text, JSON printing) and `dummy_job` are not part of this model.
