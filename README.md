# Pump.fun monitor client: a verified model of its SSE session core

The Pump.fun monitor client keeps a Server-Sent Events subscription open to an Apify
Standby server and prints, counts and saves the trading events it receives. This
project models in Dafny the logic that decides what the client does with the stream:

- **the SSE line decoder and event assembler**: `SSEClient.parse_sse_line` and `listen_stream`;
- **the connection liveness bookkeeping** of `SSEClient`: the data and health-check clocks,
  staleness, and the effects of connecting and probing;
- **the session loop**: `PumpMonitorClient._run_sse_monitor` with `handle_sse_event`,
  the counters of `StatsManager`, and the `GracefulShutdown` flag;
- **configuration**: the `PumpMonitorConfig` dataclass, its output-file default, `validate`
  and `is_valid`, the endpoint table, and the command-line overrides and exit code of `main.py`.

Modules:

| module | file | what it holds |
|---|---|---|
| `Wrappers` | Wrappers.dfy | `Option` |
| `PyStr` | PyStr.dfy | Python's `str.isspace` set, `strip`, `startswith` and `replace` |
| `JsonModel` | Json.dfy | JSON values, the three outcomes of `json.loads`, `dict.get` |
| `SseWire` | SseWire.dfy | `parse_sse_line`, and the assembler as a fold over lines, with its lemmas |
| `Session` | Session.dfy | value-level meaning of the liveness fields, the counters, event dispatch, one open stream (`Stream`, one event at a time by `Deliver`) and the reconnect loop (`Run`, one pass at a time by `Attempted`) |
| `SessionFacts` | SessionFacts.dfy | what the source promises of `Stream` and `Run`: retry ceiling, consecutive-failure counting, check order, shutdown, counter consistency |
| `Client` | Client.dfy | the classes `SseClient`, `StatsManager`, `GracefulShutdown` and `PumpMonitorClient`, whose methods are proved to follow `Session` |
| `Config` | Config.dfy | `PumpMonitorConfig` as a class, `validate`, `is_valid` |
| `Cli` | Cli.dfy | `create_config_from_args` and the exit code chosen by `main` |

Inputs the model cannot see are parameters:
- `json.loads` is a function `loads: string -> JsonResult`. It parses, fails with
  `JSONDecodeError`, or raises something else.
- `time.time()` is an integer `now`. There is one `now` per connect attempt and one per
  delivered event, where the source reads the clock several times per event (see
  "## Left out").
- HTTP results are booleans. A connect is refused or answered with a body of lines that
  may end in a read error. A health probe succeeds or fails.
- A shutdown signal is a boolean at each place the loop polls the flag.

The class methods are proved equal to the value functions. `SseClient.ListenStream`
yields exactly `Assemble(lines, loads)`. `PumpMonitorClient.RunSseMonitor` ends in the
connection state, counters, stopping reason and retry counter that `Session.Run`
computes. The connection also keeps a ghost field `SseClient.trace`, the record of what was
done on it. Each act is appended by the method that performs it:
- `ConnectStream` appends the request's outcome.
- `PerformHealthCheck` appends the probe's outcome.
- `PumpMonitorClient.HandleSseEvent` appends the dispatch.
- `PumpMonitorClient.ReconnectDelay` appends the delay.

The loop methods are proved to extend the trace by exactly the log that `Session.Run`
computes. A loop that made an extra request, or skipped one, would therefore fail to
verify. So every lemma about `Run` in `SessionFacts` describes `_run_sse_monitor`
itself, including those about the order and number of its acts. One pass of each loop
has its own method: `DeliverEvent` follows `Session.Deliver`, and `AttemptConnection`
follows `Session.Attempted`.

Where the code and the behaviour one might expect from the SSE format differ, the model
follows the code:
- A `:` comment line, and any line with an unknown field, ends the pending event just as
  a blank line does. Section 9.2.6 of the WHATWG HTML Living Standard ignores comments.
- The prefixes must match exactly, space included. `event:x` is an unknown field.
- A stale or health-failed stream reconnects at once, with no delay, and the retry
  counter is not raised.
- A read error in the middle of the body is caught inside `listen_stream`. The loop just
  reconnects at once, with no delay. The error is not counted against the retry ceiling,
  because the connect that preceded it reset the counter.
- Right after a successful connect no health check is due, because the connect records
  the health clock too.
- The data clock is refreshed by the event handler, after the staleness check. So the
  first event after a long gap is dropped and triggers a reconnect.

## Model

| member | source | states |
|---|---|---|
| PyStr.StripLeft | client.py:304 | the leading run of Python whitespace is removed, and only that: the result is a suffix of the input and does not start with whitespace |
| PyStr.StripRight | client.py:304 | the trailing run of Python whitespace is removed, and only that: the result is a prefix of the input and does not end with whitespace |
| PyStr.Strip | client.py:304 | `str.strip()`: the result is no longer than the input and neither starts nor ends with whitespace |
| PyStr.StripPadded | client.py:304 | stripping a whitespace-free core padded by whitespace on both sides gives back the core exactly |
| PyStr.StripLeftPadded | client.py:304 | stripping the left of whitespace followed by a non-space text gives back the text |
| PyStr.StripRightPadded | client.py:304 | stripping the right of a text followed by whitespace gives back the text |
| PyStr.StripBlank | config.py:62-66 | `not s.strip()` holds exactly when every character of `s` is Python whitespace (the empty string included) |
| PyStr.StripNonBlank | config.py:62-63 | a string whose first character is not whitespace is not blank after `strip()` |
| PyStr.Replace | config.py:51 | `str.replace` of one character: same length, every occurrence of the old character becomes the new one, every other character is kept in place |
| SseWire.ParseSseLine | client.py:290-320 | empty and `:` lines give nothing; an event token exactly when the line starts with `event: `, an id token exactly when it starts with `id: `, a data token exactly when it starts with `data: ` and `json.loads` does not raise anything other than a decode error |
| SseWire.ParseEventLine | client.py:303-304 | an `event: ` line yields its name, whatever whitespace pads it |
| SseWire.ParseIdLine | client.py:313-314 | an `id: ` line yields its id, whatever whitespace pads it |
| SseWire.ParseDataLine | client.py:305-312 | a `data: ` line yields the parsed JSON of its stripped text, the text payload on a decode error, and nothing only when `json.loads` raises another exception |
| SseWire.UnknownFieldIgnored | client.py:299-320 | a line without one of the three exact prefixes is read as nothing, so it ends the pending event |
| SseWire.FeedYieldsPending | client.py:334-351 | one iteration of the line loop yields at most one event, and only the pending one, which it clears; a `None` line changes nothing |
| SseWire.ReadGrows | client.py:334-351 | the loop over the body only appends events, at most one per line, so `listen_stream` yields no more events than the body has lines |
| SseWire.ReadAppend | client.py:335-351 | reading a body in two parts gives the same assembler state as reading it whole |
| SseWire.ReadKeepsEmitted | client.py:338-344 | events already yielded are never changed; what follows depends only on the pending event |
| SseWire.FlushYieldsPending | client.py:338-344 | a line read as nothing yields the pending event once and clears it; with nothing pending it yields nothing |
| SseWire.EventLineDiscardsPending | client.py:346-347 | an `event: ` line starts a fresh event and discards an unflushed one |
| SseWire.StrayFieldDropped | client.py:348-351 | with no pending event, `data: ` and `id: ` lines change nothing |
| SseWire.FieldsFill | client.py:348-351 | data and id lines fill the pending event in place, the last of each kind winning |
| SseWire.FrameYieldsOneEvent | client.py:335-351 | an `event: ` line, field lines and a terminating line yield exactly one event with that name, the last data and the last id |
| SseWire.FramesIndependent | client.py:338-344 | after a terminating line nothing is pending, so the lines before and after it are assembled independently |
| SseWire.FeedKeepsNames | client.py:346-351 | one line keeps every held event named by an `event: ` line read so far |
| SseWire.DeclaredNamesGrow | client.py:346-347 | reading one more line only adds declared names: the new one when it is an `event: ` line |
| SseWire.NamedFromWiden | client.py:335-351 | the naming invariant survives a larger set of names |
| SseWire.EventsAreDeclared | client.py:335-351 | every yielded or pending event carries a name declared by an `event: ` line of the body |
| SseWire.SimpleFrame | client.py:335-351 | an `event: `, a JSON `data: ` and a blank line yield that one event with the decoded payload and no id |
| SseWire.OneDataField | client.py:305-310 | one JSON `data: ` line is a field line whose payload is the decoded value and which sets no id |
| Session.Link.Connect | client.py:247-270 | a success marks the link connected and sets both clocks to `now`; a failure only marks it disconnected |
| Session.Link.Probe | client.py:223-245 | only a successful probe records its time; a failed one changes nothing |
| Session.Link.IsStale | client.py:272-284 | `is_connection_stale`: never stale at or before the last data time (with a non-negative timeout) |
| Session.Link.NeedsHealthCheck | client.py:211-221 | `needs_health_check`: due whenever no probe time is recorded, and not due at or before a recorded (non-zero) probe time |
| Session.Counters.Add | client.py:95-103 | one more event in all and one more of this kind; the other kinds are unchanged |
| Session.AddKeepsConsistent | client.py:101-103 | `add_event` keeps `total_events` equal to the sum of `event_counts` |
| Session.NoCountsConsistent | client.py:89-90 | a fresh manager is consistent |
| Session.SumRemove | client.py:101-103 | the sum of the counts splits at any one kind |
| Session.HandleEvent | client.py:384-425 | the data clock becomes `now`; `connected` with an object stores its `connection_id` (a non-object leaves it); `connected` and `ping` are not counted, every other name is counted once |
| Session.Deliver | client.py:507-532 | checks in order shutdown, staleness, health, then dispatch: a signal stops with no action; a stale link stops with no action; a due health check whose probe fails stops after that one probe; the event goes on exactly when none of these stops it; a name is dispatched exactly when it is not empty |
| Session.DeliverSteps | client.py:519-530 | an event that passes the shutdown and staleness checks, and whose due probe (if any) succeeds, probes only when a check is due and before the dispatch; the dispatch is `HandleEvent` applied to the probed link, and an unnamed event changes only what the probe recorded |
| Session.Ceiling | client.py:488-492 | `max(1, max_retries)`: equal to `max_retries` when it is positive and 1 otherwise |
| SessionFacts.StaleThreshold | client.py:272-284 | staleness is strict: at exactly `stream_timeout` the link is live, one unit later stale, and it stays stale |
| SessionFacts.ClocksAfterConnect | client.py:211-221 | after a successful connect a health check is due, and the link is stale, exactly when strictly more than the interval has passed; neither holds at once |
| SessionFacts.HealthCheckDueUntilRecorded | client.py:217-218 | a client that has never connected or probed wants a health check, and a failed probe leaves it wanting one |
| SessionFacts.DispatchRules | client.py:393-409 | `ping` only refreshes the data clock, `connected` is not counted, any other name is counted once |
| SessionFacts.CountedAppend | client.py:531-532 | the number of counted dispatches adds up over concatenated logs |
| SessionFacts.StreamCounts | client.py:507-532 | one stream keeps counter consistency and raises the total by exactly the counted dispatches |
| SessionFacts.PassShape | client.py:486-500 | one pass of the outer loop: a refused connect raises the count by one, gives up exactly when it reaches `max_retries` and otherwise logs its delay; an answered connect resets the count to 0 and is followed only by probes and dispatches; either way every delay follows a refusal, and the counters stay consistent and grow by the counted dispatches |
| SessionFacts.RunCounts | client.py:480-546 | the whole session keeps counter consistency and raises the total by exactly the counted dispatches |
| SessionFacts.ShutdownAtTop | client.py:482-484 | a shutdown seen at the top of the loop stops it before any request, with nothing changed |
| SessionFacts.ShutdownInStream | client.py:509-511 | a shutdown seen before event j: the stream ends as if only the events before j existed, and nothing from j on is probed or dispatched |
| SessionFacts.StaleEventDropped | client.py:514-517 | an event seen on a stale link is not dispatched and leaves the state unchanged; the stream ends as stale |
| SessionFacts.HealthFailedEndsStream | client.py:519-524 | an event that finds a health check due and the probe failing is not dispatched: the stream ends as health-failed after that one probe, with the state unchanged |
| SessionFacts.StreamShape | client.py:507-538 | the inner loop costs at most a probe and a dispatch per event, and never changes the `connected` flag |
| SessionFacts.StreamLogActs | client.py:507-532 | a stream only probes and dispatches: no connects and no delays |
| SessionFacts.SleepsConcat | client.py:494-497 | the rule that every delay follows a refused connect survives concatenation |
| SessionFacts.RunSleepsFollowRefusals | client.py:488-497 | every reconnect delay directly follows a refused connect, so stale, health-failed, drained or broken streams reconnect at once; every log starts with a connect |
| SessionFacts.TrailingRefusalsAppend | client.py:488-500 | the count of refusals since the last successful connect, over a concatenated log |
| SessionFacts.FailuresAreConsecutive | client.py:488-500 | the retry counter is the number of refused connects since the last successful one |
| SessionFacts.PassRefusals | client.py:486-500 | one pass keeps the meaning of the retry counter: the count after the pass accounts for the rest of the log exactly as the count before it accounts for the pass's acts followed by that rest |
| SessionFacts.StreamNoRefusals | client.py:507-532 | a stream's log contains no connect, so it neither raises nor resets the retry counter |
| SessionFacts.RetryCeiling | client.py:488-492 | the counter never exceeds `max(1, max_retries)`, and the loop gives up exactly when it reaches it |
| SessionFacts.RunGivesUpAfterRefusal | client.py:476-497 | the loop gives up only right after a refused connect, with the count at least `max_retries` and at least one |
| SessionFacts.RefusalsExhaust | client.py:488-492 | enough refusals in a row, with no shutdown, end the loop at the ceiling without counting anything |
| Client.StatsManager.constructor | client.py:87-93 | no events, no counts, no connections, and consistent |
| Client.StatsManager.AddEvent | client.py:95-103 | the counters become `Counters.Add`, and consistency is kept |
| Client.StatsManager.UpdateConnectionCount | client.py:105-112 | the connection gauge becomes the given count, nothing else changes |
| Client.SseClient.constructor | client.py:157-176 | no connection id, data clock at construction time, no health check recorded, not connected, nothing done yet |
| Client.SseClient.NeedsHealthCheck | client.py:211-221 | on the fields of the client, the same answer as `Link.NeedsHealthCheck` on its snapshot with the configured interval |
| Client.SseClient.IsConnectionStale | client.py:272-284 | on the fields of the client, the same answer as `Link.IsStale` on its snapshot with the configured stream timeout |
| Client.SseClient.PerformHealthCheck | client.py:223-245 | the result is the probe outcome, the fields change as `Link.Probe` says, and the probe and its outcome are recorded in the trace |
| Client.SseClient.ConnectStream | client.py:247-270 | a response is returned exactly when the server accepts, the fields change as `Link.Connect` says, and the request and its outcome are recorded in the trace |
| Client.SseClient.UpdateDataTime | client.py:286-288 | only the data clock changes, to `now` |
| Client.SseClient.ListenStream | client.py:322-351 | the events yielded, in order, are exactly those of the assembler over the body's lines |
| Client.SseClient.StreamBroke | client.py:353-355 | a read error marks the link disconnected, nothing else changes |
| Client.GracefulShutdown.constructor | client.py:562-564 | no shutdown requested |
| Client.GracefulShutdown.SignalHandler | client.py:569-577 | the shutdown flag is set |
| Client.GracefulShutdown.ShouldShutdown | client.py:579-585 | reports the flag, which only the signal handler sets (cleared at construction, set after `SignalHandler`) |
| Client.PumpMonitorClient.constructor | client.py:365-382 | a fresh connection and a fresh consistent statistics manager sharing this configuration; running |
| Client.PumpMonitorClient.HandleSseEvent | client.py:384-425 | connection and counters change exactly as `HandleEvent` says, consistency is kept, and the dispatch is recorded in the trace |
| Client.PumpMonitorClient.ReconnectDelay | client.py:494-496 | the reconnect delay is recorded in the trace; nothing else changes |
| Client.PumpMonitorClient.ReadEvents | client.py:507-538 | the inner loop ends in the state and with the reason `Stream` gives, and the trace grows by exactly the probes and dispatches of `Stream`'s log, in order; it sets the shutdown flag exactly when it stops for it |
| Client.PumpMonitorClient.DeliverEvent | client.py:507-530 | one event of the inner loop: the state after it, the acts added to the trace (a probe when one is due, a dispatch when the event is named) and whether and why the stream is left are those of `Deliver`; the flag is set exactly when it stops for shutdown |
| Client.PumpMonitorClient.ServeStream | client.py:505-538 | one answered connect: the state after it, the reason and the probes and dispatches added to the trace are those of `Stream` over the events `Assemble` gives for the body, with the link marked down when the body breaks after its last event; the flag is set exactly when it stopped for shutdown |
| Client.PumpMonitorClient.RunSseMonitor | client.py:470-546 | the final connection state, counters, reason for stopping, `connection_attempts` and the connects, delays, probes and dispatches added to the trace, in order, are those of `Run`; the flag is set exactly when it was set before or the loop stopped for it; consistency is kept |
| Client.PumpMonitorClient.AttemptConnection | client.py:486-538 | one pass of the outer loop after its shutdown check: the connection state, counters, new `connection_attempts` and the acts added to the trace are those of `Attempted`, and the loop is left exactly when `Attempted` says so, for the reason it gives; the flag is set exactly when it stopped for shutdown |
| Config.EndpointTablesAgree | config.py:71-129 | the endpoints listed and the endpoints accepted are the same six |
| Config.Report | config.py:60-77 | one check appends its issue exactly when it fails, keeping the issues in check order |
| Config.BlankUrlHasNoScheme | config.py:65-69 | a blank server URL also fails the scheme check, so it gets both issues |
| Config.MessageSeverity | config.py:62-77 | an issue's text starts with `ERROR: ` exactly when it is an error, and otherwise with `WARNING: ` |
| Config.ErrorKinds | config.py:62-77 | the errors are the blank token, the blank URL and the unknown endpoint; the scheme and timeout issues are warnings |
| Config.ErrorIffMisconfigured | config.py:60-79 | the issues `validate` returns include an error exactly when the token or the URL is blank or the endpoint is not one of the six |
| Config.NoIssuesIffAcceptable | config.py:81-86 | no issue at all exactly when the token is not blank, the URL has an http(s) scheme, the endpoint is one of the six and the timeout is at least 5 |
| Config.DefaultsAcceptable | config.py:20-25 | the built-in defaults, placeholder token included, pass validation |
| Config.DefaultOutputFile | config.py:50-52 | `pump_data_` + the endpoint with `/` replaced by `_` + `.jsonl`, containing no `/` |
| Config.PumpMonitorConfig.constructor | config.py:11-52 | every field takes its argument; a missing output file is named after the endpoint, a given one is kept |
| Config.PumpMonitorConfig.Validate | config.py:54-79 | each issue is reported exactly when its check fails (a timeout of 5 is accepted), in check order, at most five, and the config is not changed |
| Config.PumpMonitorConfig.IsValid | config.py:81-86 | valid exactly when the settings are acceptable, so a warning alone makes a config invalid |
| Cli.DefaultEndpointOutputFile | config.py:50-52 | the default configuration writes to `pump_data_all.jsonl` |
| Cli.CreateConfigFromArgs | main.py:115-144 | endpoint, token, URL and output file are overridden only by truthy arguments; flags can only switch on (saving only off); the output file follows the default endpoint, not `--endpoint`; the fields without an option keep their defaults |
| Cli.OverrideTarget | main.py:127-132 | endpoint, token and URL are each replaced only by a truthy argument |
| Cli.OverrideSwitches | main.py:133-142 | quiet, debug and raw display only switch on, saving only switches off, and the output file is replaced only by a truthy argument |
| Cli.MainOutcome | main.py:176-229 | listing endpoints exits 0; otherwise the exit code is 1 exactly when validation reports an issue, with or without `--config-check`, and the monitor starts only without `--config-check` and with no issue |
| Cli.NoArgumentsStartsMonitor | main.py:176-229 | with no arguments, validation passes and the monitor starts with the placeholder token |

## Left out

- formatters.py is not part of this model. It does display formatting with floats and wall-clock timestamps.
- `FileManager`, and the saving and printing in `handle_sse_event`, are left out. They are file and console I/O with no effect on the modelled state.
- `StatsManager.get_uptime`, `get_avg_per_minute` and `get_stats` are left out. They are datetime and float arithmetic. The lock around the counters is left out because the model is single-threaded.
- The HTTP layer is reduced to boolean outcomes. This covers the requests session, its headers, `raise_for_status`, `urljoin`, the timeouts and `check_server_health` in `run_monitor`.
- The JSON grammar is not modelled. `json.loads` is an opaque parameter.
- Float timestamps and `time.sleep` are replaced by integer clock readings and a delay that has no state effect.
- Signal registration and asynchronous delivery are not modelled. A signal is an input at each poll point.
- `last_stats_time` and `print_stats` in `_run_sse_monitor` are left out. Printing statistics has no effect on the modelled state.
- `print_summary`, `setup_logging`, `print_available_endpoints`, `print_banner` and `parse_arguments` are left out as console and argument-parsing plumbing.
- The rest of `main`, and `__init__.py`, are left out as plumbing.
- Client.PumpMonitorClient.RunSseMonitor: `self.running` is never cleared. The source loop therefore runs until a shutdown or the retry ceiling. The model runs over a finite list of attempts and reports `InputEnded` when the list is exhausted.
- Client.PumpMonitorClient.RunSseMonitor: always has a shutdown handler. Passing `None` behaves like a handler whose flag is never set.
- Client.PumpMonitorClient.RunSseMonitor: the outer handlers `except Exception` (client.py:540-546 and 551-553) are not modelled. No modelled step raises, because `listen_stream` and `handle_sse_event` catch their own errors. `KeyboardInterrupt` is modelled as the shutdown signal.
- Client.SseClient.trace: the source keeps no such record. The trace exists only for the proofs. It says which requests, delays and dispatches happen, not how long each takes.
- Client.SseClient.ListenStream: the model reads the whole body into a list of events, where the source generator yields them one at a time while the loop runs. The interleaving is kept through the inputs: each event comes with its own poll, and the read-error effect (`StreamBroke`) is applied only when the loop has taken every event.
- Session.Deliver: the source reads `time.time()` up to five times for one delivered event. These are the staleness check (client.py:278), the health-due check (client.py:220), the probe record taken after the request returns (client.py:240), the data refresh (client.py:288) and the statistics timer (client.py:535). The model merges them into the event's one `now`, so the recorded probe time and data time equal the staleness-check time, and the time a probe takes (up to its 5-second timeout) is not seen.
- Client.PumpMonitorClient.HandleSseEvent: `data.get("endpoint")` only feeds a print, so it is left out.
- Cli.MainOutcome: the catch-all `except Exception` of `main`, which returns 1, is left out. Nothing modelled raises.
