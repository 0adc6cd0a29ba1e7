/**
 * The meaning of the client's session logic, as values: the liveness fields of an
 * `SSEClient`, the counters of a `StatsManager`, what `handle_sse_event` does to
 * them, one pass over an open stream, and the reconnect loop of
 * `PumpMonitorClient._run_sse_monitor`. The classes in module Client are proved to
 * follow these functions; the lemmas here state what the source promises of them.
 *
 * Time is an integer `now` read at each poll point (one connect attempt, one
 * delivered event). Network outcomes, the shutdown signal and `json.loads` are inputs.
 */
module Session {
  import opened Wrappers
  import opened JsonModel
  import opened SseWire

  // ---------------------------------------------------------------------------
  // Connection liveness (the fields of SSEClient).
  // ---------------------------------------------------------------------------

  /** `connection_id`, `last_data_time`, `last_health_check` (None until set) and `connected`. */
  datatype Link = Link(connectionId: Option<Json>, lastDataTime: int, lastHealthCheck: Option<int>, connected: bool)
  {
    /** `is_connection_stale`: strictly more than `streamTimeout` since the last data. */
    predicate IsStale(now: int, streamTimeout: int)
      ensures streamTimeout >= 0 && now <= lastDataTime ==> !IsStale(now, streamTimeout)
    {
      now - lastDataTime > streamTimeout
    }

    /** `needs_health_check`: no probe time recorded (None, or the falsy 0), or strictly
        more than `interval` since it. */
    predicate NeedsHealthCheck(now: int, interval: int)
      ensures lastHealthCheck.None? ==> NeedsHealthCheck(now, interval)
      ensures lastHealthCheck.Some? && lastHealthCheck.value != 0 && interval >= 0 && now <= lastHealthCheck.value ==>
                !NeedsHealthCheck(now, interval)
    {
      lastHealthCheck.None? || lastHealthCheck.value == 0 || now - lastHealthCheck.value > interval
    }

    /** The state effect of `connect_stream`: a success marks the link connected and
        restarts both clocks at `now`; a failure only marks it disconnected. */
    function Connect(now: int, ok: bool): (l: Link)
      ensures l.connected == ok && l.connectionId == connectionId
      ensures ok ==> l.lastDataTime == now && l.lastHealthCheck == Some(now)
      ensures !ok ==> l.lastDataTime == lastDataTime && l.lastHealthCheck == lastHealthCheck
    {
      if ok then this.(connected := true, lastDataTime := now, lastHealthCheck := Some(now))
      else this.(connected := false)
    }

    /** The state effect of `perform_health_check`: only a successful probe is recorded. */
    function Probe(now: int, ok: bool): (l: Link)
      ensures ok ==> l == this.(lastHealthCheck := Some(now))
      ensures !ok ==> l == this
    {
      if ok then this.(lastHealthCheck := Some(now)) else this
    }
  }

  /** A freshly built SSEClient: the data clock starts at construction time. */
  function NewLink(now: int): Link {
    Link(None, now, None, false)
  }

  // ---------------------------------------------------------------------------
  // Statistics (the counters of StatsManager).
  // ---------------------------------------------------------------------------

  /** `total_events` and the `event_counts` dictionary. */
  datatype Counters = Counters(totalEvents: nat, eventCounts: map<string, nat>)
  {
    /** `add_event`: one more event in all, and one more of kind `name`. */
    function Add(name: string): (c: Counters)
      ensures c.totalEvents == totalEvents + 1
      ensures name in c.eventCounts && c.eventCounts[name] == (if name in eventCounts then eventCounts[name] else 0) + 1
      ensures c.eventCounts.Keys == eventCounts.Keys + {name}
      ensures forall n :: n in eventCounts && n != name ==> c.eventCounts[n] == eventCounts[n]
    {
      Counters(totalEvents + 1, eventCounts[name := (if name in eventCounts then eventCounts[name] else 0) + 1])
    }
  }

  const NoCounts: Counters := Counters(0, map[])

  /** The sum of the per-kind counts. */
  ghost function Sum(m: map<string, nat>): nat
    decreases |m|
  {
    if m == map[] then 0
    else
      var k :| k in m;
      m[k] + Sum(m - {k})
  }

  /** The total agrees with the breakdown. */
  ghost predicate Consistent(c: Counters) {
    c.totalEvents == Sum(c.eventCounts)
  }

  lemma {:induction false} SumRemove(m: map<string, nat>, k: string)
    requires k in m
    ensures Sum(m) == m[k] + Sum(m - {k})
    decreases |m|
  {
    var j :| j in m && Sum(m) == m[j] + Sum(m - {j});
    if j != k {
      assert |m - {j}| < |m| by { assert (m - {j}).Keys == m.Keys - {j}; }
      SumRemove(m - {j}, k);
      assert |m - {k}| < |m| by { assert (m - {k}).Keys == m.Keys - {k}; }
      SumRemove(m - {k}, j);
      assert m - {j} - {k} == m - {k} - {j};
    }
  }

  /** `add_event` keeps `total_events == sum(event_counts.values())`. */
  lemma AddKeepsConsistent(c: Counters, name: string)
    requires Consistent(c)
    ensures Consistent(c.Add(name))
  {
    var m := c.eventCounts;
    var m' := c.Add(name).eventCounts;
    SumRemove(m', name);
    if name in m {
      SumRemove(m, name);
      assert m' - {name} == m - {name};
    } else {
      assert m' - {name} == m;
    }
  }

  lemma NoCountsConsistent()
    ensures Consistent(NoCounts)
  {
  }

  // ---------------------------------------------------------------------------
  // Dispatch (handle_sse_event).
  // ---------------------------------------------------------------------------

  /** What `handle_sse_event(name, data)` does at time `now`. */
  function HandleEvent(link: Link, counters: Counters, name: string, data: Json, now: int): (r: (Link, Counters))
    ensures r.0.lastDataTime == now
    ensures r.0.lastHealthCheck == link.lastHealthCheck && r.0.connected == link.connected
    ensures name == "connected" && data.JObject? ==> r.0.connectionId == Get(data.fields, "connection_id")
    ensures name != "connected" || !data.JObject? ==> r.0.connectionId == link.connectionId
    ensures name == "connected" || name == "ping" ==> r.1 == counters
    ensures name != "connected" && name != "ping" ==> r.1 == counters.Add(name)
  {
    var touched := link.(lastDataTime := now);
    if name == "connected" then
      match data
      case JObject(fields) => (touched.(connectionId := Get(fields, "connection_id")), counters)
      case _ => (touched, counters)  // data.get raises; the handler logs and swallows it
    else if name == "ping" then (touched, counters)
    else (touched, counters.Add(name))
  }

  // ---------------------------------------------------------------------------
  // One open stream (the inner `for event in listen_stream(...)` loop).
  // ---------------------------------------------------------------------------

  /** What the client observes at one poll point: whether the shutdown signal has
      arrived, the clock, and how a health probe made now would end. */
  datatype Poll = Poll(signal: bool, now: int, probeOk: bool)

  /** An externally visible action: a connect request, a health probe, a reconnect
      delay, or a call of `handle_sse_event`. */
  datatype Act = Connect(ok: bool) | Probe(ok: bool) | Sleep | Dispatch(name: string)

  /** The thresholds the session reads from the configuration. */
  datatype Settings = Settings(streamTimeout: int, healthCheckInterval: int, maxRetries: int)

  /** How an open stream was left. */
  datatype StreamEnd = Drained | Stale | HealthFailed | Stopped

  /** The result of handling one delivered event. */
  datatype Delivery =
    | Continue(link: Link, counters: Counters, acts: seq<Act>)
    | Halt(end: StreamEnd, acts: seq<Act>)

  /** One iteration of the inner loop: shutdown check, staleness check, health check,
      then dispatch of a named event. A stale or health-failed stream is left as is. */
  function Deliver(link: Link, counters: Counters, e: Event, p: Poll, cfg: Settings): (d: Delivery)
    ensures p.signal ==> d == Halt(Stopped, [])
    ensures !p.signal && link.IsStale(p.now, cfg.streamTimeout) ==> d == Halt(Stale, [])
    ensures (!p.signal && !link.IsStale(p.now, cfg.streamTimeout) &&
             link.NeedsHealthCheck(p.now, cfg.healthCheckInterval) && !p.probeOk) ==> d == Halt(HealthFailed, [Probe(false)])
    ensures d.Continue? <==> !p.signal && !link.IsStale(p.now, cfg.streamTimeout) &&
                             (p.probeOk || !link.NeedsHealthCheck(p.now, cfg.healthCheckInterval))
    ensures d.Halt? && d.end == HealthFailed ==> d.acts == [Probe(false)]
    ensures d.Continue? && e.name == "" ==> d.counters == counters && d.link.lastDataTime == link.lastDataTime
    ensures d.Continue? ==> (Dispatch(e.name) in d.acts <==> e.name != "")
  {
    if p.signal then Halt(Stopped, [])
    else if link.IsStale(p.now, cfg.streamTimeout) then Halt(Stale, [])
    else if link.NeedsHealthCheck(p.now, cfg.healthCheckInterval) && !p.probeOk then
      Halt(HealthFailed, [Probe(false)])
    else
      var probed := link.NeedsHealthCheck(p.now, cfg.healthCheckInterval);
      var checked := if probed then link.Probe(p.now, true) else link;
      var probes := if probed then [Probe(true)] else [];
      if e.name == "" then Continue(checked, counters, probes)
      else
        var (l, c) := HandleEvent(checked, counters, e.name, e.data.GetOr(JObject(map[])), p.now);
        Continue(l, c, probes + [Dispatch(e.name)])
  }

  /** What an event that passes the checks does: a probe is made only when one is due,
      and before the event is dispatched; the dispatch acts on the probed link. */
  lemma DeliverSteps(link: Link, counters: Counters, e: Event, p: Poll, cfg: Settings)
    requires !p.signal && !link.IsStale(p.now, cfg.streamTimeout)
    requires p.probeOk || !link.NeedsHealthCheck(p.now, cfg.healthCheckInterval)
    ensures var due := link.NeedsHealthCheck(p.now, cfg.healthCheckInterval);
            var d := Deliver(link, counters, e, p, cfg);
            d.Continue? &&
            d.acts == (if due then [Probe(true)] else []) + (if e.name != "" then [Dispatch(e.name)] else []) &&
            (e.name == "" ==> d.link == link.Probe(p.now, due) && d.counters == counters) &&
            (e.name != "" ==> (d.link, d.counters) == HandleEvent(link.Probe(p.now, due), counters, e.name,
                                                                  e.data.GetOr(JObject(map[])), p.now))
  {
  }

  /** The result of reading an open stream. */
  datatype StreamResult = StreamResult(link: Link, counters: Counters, end: StreamEnd, log: seq<Act>)

  /** Handling `events[k..]`, the k-th one observed at `polls(k)`, until one of them
      ends the stream or none is left. */
  function Stream(link: Link, counters: Counters, events: seq<Event>, polls: nat -> Poll, k: nat, cfg: Settings): StreamResult
    requires k <= |events|
    decreases |events| - k
  {
    if k == |events| then StreamResult(link, counters, Drained, [])
    else
      match Deliver(link, counters, events[k], polls(k), cfg)
      case Halt(end, acts) => StreamResult(link, counters, end, acts)
      case Continue(l, c, acts) =>
        var r := Stream(l, c, events, polls, k + 1, cfg);
        r.(log := acts + r.log)
  }

  // ---------------------------------------------------------------------------
  // The reconnect loop (_run_sse_monitor).
  // ---------------------------------------------------------------------------

  /** How one connect request ends: refused, or a response whose body is `lines`,
      ending in a read error when `fails`, whose events are observed at `polls`. */
  datatype ConnectResult =
    | Refused
    | Opened(lines: seq<Option<string>>, fails: bool, polls: nat -> Poll)

  /** One iteration of the outer loop: the shutdown poll at its top, the clock at the
      connect request, and the request's outcome. */
  datatype Attempt = Attempt(signal: bool, now: int, result: ConnectResult)

  /** Why the loop stopped; `InputEnded` marks the end of the attempts modelled, where
      the source would go on looping. */
  datatype Halting = RetriesExhausted | ShutdownRequested | InputEnded

  datatype RunResult = RunResult(link: Link, counters: Counters, failures: nat, halt: Halting, log: seq<Act>)

  /** The most consecutive failed connects the loop makes: `max_retries`, and at least one. */
  function Ceiling(maxRetries: int): (n: nat)
    ensures n >= 1 && n >= maxRetries
    ensures maxRetries >= 1 ==> n == maxRetries
    ensures maxRetries < 1 ==> n == 1
  {
    if maxRetries < 1 then 1 else maxRetries
  }

  /** How one pass of the outer loop ends once its shutdown check has let it through:
      `Again` goes on to the next attempt, `Over` leaves the loop. */
  datatype Pass =
    | Again(link: Link, counters: Counters, failures: nat, acts: seq<Act>)
    | Over(link: Link, counters: Counters, failures: nat, halt: Halting, acts: seq<Act>)

  /** One pass of the outer loop past its shutdown check, with `failures` consecutive
      failed connects behind it: the connect request, then either the failure count,
      the give-up check and the delay, or the stream served to its end. */
  function Attempted(link: Link, counters: Counters, failures: nat, a: Attempt, cfg: Settings, loads: Loads): Pass
  {
    match a.result
    case Refused =>
      var down := link.Connect(a.now, false);
      if failures + 1 >= cfg.maxRetries then Over(down, counters, failures + 1, RetriesExhausted, [Connect(false)])
      else Again(down, counters, failures + 1, [Connect(false), Sleep])
    case Opened(lines, fails, polls) =>
      var s := Stream(link.Connect(a.now, true), counters, Assemble(lines, loads), polls, 0, cfg);
      if s.end == Stopped then Over(s.link, s.counters, 0, ShutdownRequested, [Connect(true)] + s.log)
      else
        // listen_stream's own handler marks the link down when the body fails after
        // the consumer has taken every event; stale and health-failed exits do not.
        var after := if s.end == Drained && fails then s.link.(connected := false) else s.link;
        Again(after, s.counters, 0, [Connect(true)] + s.log)
  }

  /** The outer loop from the state (`link`, `counters`, `failures` consecutive failed
      connects) over `attempts`; `flagged` says the shutdown flag is already set. */
  function Run(link: Link, counters: Counters, failures: nat, attempts: seq<Attempt>, flagged: bool,
               cfg: Settings, loads: Loads): RunResult
    decreases |attempts|
  {
    if attempts == [] then RunResult(link, counters, failures, InputEnded, [])
    else if flagged || attempts[0].signal then RunResult(link, counters, failures, ShutdownRequested, [])
    else
      match Attempted(link, counters, failures, attempts[0], cfg, loads)
      case Over(l, c, f, halt, acts) => RunResult(l, c, f, halt, acts)
      case Again(l, c, f, acts) =>
        var r := Run(l, c, f, attempts[1..], false, cfg, loads);
        r.(log := acts + r.log)
  }

  // ---------------------------------------------------------------------------
  // Stepping through the two loops, one iteration at a time.
  // ---------------------------------------------------------------------------

  /** A stream at event k, having made the acts `done`, ends as `goal` says. */
  ghost predicate StreamFrom(link: Link, counters: Counters, events: seq<Event>, polls: nat -> Poll, k: nat,
                             cfg: Settings, done: seq<Act>, goal: StreamResult)
    requires k <= |events|
  {
    var r := Stream(link, counters, events, polls, k, cfg);
    r.link == goal.link && r.counters == goal.counters && r.end == goal.end && done + r.log == goal.log
  }

  /** One event of the stream: a halt ends it where `goal` says, after the event's acts;
      otherwise the stream goes on from the next event with those acts made. */
  lemma StreamStep(link: Link, counters: Counters, events: seq<Event>, polls: nat -> Poll, k: nat,
                   cfg: Settings, done: seq<Act>, goal: StreamResult)
    requires k < |events| && StreamFrom(link, counters, events, polls, k, cfg, done, goal)
    ensures match Deliver(link, counters, events[k], polls(k), cfg)
            case Halt(end, acts) =>
              link == goal.link && counters == goal.counters && end == goal.end && done + acts == goal.log
            case Continue(l, c, acts) =>
              StreamFrom(l, c, events, polls, k + 1, cfg, done + acts, goal)
  {
    match Deliver(link, counters, events[k], polls(k), cfg)
    case Halt(end, acts) =>
    case Continue(l, c, acts) =>
      var r := Stream(l, c, events, polls, k + 1, cfg);
      assert (done + acts) + r.log == done + (acts + r.log);
  }

  /** The reconnect loop over `rest`, having made the acts `done`, ends as `goal` says. */
  ghost predicate RunFrom(link: Link, counters: Counters, failures: nat, rest: seq<Attempt>, flagged: bool,
                          cfg: Settings, loads: Loads, done: seq<Act>, goal: RunResult)
  {
    var r := Run(link, counters, failures, rest, flagged, cfg, loads);
    && r.link == goal.link && r.counters == goal.counters && r.failures == goal.failures && r.halt == goal.halt
    && done + r.log == goal.log
  }

  /** One pass of the reconnect loop past its shutdown check: leaving the loop ends it
      where `goal` says, after the pass's acts; otherwise the loop goes on over the
      remaining attempts with those acts made. */
  lemma RunStep(link: Link, counters: Counters, failures: nat, rest: seq<Attempt>,
                cfg: Settings, loads: Loads, done: seq<Act>, goal: RunResult)
    requires rest != [] && !rest[0].signal && RunFrom(link, counters, failures, rest, false, cfg, loads, done, goal)
    ensures match Attempted(link, counters, failures, rest[0], cfg, loads)
            case Over(l, c, f, halt, acts) =>
              l == goal.link && c == goal.counters && f == goal.failures && halt == goal.halt && done + acts == goal.log
            case Again(l, c, f, acts) =>
              RunFrom(l, c, f, rest[1..], false, cfg, loads, done + acts, goal)
  {
    match Attempted(link, counters, failures, rest[0], cfg, loads)
    case Over(l, c, f, halt, acts) =>
    case Again(l, c, f, acts) =>
      var r := Run(l, c, f, rest[1..], false, cfg, loads);
      assert (done + acts) + r.log == done + (acts + r.log);
  }
}
