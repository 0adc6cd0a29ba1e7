/**
 * The client's objects as they change in place: `SSEClient`, `StatsManager`,
 * `PumpMonitorClient` and `GracefulShutdown`. Every method is proved to move its
 * object(s) exactly as the value-level functions of module Session say, so the
 * lemmas proved there about Session.Run hold of `_run_sse_monitor` as well. The
 * requests made and the events dispatched are recorded, as they happen, in the ghost
 * field `SseClient.trace` by the methods that make them.
 */
module Client {
  import opened Wrappers
  import opened JsonModel
  import opened SseWire
  import opened Session
  import opened Config

  /** `StatsManager`: the running totals (start time and lock are not modelled). */
  class StatsManager {
    var totalEvents: nat
    var eventCounts: map<string, nat>
    var connections: int

    /** The counters as a value. */
    function Snapshot(): Counters
      reads this
    {
      Counters(totalEvents, eventCounts)
    }

    /** The total equals the sum of the per-kind counts. */
    ghost predicate Valid()
      reads this
    {
      Consistent(Snapshot())
    }

    constructor ()
      ensures Snapshot() == NoCounts && connections == 0
      ensures Valid()
    {
      totalEvents := 0;
      eventCounts := map[];
      connections := 0;
      NoCountsConsistent();
    }

    /** `add_event`. */
    method AddEvent(eventType: string)
      modifies this`totalEvents, this`eventCounts
      ensures Snapshot() == old(Snapshot()).Add(eventType)
      ensures old(Valid()) ==> Valid()
    {
      ghost var before := Snapshot();
      var count := if eventType in eventCounts then eventCounts[eventType] else 0;
      totalEvents := totalEvents + 1;
      eventCounts := eventCounts[eventType := count + 1];
      if Consistent(before) {
        AddKeepsConsistent(before, eventType);
      }
    }

    /** `update_connection_count`: only the connection gauge changes. */
    method UpdateConnectionCount(count: int)
      modifies this`connections
      ensures connections == count
    {
      connections := count;
    }
  }

  /** `SSEClient`: the liveness fields of one server connection. `loads` stands for
      `json.loads`. */
  class SseClient {
    const config: PumpMonitorConfig
    const loads: Loads
    var connectionId: Option<Json>
    var lastDataTime: int
    var lastHealthCheck: Option<int>
    var connected: bool
    /** The connects, probes, reconnect delays and dispatches made on this connection
        so far, in order; each is appended by the method that makes it. */
    ghost var trace: seq<Act>

    /** The liveness fields as a value. */
    function Snapshot(): Link
      reads this
    {
      Link(connectionId, lastDataTime, lastHealthCheck, connected)
    }

    /** `__init__` at time `now` (URL building and the HTTP session are not modelled). */
    constructor (config: PumpMonitorConfig, loads: Loads, now: int)
      ensures this.config == config && this.loads == loads
      ensures Snapshot() == NewLink(now) && trace == []
    {
      this.config := config;
      this.loads := loads;
      connectionId := None;
      lastDataTime := now;
      lastHealthCheck := None;
      connected := false;
      trace := [];
    }

    /** `needs_health_check` at time `now`. */
    predicate NeedsHealthCheck(now: int)
      reads this, config
      ensures NeedsHealthCheck(now) <==> Snapshot().NeedsHealthCheck(now, config.healthCheckInterval)
    {
      lastHealthCheck.None? || lastHealthCheck.value == 0 || now - lastHealthCheck.value > config.healthCheckInterval
    }

    /** `is_connection_stale` at time `now`. */
    predicate IsConnectionStale(now: int)
      reads this, config
      ensures IsConnectionStale(now) <==> Snapshot().IsStale(now, config.streamTimeout)
    {
      now - lastDataTime > config.streamTimeout
    }

    /** `perform_health_check` at time `now`; `reachable` is whether the probe request
        succeeds. */
    method PerformHealthCheck(now: int, reachable: bool) returns (healthy: bool)
      modifies this`lastHealthCheck, this`trace
      ensures healthy == reachable
      ensures Snapshot() == old(Snapshot()).Probe(now, reachable)
      ensures trace == old(trace) + [Probe(healthy)]
    {
      trace := trace + [Probe(reachable)];
      if reachable {
        lastHealthCheck := Some(now);
        healthy := true;
      } else {
        healthy := false;
      }
    }

    /** `connect_stream` at time `now`; `accepted` is whether the server answers the
        request with a success status. Returns whether a response is available. */
    method ConnectStream(now: int, accepted: bool) returns (responded: bool)
      modifies this`connected, this`lastDataTime, this`lastHealthCheck, this`trace
      ensures responded == accepted
      ensures Snapshot() == old(Snapshot()).Connect(now, accepted)
      ensures trace == old(trace) + [Connect(responded)]
    {
      trace := trace + [Connect(accepted)];
      if accepted {
        connected := true;
        lastDataTime := now;
        lastHealthCheck := Some(now);
        responded := true;
      } else {
        connected := false;
        responded := false;
      }
    }

    /** `update_data_time` at time `now`. */
    method UpdateDataTime(now: int)
      modifies this`lastDataTime
      ensures Snapshot() == old(Snapshot()).(lastDataTime := now)
    {
      lastDataTime := now;
    }

    /** `listen_stream` over a response body made of `lines`: the events it yields,
        in order, are exactly those of the SSE assembler. */
    method ListenStream(lines: seq<Option<string>>) returns (events: seq<Event>)
      ensures events == Assemble(lines, loads)
    {
      var current: Option<Event> := None;
      events := [];
      var i := 0;
      while i < |lines|
        invariant 0 <= i <= |lines|
        invariant ReadLines(Idle, lines[..i], loads) == Assembler(current, events)
      {
        assert lines[..i + 1][..i] == lines[..i];
        assert ReadLines(Idle, lines[..i + 1], loads) == Feed(Assembler(current, events), lines[i], loads);
        var line := lines[i];
        i := i + 1;
        if line.None? {
          continue;
        }
        var parsed := ParseSseLine(line.value, loads);
        match parsed {
          case None =>
            // a line read as nothing ends the event being built
            if current.Some? {
              events := events + [current.value];
              current := None;
            }
          case Some(EventName(name)) =>
            current := Some(Event(name, None, None));
          case Some(Data(payload)) =>
            if current.Some? {
              current := Some(current.value.(data := Some(payload)));
            }
          case Some(Id(id)) =>
            if current.Some? {
              current := Some(current.value.(id := Some(id)));
            }
        }
      }
      assert lines[..|lines|] == lines;
    }

    /** The handler in `listen_stream` for an error while reading the body, reached
        once every event before the error has been taken. */
    method StreamBroke()
      modifies this`connected
      ensures Snapshot() == old(Snapshot()).(connected := false)
    {
      connected := false;
    }
  }

  /** `GracefulShutdown`: the flag its signal handler sets. */
  class GracefulShutdown {
    var shutdownRequested: bool

    constructor ()
      ensures !shutdownRequested && !ShouldShutdown()
    {
      shutdownRequested := false;
    }

    /** `_signal_handler`, for SIGINT or SIGTERM. */
    method SignalHandler()
      modifies this
      ensures shutdownRequested && ShouldShutdown()
    {
      shutdownRequested := true;
    }

    /** `should_shutdown`. */
    predicate ShouldShutdown()
      reads this
      ensures ShouldShutdown() <==> shutdownRequested
    {
      shutdownRequested
    }
  }

  /** `PumpMonitorClient`: the connection, the statistics, and the monitor loop. */
  class PumpMonitorClient {
    const config: PumpMonitorConfig
    const sseClient: SseClient
    const statsManager: StatsManager
    var running: bool

    /** The connection and the client read the same configuration object. */
    predicate Wired() {
      sseClient.config == config
    }

    /** The thresholds the monitor loop reads from the configuration. */
    function Thresholds(): Settings
      reads config
    {
      Settings(config.streamTimeout, config.healthCheckInterval, config.maxRetries)
    }

    /** `__init__` at time `now` (formatter and file manager are not modelled). */
    constructor (config: PumpMonitorConfig, loads: Loads, now: int)
      ensures this.config == config && Wired() && running
      ensures fresh(sseClient) && fresh(statsManager)
      ensures sseClient.loads == loads && sseClient.Snapshot() == NewLink(now) && sseClient.trace == []
      ensures statsManager.Snapshot() == NoCounts && statsManager.Valid()
    {
      this.config := config;
      sseClient := new SseClient(config, loads, now);
      statsManager := new StatsManager();
      running := true;
    }

    /** `handle_sse_event(name, data)` at time `now`. */
    method HandleSseEvent(name: string, data: Json, now: int)
      modifies sseClient, statsManager`totalEvents, statsManager`eventCounts
      ensures (sseClient.Snapshot(), statsManager.Snapshot())
              == HandleEvent(old(sseClient.Snapshot()), old(statsManager.Snapshot()), name, data, now)
      ensures sseClient.trace == old(sseClient.trace) + [Dispatch(name)]
      ensures old(statsManager.Valid()) ==> statsManager.Valid()
    {
      sseClient.trace := sseClient.trace + [Dispatch(name)];
      sseClient.UpdateDataTime(now);
      if name == "connected" {
        match data {
          case JObject(fields) =>
            sseClient.connectionId := Get(fields, "connection_id");
          case _ =>
            // `data.get` raises on a non-object; the handler logs it and goes on
        }
      } else if name == "ping" {
        return;
      } else {
        statsManager.AddEvent(name);
      }
    }

    /** `time.sleep(reconnect_delay)` after a failed connect: it only takes time, which
        the model does not see, and is recorded in the trace. */
    method ReconnectDelay()
      modifies sseClient`trace
      ensures sseClient.trace == old(sseClient.trace) + [Sleep]
    {
      sseClient.trace := sseClient.trace + [Sleep];
    }

    /** The inner loop of `_run_sse_monitor`, over the events `listen_stream` yields:
        it ends as Session.Stream says, having made the probes and dispatches of its log
        in that order, and the shutdown flag is set exactly when the stream was left for
        a shutdown request. */
    method ReadEvents(events: seq<Event>, polls: nat -> Poll, shutdown: GracefulShutdown) returns (end: StreamEnd)
      requires Wired() && !shutdown.shutdownRequested
      modifies sseClient, statsManager`totalEvents, statsManager`eventCounts, shutdown
      ensures var s := Stream(old(sseClient.Snapshot()), old(statsManager.Snapshot()), events, polls, 0, Thresholds());
              sseClient.Snapshot() == s.link && statsManager.Snapshot() == s.counters && end == s.end
              && sseClient.trace == old(sseClient.trace) + s.log
      ensures shutdown.shutdownRequested <==> end == Stopped
      ensures old(statsManager.Valid()) ==> statsManager.Valid()
    {
      ghost var cfg := Thresholds();
      ghost var s := Stream(sseClient.Snapshot(), statsManager.Snapshot(), events, polls, 0, cfg);
      ghost var goal := s.(log := sseClient.trace + s.log);
      end := Drained;
      var k := 0;
      while k < |events|
        invariant 0 <= k <= |events| && Thresholds() == cfg
        invariant !shutdown.shutdownRequested
        invariant StreamFrom(sseClient.Snapshot(), statsManager.Snapshot(), events, polls, k, cfg, sseClient.trace, goal)
        invariant old(statsManager.Valid()) ==> statsManager.Valid()
      {
        StreamStep(sseClient.Snapshot(), statsManager.Snapshot(), events, polls, k, cfg, sseClient.trace, goal);
        var stop := DeliverEvent(events[k], polls(k), shutdown);
        if stop.Some? {
          end := stop.value;
          return;
        }
        k := k + 1;
      }
    }

    /** One iteration of the inner loop of `_run_sse_monitor`: the shutdown poll, the
        staleness check, the health check when one is due, then `handle_sse_event` for a
        named event. It does what Session.Deliver says, acts included; `stop` is the
        reason the stream is left, if it is. */
    method DeliverEvent(event: Event, poll: Poll, shutdown: GracefulShutdown) returns (stop: Option<StreamEnd>)
      requires Wired() && !shutdown.shutdownRequested
      modifies sseClient, statsManager`totalEvents, statsManager`eventCounts, shutdown
      ensures var d := Deliver(old(sseClient.Snapshot()), old(statsManager.Snapshot()), event, poll, Thresholds());
              && sseClient.trace == old(sseClient.trace) + d.acts
              && (d.Halt? ==> stop == Some(d.end) && sseClient.Snapshot() == old(sseClient.Snapshot())
                              && statsManager.Snapshot() == old(statsManager.Snapshot()))
              && (d.Continue? ==> stop == None && sseClient.Snapshot() == d.link && statsManager.Snapshot() == d.counters)
      ensures shutdown.shutdownRequested <==> stop == Some(Stopped)
      ensures old(statsManager.Valid()) ==> statsManager.Valid()
    {
      ghost var link := sseClient.Snapshot();
      ghost var counters := statsManager.Snapshot();
      ghost var start := sseClient.trace;
      if poll.signal {
        shutdown.SignalHandler();
      }
      if shutdown.ShouldShutdown() {
        assert start + [] == start;
        return Some(Stopped);
      }
      if sseClient.IsConnectionStale(poll.now) {
        assert start + [] == start;
        return Some(Stale);
      }
      if sseClient.NeedsHealthCheck(poll.now) {
        var healthy := sseClient.PerformHealthCheck(poll.now, poll.probeOk);
        if !healthy {
          stop := Some(HealthFailed);
          return;
        }
      }
      DeliverSteps(link, counters, event, poll, Thresholds());
      if event.name != "" {
        ghost var probed := sseClient.trace;
        HandleSseEvent(event.name, event.data.GetOr(JObject(map[])), poll.now);
        assert probed == start + (if link.NeedsHealthCheck(poll.now, config.healthCheckInterval) then [Probe(true)] else []);
      } else {
        assert start + [] == start;
      }
      stop := None;
    }

    /** One answered connect of `_run_sse_monitor`: the events `listen_stream` yields
        from the body are handled by the inner loop, and a body that breaks once every
        event has been taken marks the link down. */
    method ServeStream(result: ConnectResult, shutdown: GracefulShutdown) returns (end: StreamEnd)
      requires Wired() && result.Opened? && !shutdown.shutdownRequested
      modifies sseClient, statsManager`totalEvents, statsManager`eventCounts, shutdown
      ensures var s := Stream(old(sseClient.Snapshot()), old(statsManager.Snapshot()),
                              Assemble(result.lines, sseClient.loads), result.polls, 0, Thresholds());
              end == s.end && sseClient.trace == old(sseClient.trace) + s.log && statsManager.Snapshot() == s.counters &&
              sseClient.Snapshot() == (if s.end == Drained && result.fails then s.link.(connected := false) else s.link)
      ensures shutdown.shutdownRequested <==> end == Stopped
      ensures old(statsManager.Valid()) ==> statsManager.Valid()
    {
      var events := sseClient.ListenStream(result.lines);
      end := ReadEvents(events, result.polls, shutdown);
      if end == Drained && result.fails {
        sseClient.StreamBroke();
      }
    }

    /** `_run_sse_monitor` with a shutdown handler, over the connect attempts it makes.
        The final connection state, statistics, reason for stopping, retry counter
        (`connection_attempts`) and the connects, delays, probes and dispatches made, in
        order, are those of Session.Run; the shutdown flag ends set exactly when it was
        set or the loop stopped for it. */
    method RunSseMonitor(attempts: seq<Attempt>, shutdown: GracefulShutdown) returns (halt: Halting, ghost failures: nat)
      requires Wired()
      modifies sseClient, statsManager`totalEvents, statsManager`eventCounts, shutdown
      ensures var r := Run(old(sseClient.Snapshot()), old(statsManager.Snapshot()), 0, attempts,
                           old(shutdown.shutdownRequested), Thresholds(), sseClient.loads);
              sseClient.Snapshot() == r.link && statsManager.Snapshot() == r.counters && halt == r.halt
              && failures == r.failures && sseClient.trace == old(sseClient.trace) + r.log
      ensures shutdown.shutdownRequested == (old(shutdown.shutdownRequested) || halt == ShutdownRequested)
      ensures old(statsManager.Valid()) ==> statsManager.Valid()
    {
      ghost var cfg := Thresholds();
      ghost var r := Run(sseClient.Snapshot(), statsManager.Snapshot(), 0, attempts,
                         shutdown.shutdownRequested, cfg, sseClient.loads);
      ghost var goal := r.(log := sseClient.trace + r.log);
      ghost var flagged := shutdown.shutdownRequested;
      var connectionAttempts: nat := 0;
      var i := 0;
      assert attempts[0..] == attempts;
      // `while self.running`: nothing in the loop clears `running`
      while i < |attempts|
        invariant 0 <= i <= |attempts| && Thresholds() == cfg
        invariant RunFrom(sseClient.Snapshot(), statsManager.Snapshot(), connectionAttempts, attempts[i..],
                          shutdown.shutdownRequested, cfg, sseClient.loads, sseClient.trace, goal)
        invariant shutdown.shutdownRequested == flagged
        invariant flagged ==> i == 0
        invariant old(statsManager.Valid()) ==> statsManager.Valid()
      {
        var attempt := attempts[i];
        assert attempts[i..][0] == attempt && attempts[i..][1..] == attempts[i + 1..];
        if attempt.signal {
          shutdown.SignalHandler();
        }
        if shutdown.ShouldShutdown() {
          halt, failures := ShutdownRequested, connectionAttempts;
          return;
        }
        RunStep(sseClient.Snapshot(), statsManager.Snapshot(), connectionAttempts, attempts[i..],
                cfg, sseClient.loads, sseClient.trace, goal);
        var stop;
        stop, connectionAttempts := AttemptConnection(attempt, connectionAttempts, shutdown);
        if stop.Some? {
          halt, failures := stop.value, connectionAttempts;
          return;
        }
        i := i + 1;
      }
      halt, failures := InputEnded, connectionAttempts;
    }

    /** One pass of `while self.running` past its shutdown check, with
        `connectionAttempts` consecutive failed connects behind it: `connect_stream`,
        then either the failure count, the give-up check and the reconnect delay, or the
        stream served. It does what Session.Attempted says, acts included; `stop` is why
        the loop is left, if it is, and `failures` the new `connection_attempts`. */
    method AttemptConnection(attempt: Attempt, connectionAttempts: nat, shutdown: GracefulShutdown)
      returns (stop: Option<Halting>, failures: nat)
      requires Wired() && !shutdown.shutdownRequested
      modifies sseClient, statsManager`totalEvents, statsManager`eventCounts, shutdown
      ensures var p := Attempted(old(sseClient.Snapshot()), old(statsManager.Snapshot()), connectionAttempts, attempt,
                                 Thresholds(), sseClient.loads);
              && sseClient.Snapshot() == p.link && statsManager.Snapshot() == p.counters
              && failures == p.failures && sseClient.trace == old(sseClient.trace) + p.acts
              && (p.Over? ==> stop == Some(p.halt))
              && (p.Again? ==> stop == None)
      ensures shutdown.shutdownRequested <==> stop == Some(ShutdownRequested)
      ensures old(statsManager.Valid()) ==> statsManager.Valid()
    {
      ghost var start := sseClient.trace;
      var responded := sseClient.ConnectStream(attempt.now, attempt.result.Opened?);
      if !responded {
        failures := connectionAttempts + 1;
        if failures >= config.maxRetries {
          return Some(RetriesExhausted), failures;
        }
        ReconnectDelay();
        assert sseClient.trace == start + [Connect(false), Sleep];
        return None, failures;
      }
      failures := 0;
      var end := ServeStream(attempt.result, shutdown);
      ghost var s := Stream(old(sseClient.Snapshot()).Connect(attempt.now, true), old(statsManager.Snapshot()),
                            Assemble(attempt.result.lines, sseClient.loads), attempt.result.polls, 0, Thresholds());
      assert (start + [Connect(true)]) + s.log == start + ([Connect(true)] + s.log);
      stop := if end == Stopped then Some(ShutdownRequested) else None;
    }
  }
}
