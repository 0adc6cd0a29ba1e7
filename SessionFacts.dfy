/**
 * What the source promises of its session logic, proved about the functions of
 * module Session.
 */
module SessionFacts {
  import opened Wrappers
  import opened JsonModel
  import opened SseWire
  import opened Session

  // ---------------------------------------------------------------------------
  // Liveness predicates.
  // ---------------------------------------------------------------------------

  /** Staleness is a strict threshold: exactly `streamTimeout` after the last data the
      link is still live, one tick later it is stale, and it stays stale. */
  lemma StaleThreshold(link: Link, streamTimeout: int, now: int, later: int)
    requires now <= later
    ensures !link.IsStale(link.lastDataTime + streamTimeout, streamTimeout)
    ensures link.IsStale(link.lastDataTime + streamTimeout + 1, streamTimeout)
    ensures link.IsStale(now, streamTimeout) ==> link.IsStale(later, streamTimeout)
  {
  }

  /** After a successful connect at `at` (a clock reading other than 0), a health check
      is due exactly when strictly more than `interval` has passed, so none is due at
      once; and the link is stale exactly when strictly more than `streamTimeout` has. */
  lemma ClocksAfterConnect(link: Link, at: int, now: int, interval: int, streamTimeout: int)
    requires at != 0
    ensures link.Connect(at, true).NeedsHealthCheck(now, interval) <==> now - at > interval
    ensures link.Connect(at, true).IsStale(now, streamTimeout) <==> now - at > streamTimeout
    ensures interval >= 0 && streamTimeout >= 0 ==>
              !link.Connect(at, true).NeedsHealthCheck(at, interval) && !link.Connect(at, true).IsStale(at, streamTimeout)
  {
  }

  /** A client that has never completed a probe or a connect always wants a health
      check; a failed probe does not reset the health clock. */
  lemma HealthCheckDueUntilRecorded(now: int, created: int, interval: int, probeAt: int)
    ensures NewLink(created).NeedsHealthCheck(now, interval)
    ensures NewLink(created).Probe(probeAt, false).NeedsHealthCheck(now, interval)
  {
  }

  // ---------------------------------------------------------------------------
  // Dispatch.
  // ---------------------------------------------------------------------------

  /** A `ping` only refreshes the data clock; `connected` stores the connection id and
      is not counted; every other name is counted once. */
  lemma DispatchRules(link: Link, c: Counters, data: Json, now: int, name: string)
    ensures HandleEvent(link, c, "ping", data, now) == (link.(lastDataTime := now), c)
    ensures HandleEvent(link, c, "connected", data, now).1 == c
    ensures name != "ping" && name != "connected" ==>
              HandleEvent(link, c, name, data, now) == (link.(lastDataTime := now), c.Add(name))
  {
  }

  /** The number of dispatched events the statistics count. */
  function Counted(log: seq<Act>): nat {
    if log == [] then 0
    else (if log[0].Dispatch? && log[0].name != "ping" && log[0].name != "connected" then 1 else 0)
         + Counted(log[1..])
  }

  lemma {:induction false} CountedAppend(a: seq<Act>, b: seq<Act>)
    ensures Counted(a + b) == Counted(a) + Counted(b)
    decreases |a|
  {
    if a == [] {
      assert a + b == b;
    } else {
      assert (a + b)[1..] == a[1..] + b;
      CountedAppend(a[1..], b);
    }
  }

  /** Reading a stream keeps `total_events` equal to the sum of the per-kind counts,
      and raises it by exactly the number of counted events dispatched. */
  lemma {:induction false} StreamCounts(link: Link, c: Counters, events: seq<Event>, polls: nat -> Poll, k: nat, cfg: Settings)
    requires k <= |events|
    ensures var r := Stream(link, c, events, polls, k, cfg);
            && r.counters.totalEvents == c.totalEvents + Counted(r.log)
            && (Consistent(c) ==> Consistent(r.counters))
    decreases |events| - k
  {
    if k < |events| {
      var d := Deliver(link, c, events[k], polls(k), cfg);
      if d.Continue? {
        var e := events[k];
        StreamCounts(d.link, d.counters, events, polls, k + 1, cfg);
        var r := Stream(d.link, d.counters, events, polls, k + 1, cfg);
        CountedAppend(d.acts, r.log);
        var probes: seq<Act> := if link.NeedsHealthCheck(polls(k).now, cfg.healthCheckInterval) then [Probe(true)] else [];
        if e.name == "" {
          assert d.acts == probes;
        } else {
          assert d.acts == probes + [Dispatch(e.name)];
          CountedAppend(probes, [Dispatch(e.name)]);
          if e.name != "ping" && e.name != "connected" && Consistent(c) {
            AddKeepsConsistent(c, e.name);
          }
        }
      }
    }
  }

  /** One pass of the outer loop: a refused connect counts one more consecutive
      failure, gives up exactly when the count reaches `max_retries` and otherwise
      waits; an answered connect resets the count and is followed by the stream's
      probes and dispatches. Either way the counters keep their sum and grow by the
      counted dispatches, and every delay follows a refusal. */
  lemma PassShape(link: Link, c: Counters, failures: nat, a: Attempt, cfg: Settings, loads: Loads)
    ensures var p := Attempted(link, c, failures, a, cfg, loads);
            && p.acts != [] && p.acts[0] == Connect(a.result.Opened?)
            && SleepsFollowRefusals(p.acts)
            && p.counters.totalEvents == c.totalEvents + Counted(p.acts)
            && (Consistent(c) ==> Consistent(p.counters))
            && (a.result.Refused? ==>
                  && p.failures == failures + 1
                  && (p.Over? <==> failures + 1 >= cfg.maxRetries)
                  && (p.Over? ==> p.halt == RetriesExhausted)
                  && p.acts == (if p.Over? then [Connect(false)] else [Connect(false), Sleep]))
            && (a.result.Opened? ==>
                  && p.failures == 0 && StreamActs(p.acts[1..])
                  && (p.Over? ==> p.halt == ShutdownRequested))
  {
    var p := Attempted(link, c, failures, a, cfg, loads);
    match a.result
    case Refused =>
      assert Counted(p.acts) == 0 by {
        assert p.acts[1..] == [] || p.acts[1..] == [Sleep];
        assert [Sleep][1..] == [];
      }
    case Opened(lines, fails, polls) =>
      var up := link.Connect(a.now, true);
      var s := Stream(up, c, Assemble(lines, loads), polls, 0, cfg);
      StreamLogActs(up, c, Assemble(lines, loads), polls, 0, cfg);
      StreamCounts(up, c, Assemble(lines, loads), polls, 0, cfg);
      assert p.acts[1..] == s.log;
      assert Counted(p.acts) == Counted(s.log);
      assert forall i :: 1 <= i < |p.acts| ==> p.acts[i] == s.log[i - 1];
  }

  /** Over the whole session `total_events == sum(event_counts)` is kept, and the
      total grows by exactly the number of counted events dispatched. */
  lemma {:induction false} RunCounts(link: Link, c: Counters, failures: nat, attempts: seq<Attempt>, flagged: bool,
                                     cfg: Settings, loads: Loads)
    ensures var r := Run(link, c, failures, attempts, flagged, cfg, loads);
            && r.counters.totalEvents == c.totalEvents + Counted(r.log)
            && (Consistent(c) ==> Consistent(r.counters))
    decreases |attempts|
  {
    if attempts != [] && !flagged && !attempts[0].signal {
      var p := Attempted(link, c, failures, attempts[0], cfg, loads);
      PassShape(link, c, failures, attempts[0], cfg, loads);
      if p.Again? {
        RunCounts(p.link, p.counters, p.failures, attempts[1..], false, cfg, loads);
        var r := Run(p.link, p.counters, p.failures, attempts[1..], false, cfg, loads);
        CountedAppend(p.acts, r.log);
      }
    }
  }


  // ---------------------------------------------------------------------------
  // Shutdown.
  // ---------------------------------------------------------------------------

  /** A shutdown seen at the top of the loop ends it before any further request. */
  lemma ShutdownAtTop(link: Link, c: Counters, failures: nat, attempts: seq<Attempt>, flagged: bool, cfg: Settings, loads: Loads)
    requires attempts != [] && (flagged || attempts[0].signal)
    ensures Run(link, c, failures, attempts, flagged, cfg, loads) == RunResult(link, c, failures, ShutdownRequested, [])
  {
  }

  /** A shutdown seen before the j-th event of a stream: nothing from the j-th event on
      is probed or dispatched. The stream ends exactly as reading only the events
      before j would have left it, and reports the shutdown unless it had stopped
      earlier for another reason. */
  lemma {:induction false} ShutdownInStream(link: Link, c: Counters, events: seq<Event>, polls: nat -> Poll, k: nat, j: nat, cfg: Settings)
    requires k <= j < |events| && polls(j).signal
    ensures var r := Stream(link, c, events, polls, k, cfg);
            var upTo := Stream(link, c, events[..j], polls, k, cfg);
            && r.link == upTo.link && r.counters == upTo.counters && r.log == upTo.log
            && r.end == (if upTo.end == Drained then Stopped else upTo.end)
    decreases j - k
  {
    if k < j {
      assert events[..j][k] == events[k];
      var d := Deliver(link, c, events[k], polls(k), cfg);
      if d.Continue? {
        ShutdownInStream(d.link, d.counters, events, polls, k + 1, j, cfg);
      }
    }
  }

  // ---------------------------------------------------------------------------
  // Staleness and health failures.
  // ---------------------------------------------------------------------------

  /** The staleness check runs before the event's own handler refreshes the data
      clock: the first event after an over-long gap is dropped and ends the stream. */
  lemma StaleEventDropped(link: Link, c: Counters, events: seq<Event>, polls: nat -> Poll, k: nat, cfg: Settings)
    requires k < |events| && !polls(k).signal && link.IsStale(polls(k).now, cfg.streamTimeout)
    ensures Stream(link, c, events, polls, k, cfg) == StreamResult(link, c, Stale, [])
  {
  }

  /** One open stream: each event costs at most a probe and a dispatch, and neither
      touches the `connected` flag. */
  lemma {:induction false} StreamShape(link: Link, c: Counters, events: seq<Event>, polls: nat -> Poll, k: nat, cfg: Settings)
    requires k <= |events|
    ensures var r := Stream(link, c, events, polls, k, cfg);
            |r.log| <= 2 * (|events| - k) && r.link.connected == link.connected
    decreases |events| - k
  {
    if k < |events| {
      var d := Deliver(link, c, events[k], polls(k), cfg);
      if d.Continue? {
        if !link.NeedsHealthCheck(polls(k).now, cfg.healthCheckInterval) || polls(k).probeOk {
          DeliverSteps(link, c, events[k], polls(k), cfg);
        }
        StreamShape(d.link, d.counters, events, polls, k + 1, cfg);
      }
    }
  }

  /** An event that finds a health check due and the probe failing is not dispatched:
      the stream ends after that one failed probe, with the state as it was. */
  lemma HealthFailedEndsStream(link: Link, c: Counters, events: seq<Event>, polls: nat -> Poll, k: nat, cfg: Settings)
    requires k < |events| && !polls(k).signal && !link.IsStale(polls(k).now, cfg.streamTimeout)
    requires link.NeedsHealthCheck(polls(k).now, cfg.healthCheckInterval) && !polls(k).probeOk
    ensures Stream(link, c, events, polls, k, cfg) == StreamResult(link, c, HealthFailed, [Probe(false)])
  {
  }

  /** The acts of one stream are probes and dispatches only: no connect, no delay. */
  ghost predicate StreamActs(log: seq<Act>) {
    forall i :: 0 <= i < |log| ==> log[i].Probe? || log[i].Dispatch?
  }

  lemma {:induction false} StreamLogActs(link: Link, c: Counters, events: seq<Event>, polls: nat -> Poll, k: nat, cfg: Settings)
    requires k <= |events|
    ensures StreamActs(Stream(link, c, events, polls, k, cfg).log)
    decreases |events| - k
  {
    if k < |events| {
      var d := Deliver(link, c, events[k], polls(k), cfg);
      if d.Continue? {
        StreamLogActs(d.link, d.counters, events, polls, k + 1, cfg);
      }
    }
  }

  /** Every reconnect delay directly follows a refused connect: leaving a stale,
      health-failed, drained or broken stream reconnects at once. */
  ghost predicate SleepsFollowRefusals(log: seq<Act>) {
    forall i :: 0 <= i < |log| && log[i] == Sleep ==> i > 0 && log[i - 1] == Connect(false)
  }

  lemma SleepsConcat(a: seq<Act>, b: seq<Act>)
    requires SleepsFollowRefusals(a) && SleepsFollowRefusals(b)
    ensures SleepsFollowRefusals(a + b)
  {
    forall i | 0 <= i < |a + b| && (a + b)[i] == Sleep ensures i > 0 && (a + b)[i - 1] == Connect(false) {
      if i >= |a| {
        assert b[i - |a|] == Sleep;
        if i > |a| { assert (a + b)[i - 1] == b[i - |a| - 1]; }
      } else {
        assert a[i] == Sleep;
      }
    }
  }

  lemma {:induction false} RunSleepsFollowRefusals(link: Link, c: Counters, failures: nat, attempts: seq<Attempt>, flagged: bool,
                                                   cfg: Settings, loads: Loads)
    ensures var log := Run(link, c, failures, attempts, flagged, cfg, loads).log;
            SleepsFollowRefusals(log) && (log != [] ==> log[0].Connect?)
    decreases |attempts|
  {
    if attempts != [] && !flagged && !attempts[0].signal {
      var p := Attempted(link, c, failures, attempts[0], cfg, loads);
      PassShape(link, c, failures, attempts[0], cfg, loads);
      if p.Again? {
        RunSleepsFollowRefusals(p.link, p.counters, p.failures, attempts[1..], false, cfg, loads);
        var r := Run(p.link, p.counters, p.failures, attempts[1..], false, cfg, loads);
        SleepsConcat(p.acts, r.log);
        assert (p.acts + r.log)[0] == p.acts[0];
      }
    }
  }


  // ---------------------------------------------------------------------------
  // The retry ceiling.
  // ---------------------------------------------------------------------------

  /** The connect failures since the last successful connect at the end of `log`. */
  function TrailingRefusals(log: seq<Act>): nat
    decreases |log|
  {
    if log == [] then 0
    else
      var last := log[|log| - 1];
      if last == Connect(true) then 0
      else (if last == Connect(false) then 1 else 0) + TrailingRefusals(log[..|log| - 1])
  }

  lemma {:induction false} TrailingRefusalsAppend(a: seq<Act>, b: seq<Act>)
    ensures TrailingRefusals(a + b) == if Connect(true) in b then TrailingRefusals(b) else TrailingRefusals(a) + TrailingRefusals(b)
    decreases |b|
  {
    if b == [] {
      assert a + b == a;
    } else {
      var b' := b[..|b| - 1];
      assert (a + b)[..|a + b| - 1] == a + b';
      TrailingRefusalsAppend(a, b');
      assert Connect(true) in b <==> Connect(true) in b' || b[|b| - 1] == Connect(true);
    }
  }

  /** The retry counter counts consecutive failures only: at the end of the loop it is
      the number of refused connects since the last successful one (added to the
      count it started from when there was none). */
  lemma {:induction false} FailuresAreConsecutive(link: Link, c: Counters, failures: nat, attempts: seq<Attempt>, flagged: bool,
                                                  cfg: Settings, loads: Loads)
    ensures var r := Run(link, c, failures, attempts, flagged, cfg, loads);
            r.failures == if Connect(true) in r.log then TrailingRefusals(r.log) else failures + TrailingRefusals(r.log)
    decreases |attempts|
  {
    if attempts != [] && !flagged && !attempts[0].signal {
      var p := Attempted(link, c, failures, attempts[0], cfg, loads);
      if p.Again? {
        FailuresAreConsecutive(p.link, p.counters, p.failures, attempts[1..], false, cfg, loads);
        PassRefusals(link, c, failures, attempts[0], cfg, loads,
                     Run(p.link, p.counters, p.failures, attempts[1..], false, cfg, loads).log);
      } else {
        PassRefusals(link, c, failures, attempts[0], cfg, loads, []);
        assert p.acts + [] == p.acts;
      }
    }
  }

  /** One pass keeps the meaning of the retry counter: the count it leaves describes
      whatever log follows exactly as the count it started from describes the pass's
      own acts followed by that log. */
  lemma PassRefusals(link: Link, c: Counters, failures: nat, a: Attempt, cfg: Settings, loads: Loads, rlog: seq<Act>)
    ensures var p := Attempted(link, c, failures, a, cfg, loads);
            var log := p.acts + rlog;
            (if Connect(true) in rlog then TrailingRefusals(rlog) else p.failures + TrailingRefusals(rlog))
              == (if Connect(true) in log then TrailingRefusals(log) else failures + TrailingRefusals(log))
  {
    var p := Attempted(link, c, failures, a, cfg, loads);
    PassShape(link, c, failures, a, cfg, loads);
    if a.result.Opened? {
      assert p.acts + rlog == [Connect(true)] + p.acts[1..] + rlog;
      ConnectedStreamLog(p.acts[1..], rlog);
    } else if p.Again? {
      RefusedLog(rlog);
    } else {
      TrailingRefusalsAppend([Connect(false)], rlog);
      assert TrailingRefusals([Connect(false)]) == 1 by {
        assert [Connect(false)][..0] == [];
      }
    }
  }

  /** A refused connect and its delay, followed by anything, add one refusal to the
      tail's count unless the tail itself holds a successful connect. */
  lemma RefusedLog(rlog: seq<Act>)
    ensures Connect(true) in [Connect(false), Sleep] + rlog <==> Connect(true) in rlog
    ensures TrailingRefusals([Connect(false), Sleep] + rlog) ==
              if Connect(true) in rlog then TrailingRefusals(rlog) else 1 + TrailingRefusals(rlog)
  {
    TrailingRefusalsAppend([Connect(false), Sleep], rlog);
    assert TrailingRefusals([Connect(false), Sleep]) == 1 by {
      assert [Connect(false), Sleep][..1] == [Connect(false)];
      assert [Connect(false)][..0] == [];
    }
  }


  /** A log that starts with a successful connect, followed by a stream's acts and then
      anything, holds a successful connect, and its refusals since the last one are
      those of the tail. */
  lemma ConnectedStreamLog(slog: seq<Act>, rlog: seq<Act>)
    requires StreamActs(slog)
    ensures Connect(true) in [Connect(true)] + slog + rlog
    ensures TrailingRefusals([Connect(true)] + slog + rlog) == TrailingRefusals(rlog)
  {
    StreamNoRefusals(slog);
    TrailingRefusalsAppend([Connect(true)], slog);
    assert TrailingRefusals([Connect(true)]) == 0;
    TrailingRefusalsAppend([Connect(true)] + slog, rlog);
    assert ([Connect(true)] + slog + rlog)[0] == Connect(true);
  }

  lemma {:induction false} StreamNoRefusals(log: seq<Act>)
    requires StreamActs(log)
    ensures TrailingRefusals(log) == 0 && Connect(true) !in log
    decreases |log|
  {
    if log != [] {
      assert StreamActs(log[..|log| - 1]);
      StreamNoRefusals(log[..|log| - 1]);
      assert log == log[..|log| - 1] + [log[|log| - 1]];
    }
  }

  /** The loop never exceeds the ceiling of consecutive failed connects, and it gives
      up exactly when it reaches it. */
  lemma {:induction false} RetryCeiling(link: Link, c: Counters, failures: nat, attempts: seq<Attempt>, flagged: bool,
                                        cfg: Settings, loads: Loads)
    requires failures < Ceiling(cfg.maxRetries)
    ensures var r := Run(link, c, failures, attempts, flagged, cfg, loads);
            && r.failures <= Ceiling(cfg.maxRetries)
            && (r.halt == RetriesExhausted <==> r.failures == Ceiling(cfg.maxRetries))
    decreases |attempts|
  {
    if attempts != [] && !flagged && !attempts[0].signal {
      var p := Attempted(link, c, failures, attempts[0], cfg, loads);
      PassShape(link, c, failures, attempts[0], cfg, loads);
      if p.Again? {
        RetryCeiling(p.link, p.counters, p.failures, attempts[1..], false, cfg, loads);
      }
    }
  }


  /** The loop gives up only right after a refused connect that brought the count of
      consecutive refusals to `max_retries`. */
  lemma {:induction false} RunGivesUpAfterRefusal(link: Link, c: Counters, failures: nat, attempts: seq<Attempt>, flagged: bool,
                                                  cfg: Settings, loads: Loads)
    ensures var r := Run(link, c, failures, attempts, flagged, cfg, loads);
            r.halt == RetriesExhausted ==>
              r.failures >= 1 && r.failures >= cfg.maxRetries && r.log != [] && r.log[|r.log| - 1] == Connect(false)
    decreases |attempts|
  {
    if attempts != [] && !flagged && !attempts[0].signal {
      var p := Attempted(link, c, failures, attempts[0], cfg, loads);
      PassShape(link, c, failures, attempts[0], cfg, loads);
      if p.Again? {
        RunGivesUpAfterRefusal(p.link, p.counters, p.failures, attempts[1..], false, cfg, loads);
        var r := Run(p.link, p.counters, p.failures, attempts[1..], false, cfg, loads);
        if r.halt == RetriesExhausted {
          LastAct(p.acts, r.log);
        }
      }
    }
  }


  /** The last act of a log with a non-empty tail is the tail's last act. */
  lemma LastAct(pre: seq<Act>, log: seq<Act>)
    requires log != []
    ensures pre + log != [] && (pre + log)[|pre + log| - 1] == log[|log| - 1]
  {
  }

  /** Enough refused connects in a row, with no shutdown, end the loop: it does not
      retry forever. */
  lemma {:induction false} RefusalsExhaust(link: Link, c: Counters, failures: nat, attempts: seq<Attempt>,
                                           cfg: Settings, loads: Loads)
    requires failures < Ceiling(cfg.maxRetries) <= failures + |attempts|
    requires forall i :: 0 <= i < |attempts| ==> !attempts[i].signal && attempts[i].result.Refused?
    ensures var r := Run(link, c, failures, attempts, false, cfg, loads);
            r.halt == RetriesExhausted && r.failures == Ceiling(cfg.maxRetries) && r.counters == c
    decreases |attempts|
  {
    var down := link.Connect(attempts[0].now, false);
    if failures + 1 < cfg.maxRetries {
      RefusalsExhaust(down, c, failures + 1, attempts[1..], cfg, loads);
    }
  }
}
