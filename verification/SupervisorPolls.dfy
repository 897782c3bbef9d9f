/** The polling loop: every sequence of polls is one timed run, so the bounds on runs hold of it. */
module SupervisorPolls {
  import opened Supervisor
  import opened SupervisorRuns
  import opened SupervisorObject

  /** What one poll learns: a report per worker, the time of its pass, and which forks succeed. */
  datatype Look = Look(reports: seq<Report>, now: nat, forks: seq<bool>)

  predicate For(p: Look, s: State) {
    |p.reports| == |p.forks| == |s.workers|
  }

  /** The clock readings of one poll, none before `clock` and each no earlier than the one before. */
  ghost predicate Ordered(p: Look, clock: nat) {
    && clock <= p.now
    && (forall i :: 0 <= i < |p.reports| && p.reports[i].Exited? ==> clock <= p.reports[i].at <= p.now)
    && forall i, j :: 0 <= i < j < |p.reports| && p.reports[i].Exited? && p.reports[j].Exited? ==>
         p.reports[i].at <= p.reports[j].at
  }

  function Polled(cfg: Settings, s: State, p: Look): (t: State)
    requires For(p, s)
    ensures |t.workers| == |s.workers|
  {
    Poll(cfg, s, p.reports, p.now, p.forks)
  }

  function Reaped(cfg: Settings, s: State, p: Look): (t: State)
    requires For(p, s)
    ensures |t.workers| == |s.workers|
  {
    ReapFirst(cfg, s, p.reports, |s.workers|)
  }

  /** Whether the poll forks worker `i`, and whether it closes the circuit. */
  function Forked(cfg: Settings, s: State, p: Look, i: nat): nat
    requires For(p, s)
  {
    Respawned(Reaped(cfg, s, p), StartDue(cfg, Reaped(cfg, s, p), p.now, p.forks), i)
  }

  function Closed(cfg: Settings, s: State, p: Look): nat
    requires For(p, s)
  {
    Recovered(Reaped(cfg, s, p), StartDue(cfg, Reaped(cfg, s, p), p.now, p.forks))
  }

  // ---------------------------------------------------------------- one poll

  ghost predicate RunsFromTo(cfg: Settings, events: seq<Event>, states: seq<State>, s: State, t: State) {
    IsRun(cfg, events, states) && states[0] == s && states[|events|] == t
  }

  /** How often each worker came back, and the circuit closed, along the states. */
  ghost predicate Tally(states: seq<State>, respawns: nat -> nat, recoveries: nat) {
    (forall i: nat :: Respawns(states, i) == respawns(i)) && Recoveries(states) == recoveries
  }

  lemma {:induction false} ExtendRun(cfg: Settings, events: seq<Event>, states: seq<State>, e: Event)
    requires IsRun(cfg, events, states) && Enabled(states[|events|], e)
    ensures IsRun(cfg, events + [e], states + [Step(cfg, states[|events|], e)])
  {
    var more, after := events + [e], states + [Step(cfg, states[|events|], e)];
    forall k | 0 <= k < |more| ensures Happened(cfg, more, after, k) {
      assert k < |events| ==> Happened(cfg, events, states, k);
    }
  }

  lemma {:induction false} CountsSnoc(states: seq<State>, t: State, i: nat)
    requires states != []
    ensures Respawns(states + [t], i) == Respawns(states, i) + Respawned(states[|states| - 1], t, i)
    ensures Recoveries(states + [t]) == Recoveries(states) + Recovered(states[|states| - 1], t)
  {
    var more := states + [t];
    assert more[..|more| - 1] == states && more[|more| - 2] == states[|states| - 1];
  }

  /** The events are reported exits of the first n workers, in worker order. */
  ghost predicate FromReports(events: seq<Event>, reports: seq<Report>, n: nat) {
    && n <= |reports|
    && (forall k :: 0 <= k < |events| ==> IsReport(events[k], reports, n))
    && forall k, m :: 0 <= k < m < |events| ==> events[k].Exit? && events[m].Exit? && events[k].i < events[m].i
  }

  ghost predicate IsReport(e: Event, reports: seq<Report>, n: nat)
    requires n <= |reports|
  {
    && e.Exit? && e.i < n && reports[e.i].Exited?
    && e.abnormal == reports[e.i].abnormal && e.at == reports[e.i].at
  }

  /** A reaping pass is a run of exit events, and brings no worker back. */
  lemma {:induction false} ReapIsRun(cfg: Settings, s: State, reports: seq<Report>, n: nat)
      returns (events: seq<Event>, states: seq<State>)
    requires |reports| == |s.workers| && n <= |s.workers|
    ensures RunsFromTo(cfg, events, states, s, ReapFirst(cfg, s, reports, n))
    ensures FromReports(events, reports, n) && Tally(states, i => 0, 0)
  {
    if n == 0 {
      events, states := [], [s];
    } else {
      events, states := ReapIsRun(cfg, s, reports, n - 1);
      var t := states[|events|];
      if t.workers[n - 1].running && reports[n - 1].Exited? {
        var e := Exit(n - 1, reports[n - 1].abnormal, reports[n - 1].at);
        ExtendRun(cfg, events, states, e);
        ExitBringsNothing(cfg, states, e);
        events, states := events + [e], states + [Step(cfg, t, e)];
      }
    }
  }

  lemma {:induction false} ExitBringsNothing(cfg: Settings, states: seq<State>, e: Event)
    requires states != [] && Enabled(states[|states| - 1], e) && e.Exit? && Tally(states, i => 0, 0)
    ensures Tally(states + [Step(cfg, states[|states| - 1], e)], i => 0, 0)
  {
    var s := states[|states| - 1];
    var t := Step(cfg, s, e);
    forall i: nat ensures Respawns(states + [t], i) == 0 && Recoveries(states + [t]) == 0 {
      CountsSnoc(states, t, i);
      if i < |s.workers| {
        ReapWorkers(cfg, s, e.i, e.abnormal, e.at, i);
      }
      ReapWorkers(cfg, s, e.i, e.abnormal, e.at, e.i);
    }
  }

  lemma {:induction false} ReportsTimed(events: seq<Event>, p: Look, clock: nat)
    requires FromReports(events, p.reports, |p.reports|) && Ordered(p, clock) && clock > 0
    ensures Timed(events, clock) && forall k :: 0 <= k < |events| ==> events[k].at <= p.now
  {
    forall k | 0 <= k < |events| ensures clock <= events[k].at <= p.now {
      assert IsReport(events[k], p.reports, |p.reports|);
    }
    forall k, m | 0 <= k < m < |events| ensures events[k].at <= events[m].at {
      assert IsReport(events[k], p.reports, |p.reports|) && IsReport(events[m], p.reports, |p.reports|);
    }
  }

  lemma {:induction false} TimedSnoc(events: seq<Event>, e: Event, clock: nat)
    requires Timed(events, clock) && clock <= e.at && forall k :: 0 <= k < |events| ==> events[k].at <= e.at
    ensures Timed(events + [e], clock) && Clock(events + [e], clock) == e.at
    ensures forall k :: 0 <= k < |events + [e]| ==> (events + [e])[k].at <= e.at
  {
  }

  /** A poll is a run of the supervisor's events from the state before to the state after, in the order of its clock. */
  lemma {:induction false} PollIsRun(cfg: Settings, s: State, p: Look, clock: nat)
      returns (events: seq<Event>, states: seq<State>)
    requires For(p, s) && Ordered(p, clock) && clock > 0
    ensures RunsFromTo(cfg, events, states, s, Polled(cfg, s, p))
    ensures Timed(events, clock) && Clock(events, clock) == p.now
    ensures Tally(states, i => Forked(cfg, s, p, i), Closed(cfg, s, p))
  {
    events, states := ReapIsRun(cfg, s, p.reports, |s.workers|);
    ReportsTimed(events, p, clock);
    var pass := Pass(p.now, p.forks);
    ExtendRun(cfg, events, states, pass);
    TimedSnoc(events, pass, clock);
    var t := StartDue(cfg, states[|events|], p.now, p.forks);
    TallyGrows(states, t, i => 0, 0, i => Forked(cfg, s, p, i), Closed(cfg, s, p));
    events, states := events + [pass], states + [t];
    if t.failureDetected && AnyRunning(t) {
      var stop := Shutdown(p.now);
      ExtendRun(cfg, events, states, stop);
      TimedSnoc(events, stop, clock);
      TallyGrows(states, t.(shutdown := true), i => Forked(cfg, s, p, i), Closed(cfg, s, p), i => 0, 0);
      events, states := events + [stop], states + [t.(shutdown := true)];
    }
  }

  lemma {:induction false} TallyGrows(states: seq<State>, t: State, respawns: nat -> nat, recoveries: nat,
      more: nat -> nat, closed: nat)
    requires states != [] && Tally(states, respawns, recoveries)
    requires Recovered(states[|states| - 1], t) == closed
    requires forall i: nat :: Respawned(states[|states| - 1], t, i) == more(i)
    ensures Tally(states + [t], i => respawns(i) + more(i), recoveries + closed)
  {
    forall i: nat ensures Respawns(states + [t], i) == respawns(i) + more(i) {
      CountsSnoc(states, t, i);
    }
    CountsSnoc(states, t, 0);
  }

  // ---------------------------------------------------------------- any number of polls

  /** Each poll reports on every one of `n` workers. */
  predicate AllFor(polls: seq<Look>, n: nat) {
    polls == [] || (|polls[0].reports| == |polls[0].forks| == n && AllFor(polls[1..], n))
  }

  /** The clock never runs backwards, within a poll or from one poll to the next. */
  ghost predicate AllOrdered(polls: seq<Look>, clock: nat) {
    polls == [] || (Ordered(polls[0], clock) && AllOrdered(polls[1..], polls[0].now))
  }

  function PollClock(polls: seq<Look>, start: nat): nat {
    if polls == [] then start else PollClock(polls[1..], polls[0].now)
  }

  /** The state after a sequence of polls. */
  function PolledAll(cfg: Settings, s: State, polls: seq<Look>): State
    requires AllFor(polls, |s.workers|)
    decreases |polls|
  {
    if polls == [] then s else PolledAll(cfg, Polled(cfg, s, polls[0]), polls[1..])
  }

  /** How often worker `i` is forked, and the circuit closes, in a sequence of polls. */
  function Forks(cfg: Settings, s: State, polls: seq<Look>, i: nat): nat
    requires AllFor(polls, |s.workers|)
    decreases |polls|
  {
    if polls == [] then 0
    else Forked(cfg, s, polls[0], i) + Forks(cfg, Polled(cfg, s, polls[0]), polls[1..], i)
  }

  function Closings(cfg: Settings, s: State, polls: seq<Look>): nat
    requires AllFor(polls, |s.workers|)
    decreases |polls|
  {
    if polls == [] then 0
    else Closed(cfg, s, polls[0]) + Closings(cfg, Polled(cfg, s, polls[0]), polls[1..])
  }

  /** Two runs, the second from where the first ended, are one. */
  function Joined(first: seq<State>, second: seq<State>): seq<State>
    requires second != []
  {
    first + second[1..]
  }

  lemma {:induction false} RunsJoin(cfg: Settings, a: seq<Event>, first: seq<State>, b: seq<Event>, second: seq<State>)
    requires IsRun(cfg, a, first) && IsRun(cfg, b, second) && first[|a|] == second[0]
    ensures IsRun(cfg, a + b, Joined(first, second))
    ensures Joined(first, second)[0] == first[0] && Joined(first, second)[|a + b|] == second[|b|]
  {
    var events, states := a + b, Joined(first, second);
    assert forall k :: 0 <= k < |second| ==> states[|a| + k] == second[k];
    forall k | 0 <= k < |events| ensures Happened(cfg, events, states, k) {
      if k < |a| {
        assert Happened(cfg, a, first, k);
      } else {
        assert Happened(cfg, b, second, k - |a|);
        assert states[|a| + (k - |a|)] == second[k - |a|] && states[|a| + (k - |a| + 1)] == second[k - |a| + 1];
      }
    }
  }

  lemma {:induction false} CountsJoin(first: seq<State>, second: seq<State>, i: nat)
    requires first != [] && second != [] && first[|first| - 1] == second[0]
    ensures Respawns(Joined(first, second), i) == Respawns(first, i) + Respawns(second, i)
    ensures Recoveries(Joined(first, second)) == Recoveries(first) + Recoveries(second)
    decreases |second|
  {
    var n := |second| - 1;
    if n == 0 {
      assert Joined(first, second) == first;
    } else {
      CountsJoin(first, second[..n], i);
      var before := Joined(first, second[..n]);
      assert second[..n][1..] + [second[n]] == second[1..];
      assert Joined(first, second) == before + [second[n]];
      assert before[|before| - 1] == second[n - 1];
      CountsSnoc(before, second[n], i);
    }
  }

  lemma {:induction false} TimedJoin(a: seq<Event>, b: seq<Event>, start: nat)
    requires Timed(a, start) && Timed(b, Clock(a, start))
    ensures Timed(a + b, start) && Clock(a + b, start) == Clock(b, Clock(a, start))
  {
    var events := a + b;
    if b == [] {
      assert events == a;
    }
    forall k | 0 <= k < |events| ensures start <= events[k].at {
      assert k >= |a| ==> events[k] == b[k - |a|];
    }
    forall k, m | 0 <= k < m < |events| ensures events[k].at <= events[m].at {
      assert k < |a| ==> events[k].at <= Clock(a, start);
      assert m >= |a| ==> events[m] == b[m - |a|];
    }
  }

  /** A run that does to the state, the clock and the counts what a sequence of polls does. */
  ghost predicate Follows(cfg: Settings, events: seq<Event>, states: seq<State>, s: State, polls: seq<Look>, start: nat)
    requires AllFor(polls, |s.workers|)
  {
    && RunsFromTo(cfg, events, states, s, PolledAll(cfg, s, polls))
    && Timed(events, start) && Clock(events, start) == PollClock(polls, start)
    && (forall i: nat :: Respawns(states, i) == Forks(cfg, s, polls, i))
    && Recoveries(states) == Closings(cfg, s, polls)
  }

  /** Any sequence of polls is one timed run that ends in the last state and forks exactly what the polls fork. */
  lemma {:induction false} PollsAreRun(cfg: Settings, s: State, polls: seq<Look>, start: nat)
      returns (events: seq<Event>, states: seq<State>)
    requires AllFor(polls, |s.workers|) && AllOrdered(polls, start) && start > 0
    ensures Follows(cfg, events, states, s, polls, start)
    decreases |polls|
  {
    if polls == [] {
      events, states := [], [s];
    } else {
      var next := Polled(cfg, s, polls[0]);
      var a, first := PollIsRun(cfg, s, polls[0], start);
      var b, second := PollsAreRun(cfg, next, polls[1..], polls[0].now);
      PollThenRest(cfg, s, polls, start, a, first, b, second);
      events, states := a + b, Joined(first, second);
    }
  }

  lemma {:induction false} PollThenRest(cfg: Settings, s: State, polls: seq<Look>, start: nat, a: seq<Event>,
      first: seq<State>, b: seq<Event>, second: seq<State>)
    requires polls != [] && AllFor(polls, |s.workers|)
    requires RunsFromTo(cfg, a, first, s, Polled(cfg, s, polls[0]))
    requires Timed(a, start) && Clock(a, start) == polls[0].now
    requires Tally(first, i => Forked(cfg, s, polls[0], i), Closed(cfg, s, polls[0]))
    requires Follows(cfg, b, second, Polled(cfg, s, polls[0]), polls[1..], polls[0].now)
    ensures Follows(cfg, a + b, Joined(first, second), s, polls, start)
  {
    RunsJoin(cfg, a, first, b, second);
    TimedJoin(a, b, start);
    forall i: nat ensures Respawns(Joined(first, second), i) == Forks(cfg, s, polls, i) {
      CountsJoin(first, second, i);
    }
    CountsJoin(first, second, 0);
  }

  /**
   * The respawn budget of the polling loop: after any polls, a worker has been forked at most
   * (limit + 1) times per elapsed window, plus once per closing of the circuit.
   */
  lemma {:induction false} PollBudget(cfg: Settings, s: State, polls: seq<Look>, start: nat, i: nat)
    requires AllFor(polls, |s.workers|) && AllOrdered(polls, start) && start > 0
    requires Started(s, start) && cfg.window > 0 && i < |s.workers|
    ensures s.workers[i].windowStart <= PollClock(polls, start)
    ensures Forks(cfg, s, polls, i) <=
            Allowance(cfg, PollClock(polls, start) - s.workers[i].windowStart) + Closings(cfg, s, polls)
  {
    var events, states := PollsAreRun(cfg, s, polls, start);
    RespawnBudget(cfg, events, states, start, i);
  }

  /** After any polls every worker's record keeps the invariant of runs. */
  lemma {:induction false} PollsKeepInv(cfg: Settings, s: State, polls: seq<Look>, start: nat)
    requires AllFor(polls, |s.workers|) && AllOrdered(polls, start) && Started(s, start) && start > 0
    ensures Inv(cfg, PolledAll(cfg, s, polls), PollClock(polls, start))
  {
    var events, states := PollsAreRun(cfg, s, polls, start);
    RunKeepsInv(cfg, events, states, start);
  }
}
