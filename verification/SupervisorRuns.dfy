/** Safety and quantitative bounds over every run of the supervisor. */
module SupervisorRuns {
  import opened Wrappers
  import opened Supervisor

  // ---------------------------------------------------------------- what every event keeps

  ghost predicate WorkerInv(cfg: Settings, s: State, w: Worker, clock: nat) {
    && (w.suppressed ==> w.pending) && (w.running ==> !w.pending)
    && w.attempts <= cfg.maxRestarts && 0 < w.windowStart <= clock
    && (w.suppressed && !s.circuitOpen ==> cfg.window > 0 && w.dueAt == w.windowStart + cfg.window)
  }

  ghost predicate Inv(cfg: Settings, s: State, clock: nat) {
    && (forall i :: 0 <= i < |s.workers| ==> WorkerInv(cfg, s, s.workers[i], clock))
    && (s.circuitOpen ==> s.resetAt > 0)
  }

  /** An abnormal exit that is counted and opens the circuit. */
  predicate Tripping(cfg: Settings, s: State, abnormal: bool, now: nat) {
    abnormal && !s.shutdown && Trips(cfg, CountFailure(cfg, s, now))
  }

  /** What an exit makes of the worker that exited, and of the others. */
  function Fallen(cfg: Settings, s: State, w: Worker, abnormal: bool, now: nat): Worker {
    var down := Down(w, abnormal);
    if !abnormal || s.shutdown then down
    else if Tripping(cfg, s, abnormal, now) then Hold(down, now + cfg.circuitBackoff)
    else if !cfg.restartFailed then down
    else Reschedule(cfg, s, down, now)
  }

  lemma {:induction false} ReapWorkers(cfg: Settings, s: State, i: nat, abnormal: bool, now: nat, k: nat)
    requires i < |s.workers| && k < |s.workers|
    ensures var t := Reap(cfg, s, i, abnormal, now);
            && |t.workers| == |s.workers|
            && t.circuitOpen == (s.circuitOpen || Tripping(cfg, s, abnormal, now))
            && t.resetAt == (if Tripping(cfg, s, abnormal, now) then now + cfg.circuitBackoff else s.resetAt)
            && t.workers[k] ==
               if k == i then Fallen(cfg, s, s.workers[i], abnormal, now)
               else if Tripping(cfg, s, abnormal, now) then Hold(s.workers[k], now + cfg.circuitBackoff)
               else s.workers[k]
  {
    var down := s.(workers := s.workers[i := Down(s.workers[i], abnormal)]);
    CountLeavesWorkers(cfg, s, down.workers, now);
  }

  lemma {:induction false} CountLeavesWorkers(cfg: Settings, s: State, workers: seq<Worker>, now: nat)
    ensures CountFailure(cfg, s.(workers := workers), now) == CountFailure(cfg, s, now).(workers := workers)
  {
  }

  lemma {:induction false} ReapKeepsInv(cfg: Settings, s: State, i: nat, abnormal: bool, now: nat, clock: nat)
    requires Inv(cfg, s, clock) && i < |s.workers| && 0 < clock <= now
    ensures Inv(cfg, Reap(cfg, s, i, abnormal, now), now)
  {
    var t := Reap(cfg, s, i, abnormal, now);
    ReapWorkers(cfg, s, i, abnormal, now, i);
    forall k | 0 <= k < |t.workers| ensures WorkerInv(cfg, t, t.workers[k], now) {
      ReapWorkers(cfg, s, i, abnormal, now, k);
      assert WorkerInv(cfg, s, s.workers[k], clock);
    }
  }

  lemma {:induction false} StartKeepsInv(cfg: Settings, s: State, now: nat, forks: seq<bool>, clock: nat)
    requires Inv(cfg, s, clock) && |forks| == |s.workers| && 0 < clock <= now
    ensures Inv(cfg, StartDue(cfg, s, now, forks), now)
  {
    var t := StartDue(cfg, s, now, forks);
    forall k | 0 <= k < |t.workers| ensures WorkerInv(cfg, t, t.workers[k], now) {
      assert WorkerInv(cfg, s, s.workers[k], clock);
    }
  }

  lemma {:induction false} StepKeepsInv(cfg: Settings, s: State, e: Event, clock: nat)
    requires Inv(cfg, s, clock) && Enabled(s, e) && 0 < clock <= e.at
    ensures Inv(cfg, Step(cfg, s, e), e.at)
  {
    match e
    case Exit(i, abnormal, at) => ReapKeepsInv(cfg, s, i, abnormal, at, clock);
    case Pass(at, forks) => StartKeepsInv(cfg, s, at, forks, clock);
    case Shutdown(at) =>
      forall k | 0 <= k < |s.workers| ensures WorkerInv(cfg, s.(shutdown := true), s.workers[k], at) {
        assert WorkerInv(cfg, s, s.workers[k], clock);
      }
  }

  /** In every reachable state: attempts within the limit, suppressed only if pending, never running and pending. */
  lemma {:induction false} RunKeepsInv(cfg: Settings, events: seq<Event>, states: seq<State>, start: nat)
    requires IsRun(cfg, events, states) && Timed(events, start) && Started(states[0], start)
    ensures Inv(cfg, states[|events|], Clock(events, start)) && Clock(events, start) > 0
    decreases |events|
  {
    if events == [] {
      assert forall i :: 0 <= i < |states[0].workers| ==> states[0].workers[i] in states[0].workers;
    } else {
      var n := |events| - 1;
      ShorterRun(cfg, events, states, start);
      RunKeepsInv(cfg, events[..n], states[..n + 1], start);
      ClockAdvances(events, start);
      StepKeepsInv(cfg, states[n], events[n], Clock(events[..n], start));
    }
  }

  lemma {:induction false} ShorterRun(cfg: Settings, events: seq<Event>, states: seq<State>, start: nat)
    requires IsRun(cfg, events, states) && Timed(events, start) && events != []
    ensures var n := |events| - 1;
            && IsRun(cfg, events[..n], states[..n + 1]) && Timed(events[..n], start)
            && states[..n + 1][n] == states[n] && states[..n + 1][0] == states[0]
            && Enabled(states[n], events[n]) && states[n + 1] == Step(cfg, states[n], events[n])
  {
    var n := |events| - 1;
    assert Happened(cfg, events, states, n);
    PrefixRun(cfg, events, states, n);
  }

  lemma {:induction false} PrefixRun(cfg: Settings, events: seq<Event>, states: seq<State>, n: nat)
    requires IsRun(cfg, events, states) && n <= |events|
    ensures IsRun(cfg, events[..n], states[..n + 1])
  {
    var first, before := events[..n], states[..n + 1];
    forall k | 0 <= k < n ensures Happened(cfg, first, before, k) {
      assert Happened(cfg, events, states, k);
    }
  }

  lemma {:induction false} ClockAdvances(events: seq<Event>, start: nat)
    requires Timed(events, start) && events != []
    ensures 0 < Clock(events[..|events| - 1], start) <= events[|events| - 1].at == Clock(events, start)
  {
  }

  // ---------------------------------------------------------------- the respawn budget

  /** What has been charged to a worker: counted restarts, windows current by suppressed restarts, windows in all. */
  datatype Ledger = Ledger(counted: nat, openings: nat, windows: nat)

  predicate Opens(cfg: Settings, w: Worker, now: nat) {
    w.windowStart == 0 || (cfg.window > 0 && now > w.windowStart + cfg.window)
  }

  function Charge(cfg: Settings, s: State, e: Event, i: nat, l: Ledger): Ledger
    requires Enabled(s, e) && i < |s.workers|
  {
    match e
    case Exit(j, abnormal, at) =>
      if j != i || !abnormal || s.shutdown || Trips(cfg, CountFailure(cfg, s, at)) || !cfg.restartFailed then l
      else
        var w := OpenWindow(cfg, s.workers[i], at);
        l.(windows := l.windows + (if Opens(cfg, s.workers[i], at) then 1 else 0),
           counted := l.counted + (if w.attempts < cfg.maxRestarts && w.index < cfg.planCount then 1 else 0))
    case Pass(at, _) =>
      if !s.circuitOpen && Due(s.workers[i], at) && s.workers[i].suppressed
      then l.(windows := l.windows + 1, openings := l.openings + 1) else l
    case Shutdown(_) => l
  }

  /** n * k, by repeated addition. */
  function Multiple(n: nat, k: nat): nat {
    if n == 0 then 0 else Multiple(n - 1, k) + k
  }

  function Respawned(s: State, t: State, i: nat): nat {
    if i < |s.workers| && i < |t.workers| && !s.workers[i].running && t.workers[i].running then 1 else 0
  }

  function Recovered(s: State, t: State): nat {
    if s.circuitOpen && !t.circuitOpen then 1 else 0
  }

  function Respawns(states: seq<State>, i: nat): nat {
    if |states| < 2 then 0
    else Respawns(states[..|states| - 1], i) + Respawned(states[|states| - 2], states[|states| - 1], i)
  }

  function Recoveries(states: seq<State>): nat {
    if |states| < 2 then 0
    else Recoveries(states[..|states| - 1]) + Recovered(states[|states| - 2], states[|states| - 1])
  }

  /**
   * Every respawn so far, and the one a released pending restart may still cause, has been
   * paid for; restarts are counted per window and windows are at least a window apart.
   */
  ghost predicate Paid(cfg: Settings, w: Worker, l: Ledger, respawns: nat, recoveries: nat, first: nat) {
    && respawns + (if w.pending && !w.suppressed then 1 else 0) <= l.counted + l.openings + recoveries
    && l.windows >= 1 && l.openings <= l.windows - 1
    && l.counted <= Multiple(l.windows - 1, cfg.maxRestarts) + w.attempts
    && first + Multiple(l.windows - 1, cfg.window) <= w.windowStart
  }

  lemma {:induction false} ExitPaid(cfg: Settings, s: State, j: nat, abnormal: bool, now: nat, i: nat, l: Ledger,
      respawns: nat, recoveries: nat, first: nat, clock: nat)
    requires Inv(cfg, s, clock) && cfg.window > 0 && i < |s.workers| && j < |s.workers| && s.workers[j].running
             && clock <= now
    requires Paid(cfg, s.workers[i], l, respawns, recoveries, first)
    ensures var t := Reap(cfg, s, j, abnormal, now);
            && Respawned(s, t, i) == 0 && Recovered(s, t) == 0
            && Paid(cfg, t.workers[i], Charge(cfg, s, Exit(j, abnormal, now), i, l), respawns, recoveries, first)
  {
    ReapWorkers(cfg, s, j, abnormal, now, i);
    assert WorkerInv(cfg, s, s.workers[i], clock);
    if i == j && abnormal && !s.shutdown && !Tripping(cfg, s, abnormal, now) && cfg.restartFailed {
      ReschedulePaid(cfg, s, s.workers[i], now, l, respawns, recoveries, first);
    }
  }

  lemma {:induction false} ReschedulePaid(cfg: Settings, s: State, w: Worker, now: nat, l: Ledger, respawns: nat,
      recoveries: nat, first: nat)
    requires cfg.window > 0 && w.windowStart > 0 && !w.pending && w.attempts <= cfg.maxRestarts
             && Paid(cfg, w, l, respawns, recoveries, first)
    ensures var current := OpenWindow(cfg, w, now);
            var again := current.attempts < cfg.maxRestarts && w.index < cfg.planCount;
            var charged := l.(windows := l.windows + (if Opens(cfg, w, now) then 1 else 0),
                              counted := l.counted + if again then 1 else 0);
            Paid(cfg, Reschedule(cfg, s, Down(w, true), now), charged, respawns, recoveries, first)
  {
  }

  lemma {:induction false} PassPaid(cfg: Settings, s: State, now: nat, forks: seq<bool>, i: nat, l: Ledger,
      respawns: nat, recoveries: nat, first: nat, clock: nat)
    requires Inv(cfg, s, clock) && cfg.window > 0 && i < |s.workers| && |forks| == |s.workers| && clock <= now
    requires Paid(cfg, s.workers[i], l, respawns, recoveries, first)
    ensures var t := StartDue(cfg, s, now, forks);
            Paid(cfg, t.workers[i], Charge(cfg, s, Pass(now, forks), i, l), respawns + Respawned(s, t, i),
                 recoveries + Recovered(s, t), first)
  {
    assert WorkerInv(cfg, s, s.workers[i], clock);
  }

  /** The ledger of a worker after a run. */
  ghost function Books(cfg: Settings, events: seq<Event>, states: seq<State>, i: nat): Ledger
    requires IsRun(cfg, events, states) && i < |states[0].workers|
    decreases |events|
  {
    if events == [] then Ledger(0, 0, 1)
    else
      var n := |events| - 1;
      SameWorkers(cfg, events, states, n);
      PrefixRun(cfg, events, states, n);
      assert Happened(cfg, events, states, n);
      Charge(cfg, states[n], events[n], i, Books(cfg, events[..n], states[..n + 1], i))
  }

  lemma {:induction false} SameWorkers(cfg: Settings, events: seq<Event>, states: seq<State>, k: nat)
    requires IsRun(cfg, events, states) && k < |states|
    ensures |states[k].workers| == |states[0].workers|
  {
    if k > 0 {
      SameWorkers(cfg, events, states, k - 1);
      assert Happened(cfg, events, states, k - 1);
      StepKeepsCount(cfg, states[k - 1], events[k - 1]);
    }
  }

  lemma {:induction false} RunPaid(cfg: Settings, events: seq<Event>, states: seq<State>, start: nat, i: nat)
    requires IsRun(cfg, events, states) && Timed(events, start) && Started(states[0], start)
    requires cfg.window > 0 && i < |states[0].workers|
    ensures |states[|events|].workers| == |states[0].workers|
    ensures Paid(cfg, states[|events|].workers[i], Books(cfg, events, states, i),
                 Respawns(states, i), Recoveries(states), states[0].workers[i].windowStart)
    decreases |events|
  {
    SameWorkers(cfg, events, states, |events|);
    if events == [] {
      assert states[0].workers[i] in states[0].workers;
    } else {
      var n := |events| - 1;
      ShorterRun(cfg, events, states, start);
      RunPaid(cfg, events[..n], states[..n + 1], start, i);
      RunKeepsInv(cfg, events[..n], states[..n + 1], start);
      ClockAdvances(events, start);
      StepPaid(cfg, states[n], events[n], i, Books(cfg, events[..n], states[..n + 1], i),
               Respawns(states[..n + 1], i), Recoveries(states[..n + 1]), states[0].workers[i].windowStart,
               Clock(events[..n], start));
      assert states[..|states| - 1] == states[..n + 1];
    }
  }

  lemma {:induction false} StepPaid(cfg: Settings, s: State, e: Event, i: nat, l: Ledger, respawns: nat,
      recoveries: nat, first: nat, clock: nat)
    requires Inv(cfg, s, clock) && Enabled(s, e) && cfg.window > 0 && i < |s.workers| && clock <= e.at
    requires Paid(cfg, s.workers[i], l, respawns, recoveries, first)
    ensures var t := Step(cfg, s, e);
            && |t.workers| == |s.workers|
            && Paid(cfg, t.workers[i], Charge(cfg, s, e, i, l), respawns + Respawned(s, t, i),
                    recoveries + Recovered(s, t), first)
  {
    match e
    case Exit(j, abnormal, at) => ExitPaid(cfg, s, j, abnormal, at, i, l, respawns, recoveries, first, clock);
    case Pass(at, forks) => PassPaid(cfg, s, at, forks, i, l, respawns, recoveries, first, clock);
    case Shutdown(_) =>
  }

  /** A worker's restart window never starts again before it has lasted its full length. */
  lemma {:induction false} WindowsApart(cfg: Settings, s: State, e: Event, i: nat, clock: nat)
    requires Inv(cfg, s, clock) && Enabled(s, e) && cfg.window > 0 && i < |s.workers| && clock <= e.at
    ensures var t := Step(cfg, s, e);
            |t.workers| == |s.workers| &&
            (t.workers[i].windowStart == s.workers[i].windowStart
             || s.workers[i].windowStart + cfg.window <= t.workers[i].windowStart)
  {
    assert WorkerInv(cfg, s, s.workers[i], clock);
    if e.Exit? {
      ReapWorkers(cfg, s, e.i, e.abnormal, e.at, i);
    }
  }

  /** Limit plus one, for every window begun in the elapsed time. */
  function Allowance(cfg: Settings, elapsed: nat): nat
    requires cfg.window > 0
  {
    (cfg.maxRestarts + 1) * (elapsed / cfg.window + 1)
  }

  /**
   * The respawn budget: by the time on the clock, a worker has been respawned at most
   * (limit + 1) times per elapsed window, plus once per recovery of the circuit.
   */
  lemma {:induction false} RespawnBudget(cfg: Settings, events: seq<Event>, states: seq<State>, start: nat, i: nat)
    requires IsRun(cfg, events, states) && Timed(events, start) && Started(states[0], start)
    requires cfg.window > 0 && i < |states[0].workers|
    ensures states[0].workers[i].windowStart <= Clock(events, start)
    ensures Respawns(states, i) <=
            Allowance(cfg, Clock(events, start) - states[0].workers[i].windowStart) + Recoveries(states)
  {
    RunPaid(cfg, events, states, start, i);
    RunKeepsInv(cfg, events, states, start);
    var l := Books(cfg, events, states, i);
    var w := states[|events|].workers[i];
    assert WorkerInv(cfg, states[|events|], w, Clock(events, start));
    var elapsed := Clock(events, start) - states[0].workers[i].windowStart;
    BudgetBound(cfg, w, l, Respawns(states, i), Recoveries(states), states[0].workers[i].windowStart, elapsed);
  }

  lemma {:induction false} BudgetBound(cfg: Settings, w: Worker, l: Ledger, respawns: nat, recoveries: nat,
      first: nat, elapsed: nat)
    requires cfg.window > 0 && w.attempts <= cfg.maxRestarts && Paid(cfg, w, l, respawns, recoveries, first)
    requires w.windowStart <= first + elapsed
    ensures respawns <= Allowance(cfg, elapsed) + recoveries
  {
    WindowsElapsed(l.windows - 1, cfg.window, elapsed);
    Budget(cfg.maxRestarts, l.windows, elapsed / cfg.window);
  }

  lemma {:induction false} MultipleIsProduct(n: nat, k: nat)
    ensures Multiple(n, k) == n * k
  {
    if n > 0 {
      MultipleIsProduct(n - 1, k);
      assert n * k == (n - 1) * k + k;
    }
  }

  lemma {:induction false} WindowsElapsed(n: nat, window: nat, elapsed: nat)
    requires window > 0 && Multiple(n, window) <= elapsed
    ensures n <= elapsed / window
  {
    MultipleIsProduct(n, window);
    var q := elapsed / window;
    assert elapsed < q * window + window;
    assert n > q ==> n * window >= (q + 1) * window;
  }

  lemma {:induction false} Budget(max: nat, windows: nat, q: nat)
    requires windows >= 1 && windows - 1 <= q
    ensures Multiple(windows - 1, max) + max + (windows - 1) <= (max + 1) * (q + 1)
  {
    MultipleIsProduct(windows - 1, max);
    assert (windows - 1) * max + max + (windows - 1) + 1 == (max + 1) * windows;
    assert (max + 1) * windows <= (max + 1) * (q + 1);
  }

  // ---------------------------------------------------------------- the circuit breaker

  /** The times of the abnormal exits that the supervisor counted, in order. */
  function Failures(events: seq<Event>, states: seq<State>): seq<nat>
    requires |states| == |events| + 1
  {
    if events == [] then []
    else
      var n := |events| - 1;
      Failures(events[..n], states[..n + 1])
      + if events[n].Exit? && events[n].abnormal && !states[n].shutdown then [events[n].at] else []
  }

  /** The failures counted in the current window are the latest ones, and all fall inside it. */
  ghost predicate Burst(cfg: Settings, s: State, times: seq<nat>) {
    && s.failures <= |times|
    && forall k :: |times| - s.failures <= k < |times| ==>
         s.failureStart <= times[k] && (cfg.failureWindow > 0 ==> times[k] <= s.failureStart + cfg.failureWindow)
  }

  lemma {:induction false} CountBurst(cfg: Settings, s: State, times: seq<nat>, now: nat)
    requires Burst(cfg, s, times) && s.failureStart <= now
    ensures Burst(cfg, CountFailure(cfg, s, now), times + [now])
  {
    var t, more := CountFailure(cfg, s, now), times + [now];
    forall k | |more| - t.failures <= k < |more|
      ensures t.failureStart <= more[k] && (cfg.failureWindow > 0 ==> more[k] <= t.failureStart + cfg.failureWindow)
    {
      if k < |times| {
        assert more[k] == times[k];
      }
    }
  }

  lemma {:induction false} RunBursts(cfg: Settings, events: seq<Event>, states: seq<State>, start: nat)
    requires IsRun(cfg, events, states) && Timed(events, start) && Started(states[0], start)
    ensures Burst(cfg, states[|events|], Failures(events, states))
    ensures states[|events|].failureStart <= Clock(events, start)
    decreases |events|
  {
    if events != [] {
      var n := |events| - 1;
      ShorterRun(cfg, events, states, start);
      RunBursts(cfg, events[..n], states[..n + 1], start);
      ClockAdvances(events, start);
      StepBursts(cfg, states[n], events[n], Failures(events[..n], states[..n + 1]));
      assert states[..|states| - 1] == states[..n + 1];
    }
  }

  lemma {:induction false} StepBursts(cfg: Settings, s: State, e: Event, times: seq<nat>)
    requires Enabled(s, e) && Burst(cfg, s, times) && s.failureStart <= e.at
    ensures var counted := e.Exit? && e.abnormal && !s.shutdown;
            Burst(cfg, Step(cfg, s, e), times + if counted then [e.at] else [])
    ensures Step(cfg, s, e).failureStart <= e.at
  {
    if e.Exit? && e.abnormal && !s.shutdown {
      CountBurst(cfg, s, times, e.at);
    } else {
      assert times + [] == times;
    }
  }

  /** The circuit opened at event k: the exit reached the failure threshold. */
  ghost predicate OpenedAt(cfg: Settings, events: seq<Event>, states: seq<State>, k: nat) {
    && k < |events| < |states| && events[k].Exit?
    && Tripping(cfg, states[k], events[k].abnormal, events[k].at)
  }

  /**
   * The circuit opens only on a burst: at that moment at least `threshold` abnormal exits,
   * the latest ones, lie in the current failure window.
   */
  lemma {:induction false} OpensOnlyOnBurst(cfg: Settings, events: seq<Event>, states: seq<State>, start: nat)
    requires IsRun(cfg, events, states) && Timed(events, start) && Started(states[0], start)
    requires events != [] && OpenedAt(cfg, events, states, |events| - 1)
    ensures var s, times := states[|events|], Failures(events, states);
            && s.circuitOpen && s.resetAt == events[|events| - 1].at + cfg.circuitBackoff
            && 0 < cfg.threshold <= s.failures && Burst(cfg, s, times)
  {
    var n := |events| - 1;
    assert Happened(cfg, events, states, n);
    RunBursts(cfg, events, states, start);
    ReapWorkers(cfg, states[n], events[n].i, events[n].abnormal, events[n].at, events[n].i);
  }

  /** The time of the latest opening, if there has been one. */
  ghost function LastOpening(cfg: Settings, events: seq<Event>, states: seq<State>): Option<nat>
    requires |states| == |events| + 1
  {
    if events == [] then None
    else
      var n := |events| - 1;
      if events[n].Exit? && Tripping(cfg, states[n], events[n].abnormal, events[n].at) then Some(events[n].at)
      else LastOpening(cfg, events[..n], states[..n + 1])
  }

  /**
   * While the circuit is open the reset time is one backoff after the latest opening; once closed, that time has
   * passed.
   */
  ghost predicate Backed(cfg: Settings, s: State, last: Option<nat>, clock: nat) {
    if s.circuitOpen then last.Some? && s.resetAt == last.value + cfg.circuitBackoff
    else last.Some? ==> last.value + cfg.circuitBackoff <= clock
  }

  lemma {:induction false} StepBacked(cfg: Settings, s: State, e: Event, last: Option<nat>, clock: nat)
    requires Enabled(s, e) && Backed(cfg, s, last, clock) && 0 < clock <= e.at
    ensures Backed(cfg, Step(cfg, s, e),
                   if e.Exit? && Tripping(cfg, s, e.abnormal, e.at) then Some(e.at) else last, e.at)
  {
    if e.Exit? {
      ReapWorkers(cfg, s, e.i, e.abnormal, e.at, e.i);
    }
  }

  lemma {:induction false} RunBacked(cfg: Settings, events: seq<Event>, states: seq<State>, start: nat)
    requires IsRun(cfg, events, states) && Timed(events, start) && Started(states[0], start)
    ensures Backed(cfg, states[|events|], LastOpening(cfg, events, states), Clock(events, start))
    decreases |events|
  {
    if events != [] {
      var n := |events| - 1;
      ShorterRun(cfg, events, states, start);
      PrefixRun(cfg, events, states, n);
      RunBacked(cfg, events[..n], states[..n + 1], start);
      ClockAdvances(events, start);
      StepBacked(cfg, states[n], events[n], LastOpening(cfg, events[..n], states[..n + 1]), Clock(events[..n], start));
    }
  }

  /** No worker comes back until the circuit backoff after the latest opening has passed. */
  lemma {:induction false} NoRespawnWhileHeld(cfg: Settings, events: seq<Event>, states: seq<State>, start: nat, i: nat)
    requires IsRun(cfg, events, states) && Timed(events, start) && Started(states[0], start) && events != []
    requires Respawned(states[|events| - 1], states[|events|], i) == 1
    ensures var last := LastOpening(cfg, events, states);
            last.Some? ==> last.value + cfg.circuitBackoff <= events[|events| - 1].at
  {
    var n := |events| - 1;
    assert Happened(cfg, events, states, n);
    if events[n].Exit? {
      ReapWorkers(cfg, states[n], events[n].i, events[n].abnormal, events[n].at, i);
    }
    RunBacked(cfg, events, states, start);
    PrefixRun(cfg, events, states, n);
    RunBacked(cfg, events[..n], states[..n + 1], start);
  }

  // ---------------------------------------------------------------- the worker that opens the circuit

  ghost predicate Abandoned(s: State, i: nat) {
    i < |s.workers| && !s.workers[i].running && !s.workers[i].pending
  }

  lemma {:induction false} AbandonedStays(cfg: Settings, s: State, e: Event, i: nat)
    requires Enabled(s, e) && Abandoned(s, i)
    ensures Abandoned(Step(cfg, s, e), i)
  {
    if e.Exit? {
      ReapWorkers(cfg, s, e.i, e.abnormal, e.at, i);
    }
  }

  /** The exit that opens the circuit schedules no restart: that worker never runs again. */
  lemma {:induction false} OpenerNeverRestarts(cfg: Settings, events: seq<Event>, states: seq<State>, k: nat, m: nat)
    requires IsRun(cfg, events, states) && OpenedAt(cfg, events, states, k) && k < m < |states|
    ensures Abandoned(states[m], events[k].i)
    decreases m
  {
    assert Happened(cfg, events, states, m - 1);
    if m == k + 1 {
      ReapWorkers(cfg, states[k], events[k].i, events[k].abnormal, events[k].at, events[k].i);
    } else {
      OpenerNeverRestarts(cfg, events, states, k, m - 1);
      AbandonedStays(cfg, states[m - 1], events[m - 1], events[k].i);
    }
  }

  /** Exactly when an exit leaves its worker waiting for a restart. */
  lemma {:induction false} PendingIff(cfg: Settings, s: State, i: nat, abnormal: bool, now: nat)
    requires i < |s.workers|
    ensures |Reap(cfg, s, i, abnormal, now).workers| == |s.workers|
    ensures Reap(cfg, s, i, abnormal, now).workers[i].pending <==>
            && abnormal && !s.shutdown && !Tripping(cfg, s, abnormal, now) && cfg.restartFailed
            && !GivesUp(cfg, s.workers[i], now)
  {
    ReapWorkers(cfg, s, i, abnormal, now, i);
  }

  /**
   * So an abnormal exit that restarts are configured for, that comes before shutdown and within the
   * worker's budget is left without a restart if and only if it opens the circuit, and then for good.
   */
  lemma {:induction false} LostIffOpener(cfg: Settings, events: seq<Event>, states: seq<State>, k: nat)
    requires IsRun(cfg, events, states) && k < |events| && events[k].Exit? && events[k].abnormal
    requires cfg.restartFailed && !states[k].shutdown && events[k].i < |states[k].workers|
    requires !GivesUp(cfg, states[k].workers[events[k].i], events[k].at)
    ensures (forall m :: k < m < |states| ==> Abandoned(states[m], events[k].i)) <==> OpenedAt(cfg, events, states, k)
  {
    assert Happened(cfg, events, states, k);
    PendingIff(cfg, states[k], events[k].i, true, events[k].at);
    if OpenedAt(cfg, events, states, k) {
      forall m | k < m < |states| ensures Abandoned(states[m], events[k].i) {
        OpenerNeverRestarts(cfg, events, states, k, m);
      }
    }
  }

  function FreshWorker(index: nat): Worker {
    Worker(index, true, false, false, 0, 0, 1, 0, false, 0, false)
  }

  /** Two workers, three restarts a second each, and a circuit that two failures a second open for half a second. */
  function TwoWorkers(): (Settings, State) {
    (Settings(true, 3, 100, 1000, 2, 1000, 500, 2),
     State([FreshWorker(0), FreshWorker(1)], false, 0, 0, 0, false, false))
  }

  /**
   * Worker 0 fails and waits for its restart; worker 1 fails and opens the circuit; the circuit
   * closes. Worker 0, which was already waiting, runs again; worker 1 is abandoned.
   */
  lemma {:induction false} OpenerLeftBehind() returns (events: seq<Event>, states: seq<State>)
    ensures var (cfg, s) := TwoWorkers();
            && events == [Exit(0, true, 10), Exit(1, true, 20), Pass(520, [true, true])]
            && IsRun(cfg, events, states) && states[0] == s && Timed(events, 1) && Started(s, 1)
            && OpenedAt(cfg, events, states, 1)
            && |states[3].workers| == 2 && states[3].workers[0].running && Abandoned(states[3], 1)
            && !states[3].circuitOpen
  {
    var (cfg, s) := TwoWorkers();
    events := [Exit(0, true, 10), Exit(1, true, 20), Pass(520, [true, true])];
    var waiting := FirstFailure();
    var held := SecondFailure();
    states := [s, waiting, held, StartDue(cfg, held, 520, [true, true])];
    forall k | 0 <= k < 3 ensures Happened(cfg, events, states, k) {
      assert k == 0 || k == 1 || k == 2;
    }
  }

  lemma {:induction false} FirstFailure() returns (waiting: State)
    ensures var (cfg, s) := TwoWorkers();
            && waiting == Reap(cfg, s, 0, true, 10)
            && waiting == State([Worker(0, false, true, false, 1, 1, 1, 110, false, 0, false), FreshWorker(1)],
                                false, 10, 1, 0, false, false)
  {
    var (cfg, s) := TwoWorkers();
    waiting := Reap(cfg, s, 0, true, 10);
  }

  lemma {:induction false} SecondFailure() returns (held: State)
    ensures var (cfg, s) := TwoWorkers();
            && held == Reap(cfg, Reap(cfg, s, 0, true, 10), 1, true, 20)
            && held == State([Worker(0, false, true, true, 1, 1, 1, 520, true, 520, false),
                              Worker(1, false, false, false, 0, 0, 1, 0, true, 520, false)],
                             true, 10, 2, 520, false, false)
  {
    var (cfg, s) := TwoWorkers();
    var waiting := FirstFailure();
    held := Reap(cfg, waiting, 1, true, 20);
  }
}
