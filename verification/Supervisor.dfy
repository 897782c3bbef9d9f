/** The supervisor of worker processes: restart windows, backoff, suppression and the circuit breaker. */
module Supervisor {
  import opened Wrappers

  /** The part of the runtime context that governs restarts; times are in milliseconds. */
  datatype Settings = Settings(restartFailed: bool, maxRestarts: nat, backoff: nat, window: nat,
                               threshold: nat, failureWindow: nat, circuitBackoff: nat, planCount: nat)

  datatype Worker = Worker(index: nat, running: bool, pending: bool, suppressed: bool, restartCount: nat, attempts: nat,
                           windowStart: nat, dueAt: nat, circuitOpen: bool, circuitResetAt: nat, exitedNormally: bool)

  datatype State = State(workers: seq<Worker>, circuitOpen: bool, failureStart: nat, failures: nat, resetAt: nat,
                         failureDetected: bool, shutdown: bool)

  // ---------------------------------------------------------------- reaping an exited worker

  /** Counts a failure, opening a new failure window if there is none or the old one has passed. */
  function CountFailure(cfg: Settings, s: State, now: nat): State {
    if s.failureStart == 0 || (cfg.failureWindow > 0 && now > s.failureStart + cfg.failureWindow)
    then s.(failureStart := now, failures := 1)
    else s.(failures := s.failures + 1)
  }

  /** What the opening circuit does to each worker: nothing pending may run before the reset. */
  function Hold(w: Worker, resetAt: nat): Worker {
    var marked := w.(circuitOpen := true, circuitResetAt := resetAt);
    if w.pending then marked.(suppressed := true, dueAt := resetAt) else marked
  }

  function HoldAll(workers: seq<Worker>, resetAt: nat): seq<Worker> {
    seq(|workers|, i requires 0 <= i < |workers| => Hold(workers[i], resetAt))
  }

  /** A failure opens a new restart window once the old one has passed. */
  function OpenWindow(cfg: Settings, w: Worker, now: nat): Worker {
    if w.windowStart == 0 || (cfg.window > 0 && now > w.windowStart + cfg.window)
    then w.(windowStart := now, attempts := 0) else w
  }

  function Mark(s: State, w: Worker): Worker {
    w.(circuitOpen := s.circuitOpen, circuitResetAt := s.resetAt)
  }

  /** A failed worker: its restart is scheduled, or suppressed until the window ends, or given up. */
  function Reschedule(cfg: Settings, s: State, failed: Worker, now: nat): Worker {
    var w := OpenWindow(cfg, failed, now);
    if w.attempts >= cfg.maxRestarts then
      if cfg.window > 0 then
        Mark(s, w.(pending := true, suppressed := true, dueAt := w.windowStart + cfg.window))
      else w
    else if w.index >= cfg.planCount then w
    else
      Mark(s, w.(restartCount := w.restartCount + 1, attempts := w.attempts + 1, pending := true,
                 suppressed := false, dueAt := now + cfg.backoff))
  }

  predicate GivesUp(cfg: Settings, failed: Worker, now: nat) {
    var w := OpenWindow(cfg, failed, now);
    if w.attempts >= cfg.maxRestarts then cfg.window == 0 else w.index >= cfg.planCount
  }

  predicate Trips(cfg: Settings, s: State) {
    cfg.threshold > 0 && s.failures >= cfg.threshold
  }

  function Down(w: Worker, abnormal: bool): Worker {
    w.(running := false, pending := false, suppressed := false, exitedNormally := !abnormal)
  }

  /** `waitpid` has reported that worker `i` exited. */
  function Reap(cfg: Settings, s: State, i: nat, abnormal: bool, now: nat): State
    requires i < |s.workers|
  {
    var down := Down(s.workers[i], abnormal);
    var t := s.(workers := s.workers[i := down]);
    if !abnormal || s.shutdown then t
    else
      var u := CountFailure(cfg, t, now);
      if Trips(cfg, u) then
        var resetAt := now + cfg.circuitBackoff;
        u.(circuitOpen := true, resetAt := resetAt, workers := HoldAll(u.workers, resetAt))
      else if !cfg.restartFailed then u
      else
        u.(workers := u.workers[i := Reschedule(cfg, u, down, now)],
           failureDetected := u.failureDetected || GivesUp(cfg, down, now))
  }

  // ---------------------------------------------------------------- starting due restarts

  function Release(w: Worker): Worker {
    var marked := w.(circuitOpen := false, circuitResetAt := 0);
    if w.pending then marked.(suppressed := false) else marked
  }

  /** The circuit closes: a new failure window begins and suppressed restarts are released. */
  function Recover(s: State, now: nat): State {
    s.(circuitOpen := false, failureStart := now, failures := 0, resetAt := 0,
       workers := seq(|s.workers|, i requires 0 <= i < |s.workers| => Release(s.workers[i])))
  }

  function Max(a: nat, b: nat): nat {
    if a >= b then a else b
  }

  /** A suppressed restart that has become due opens a new window. */
  function Unsuppress(w: Worker, now: nat): Worker {
    if w.suppressed then w.(windowStart := now, attempts := 0, suppressed := false) else w
  }

  predicate Due(w: Worker, now: nat) {
    w.pending && w.dueAt <= now
  }

  predicate Unplanned(cfg: Settings, w: Worker, now: nat) {
    Due(w, now) && w.index >= cfg.planCount
  }

  /** One worker in the pass over due restarts; `forked` says whether `fork` succeeds. */
  function StartOne(cfg: Settings, s: State, w: Worker, now: nat, forked: bool): Worker {
    if !Due(w, now) then w
    else
      var u := Mark(s, Unsuppress(w, now));
      if w.index >= cfg.planCount then u.(pending := false)
      else if forked then
        u.(running := true, pending := false, suppressed := false, exitedNormally := false,
           windowStart := if u.windowStart == 0 then now else u.windowStart, dueAt := 0)
      else u.(pending := true, suppressed := false, dueAt := now + Max(cfg.backoff, 1000))
  }

  /** The pass over all workers; a worker outside the plan is reported as a failure. */
  function StartAll(cfg: Settings, s: State, now: nat, forks: seq<bool>): State
    requires |forks| == |s.workers|
  {
    s.(workers := seq(|s.workers|, i requires 0 <= i < |s.workers| => StartOne(cfg, s, s.workers[i], now, forks[i])),
       failureDetected := s.failureDetected || exists w :: w in s.workers && Unplanned(cfg, w, now))
  }

  predicate Held(s: State, now: nat) {
    s.circuitOpen && (s.resetAt == 0 || now < s.resetAt)
  }

  function StartDue(cfg: Settings, s: State, now: nat, forks: seq<bool>): State
    requires |forks| == |s.workers|
  {
    if Held(s, now) then s
    else StartAll(cfg, if s.circuitOpen then Recover(s, now) else s, now, forks)
  }

  // ---------------------------------------------------------------- runs

  /** A running worker exits, the pass over due restarts runs, or shutdown begins. */
  datatype Event = Exit(i: nat, abnormal: bool, at: nat) | Pass(at: nat, forks: seq<bool>) | Shutdown(at: nat)

  predicate Enabled(s: State, e: Event) {
    match e
    case Exit(i, _, _) => i < |s.workers| && s.workers[i].running
    case Pass(_, forks) => |forks| == |s.workers|
    case Shutdown(_) => true
  }

  function Step(cfg: Settings, s: State, e: Event): State
    requires Enabled(s, e)
  {
    match e
    case Exit(i, abnormal, at) => Reap(cfg, s, i, abnormal, at)
    case Pass(at, forks) => StartDue(cfg, s, at, forks)
    case Shutdown(_) => s.(shutdown := true)
  }

  lemma {:induction false} StepKeepsCount(cfg: Settings, s: State, e: Event)
    requires Enabled(s, e)
    ensures |Step(cfg, s, e).workers| == |s.workers|
  {
  }

  /** The state after each prefix of a run; every event is enabled where it happens. */
  ghost predicate IsRun(cfg: Settings, events: seq<Event>, states: seq<State>) {
    && |states| == |events| + 1
    && forall k :: 0 <= k < |events| ==> Happened(cfg, events, states, k)
  }

  ghost predicate Happened(cfg: Settings, events: seq<Event>, states: seq<State>, k: nat)
    requires k < |events| && k + 1 < |states|
  {
    Enabled(states[k], events[k]) && states[k + 1] == Step(cfg, states[k], events[k])
  }

  /** The clock is positive and never runs backwards. */
  ghost predicate Timed(events: seq<Event>, start: nat) {
    && start > 0
    && (forall k :: 0 <= k < |events| ==> start <= events[k].at)
    && (forall k, m :: 0 <= k < m < |events| ==> events[k].at <= events[m].at)
  }

  /** All workers have just been started at time `start` and nothing has failed yet. */
  ghost predicate Started(s: State, start: nat) {
    && !s.circuitOpen && s.failureStart == 0 && s.failures == 0 && s.resetAt == 0 && !s.shutdown && !s.failureDetected
    && forall w :: w in s.workers ==>
         w.running && !w.pending && !w.suppressed && w.attempts == 0 && 0 < w.windowStart <= start
  }

  function Clock(events: seq<Event>, start: nat): nat {
    if events == [] then start else events[|events| - 1].at
  }
}
