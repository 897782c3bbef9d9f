/** The supervisor as it runs: worker records and circuit fields updated in place. */
module SupervisorObject {
  import opened Wrappers
  import opened Supervisor

  /** What `waitpid` says about one worker, and the time at which it was asked. */
  datatype Report = Alive | Exited(abnormal: bool, at: nat)

  /** The reaping pass over the first n workers, as a function. */
  function ReapFirst(cfg: Settings, s: State, reports: seq<Report>, n: nat): (t: State)
    requires |reports| == |s.workers| && n <= |s.workers|
    ensures |t.workers| == |s.workers|
  {
    if n == 0 then s
    else
      var t := ReapFirst(cfg, s, reports, n - 1);
      if t.workers[n - 1].running && reports[n - 1].Exited?
      then Reap(cfg, t, n - 1, reports[n - 1].abnormal, reports[n - 1].at) else t
  }

  predicate AnyRunning(s: State) {
    exists w :: w in s.workers && w.running
  }

  /** One poll: reap, start what is due, and fail fast if a worker was given up. */
  function Poll(cfg: Settings, s: State, reports: seq<Report>, now: nat, forks: seq<bool>): State
    requires |reports| == |forks| == |s.workers|
  {
    var t := StartDue(cfg, ReapFirst(cfg, s, reports, |s.workers|), now, forks);
    if t.failureDetected && AnyRunning(t) then t.(shutdown := true) else t
  }

  /** A worker's start looks only at the circuit fields of the supervisor. */
  lemma {:induction false} StartSeesCircuit(cfg: Settings, s: State, t: State, w: Worker, now: nat, forked: bool)
    requires s.circuitOpen == t.circuitOpen && s.resetAt == t.resetAt
    ensures StartOne(cfg, s, w, now, forked) == StartOne(cfg, t, w, now, forked)
  {
  }

  class WorkerSupervisor {
    const cfg: Settings
    var workers: seq<Worker>
    var circuitOpen: bool
    var failureStart: nat
    var failures: nat
    var resetAt: nat
    var failureDetected: bool
    var shutdown: bool

    ghost function View(): State
      reads this
    {
      State(workers, circuitOpen, failureStart, failures, resetAt, failureDetected, shutdown)
    }

    constructor (cfg: Settings, workers: seq<Worker>)
      ensures this.cfg == cfg && View() == State(workers, false, 0, 0, 0, false, false)
    {
      this.cfg, this.workers := cfg, workers;
      circuitOpen, failureStart, failures, resetAt, failureDetected, shutdown := false, 0, 0, 0, false, false;
    }

    method ReapWorkerProcesses(reports: seq<Report>)
      requires |reports| == |workers|
      modifies this
      ensures View() == ReapFirst(cfg, old(View()), reports, |reports|)
    {
      for i := 0 to |workers|
        invariant |workers| == |reports|
        invariant View() == ReapFirst(cfg, old(View()), reports, i)
      {
        if !workers[i].running || reports[i].Alive? {
          continue;
        }
        ReapOne(i, reports[i].abnormal, reports[i].at);
      }
    }

    method ReapOne(i: nat, abnormal: bool, now: nat)
      requires i < |workers|
      modifies this
      ensures View() == Reap(cfg, old(View()), i, abnormal, now)
    {
      workers := workers[i := workers[i].(running := false, pending := false, suppressed := false,
                                          exitedNormally := !abnormal)];
      if !abnormal || shutdown {
        return;
      }
      if failureStart == 0 || (cfg.failureWindow > 0 && now > failureStart + cfg.failureWindow) {
        failureStart, failures := now, 0;
      }
      failures := failures + 1;
      if cfg.threshold > 0 && failures >= cfg.threshold {
        OpenCircuit(now);
        return;
      }
      if !cfg.restartFailed {
        return;
      }
      ScheduleRestart(i, now);
    }

    method OpenCircuit(now: nat)
      modifies this
      ensures View() == old(View()).(circuitOpen := true, resetAt := now + cfg.circuitBackoff,
                                     workers := HoldAll(old(workers), now + cfg.circuitBackoff))
    {
      circuitOpen := true;
      resetAt := now + cfg.circuitBackoff;
      for k := 0 to |workers|
        invariant |workers| == |old(workers)|
        invariant forall j :: 0 <= j < k ==> workers[j] == Hold(old(workers)[j], resetAt)
        invariant forall j :: k <= j < |workers| ==> workers[j] == old(workers)[j]
        invariant View() == old(View()).(circuitOpen := true, resetAt := now + cfg.circuitBackoff, workers := workers)
      {
        var w := workers[k].(circuitOpen := true, circuitResetAt := resetAt);
        if w.pending {
          w := w.(suppressed := true, dueAt := resetAt);
        }
        workers := workers[k := w];
      }
      assert workers == HoldAll(old(workers), resetAt);
    }

    method ScheduleRestart(i: nat, now: nat)
      requires i < |workers|
      modifies this
      ensures View() == old(View()).(workers := old(workers)[i := Reschedule(cfg, old(View()), old(workers)[i], now)],
                                     failureDetected := old(failureDetected) || GivesUp(cfg, old(workers)[i], now))
    {
      var w, givenUp := PlanRestart(workers[i], now);
      if givenUp {
        failureDetected := true;
      }
      workers := workers[i := w];
    }

    method BeginWindow(failed: Worker, now: nat) returns (w: Worker)
      ensures w == OpenWindow(cfg, failed, now)
    {
      w := failed;
      if w.windowStart == 0 || (cfg.window > 0 && now > w.windowStart + cfg.window) {
        w := w.(windowStart := now, attempts := 0);
      }
    }

    method PlanRestart(failed: Worker, now: nat) returns (w: Worker, givenUp: bool)
      ensures w == Reschedule(cfg, View(), failed, now) && givenUp == GivesUp(cfg, failed, now)
    {
      w := BeginWindow(failed, now);
      if w.attempts >= cfg.maxRestarts {
        if cfg.window > 0 {
          w := w.(pending := true, suppressed := true, dueAt := w.windowStart + cfg.window,
                  circuitOpen := circuitOpen, circuitResetAt := resetAt);
          return w, false;
        }
        return w, true;
      }
      if w.index >= cfg.planCount {
        return w, true;
      }
      w := w.(restartCount := w.restartCount + 1, attempts := w.attempts + 1, pending := true, suppressed := false,
              dueAt := now + cfg.backoff, circuitOpen := circuitOpen, circuitResetAt := resetAt);
      return w, false;
    }

    /** `forks[i]` says whether starting worker i would succeed. */
    method StartDueWorkerRestarts(now: nat, forks: seq<bool>)
      requires |forks| == |workers|
      modifies this
      ensures View() == StartDue(cfg, old(View()), now, forks)
    {
      if circuitOpen {
        if resetAt == 0 || now < resetAt {
          return;
        }
        CloseCircuit(now);
      }
      StartAllDue(now, forks);
    }

    method StartAllDue(now: nat, forks: seq<bool>)
      requires |forks| == |workers|
      modifies this
      ensures View() == StartAll(cfg, old(View()), now, forks)
    {
      ghost var s := View();
      for k := 0 to |workers|
        invariant |workers| == |s.workers|
        invariant forall j :: 0 <= j < k ==> workers[j] == StartOne(cfg, s, s.workers[j], now, forks[j])
        invariant forall j :: k <= j < |workers| ==> workers[j] == s.workers[j]
        invariant View() == s.(workers := workers, failureDetected := failureDetected)
        invariant failureDetected <==> s.failureDetected || exists j :: 0 <= j < k && Unplanned(cfg, s.workers[j], now)
      {
        StartSeesCircuit(cfg, s, View(), s.workers[k], now, forks[k]);
        StartIfDue(k, now, forks[k]);
      }
      assert workers == StartAll(cfg, s, now, forks).workers;
    }

    method StartIfDue(k: nat, now: nat, forked: bool)
      requires k < |workers|
      modifies this
      ensures View() == old(View()).(
        workers := old(workers)[k := StartOne(cfg, old(View()), old(workers)[k], now, forked)],
        failureDetected := old(failureDetected) || Unplanned(cfg, old(workers)[k], now))
    {
      if !workers[k].pending || workers[k].dueAt > now {
        assert workers == workers[k := workers[k]];
        return;
      }
      if workers[k].index >= cfg.planCount {
        failureDetected := true;
      }
      var w := StartWorkerProcess(workers[k], now, forked);
      StartSeesCircuit(cfg, old(View()), View(), workers[k], now, forked);
      workers := workers[k := w];
    }

    method StartWorkerProcess(due: Worker, now: nat, forked: bool) returns (w: Worker)
      requires Due(due, now)
      ensures w == StartOne(cfg, View(), due, now, forked)
    {
      w := due;
      if w.suppressed {
        w := w.(windowStart := now, attempts := 0, suppressed := false);
      }
      w := w.(circuitOpen := circuitOpen, circuitResetAt := resetAt);
      if w.index >= cfg.planCount {
        w := w.(pending := false);
      } else if forked {
        w := w.(running := true, pending := false, suppressed := false, exitedNormally := false,
                windowStart := if w.windowStart == 0 then now else w.windowStart, dueAt := 0);
      } else {
        w := w.(pending := true, suppressed := false, dueAt := now + Max(cfg.backoff, 1000));
      }
    }

    method CloseCircuit(now: nat)
      modifies this
      ensures View() == Recover(old(View()), now)
    {
      circuitOpen, failureStart, failures, resetAt := false, now, 0, 0;
      for k := 0 to |workers|
        invariant |workers| == |old(workers)|
        invariant forall j :: 0 <= j < k ==> workers[j] == Release(old(workers)[j])
        invariant forall j :: k <= j < |workers| ==> workers[j] == old(workers)[j]
        invariant View() == old(View()).(circuitOpen := false, failureStart := now, failures := 0, resetAt := 0,
                                         workers := workers)
      {
        var w := workers[k].(circuitOpen := false, circuitResetAt := 0);
        if w.pending {
          w := w.(suppressed := false);
        }
        workers := workers[k := w];
      }
      assert workers == Recover(old(View()), now).workers;
    }

    method PollWorkers(reports: seq<Report>, now: nat, forks: seq<bool>)
      requires |reports| == |forks| == |workers|
      modifies this
      ensures View() == Poll(cfg, old(View()), reports, now, forks)
    {
      ReapWorkerProcesses(reports);
      StartDueWorkerRestarts(now, forks);
      var running := HasRunningWorkers();
      if failureDetected && running && !shutdown {
        shutdown := true;
      }
    }

    method HasRunningWorkers() returns (any: bool)
      ensures any == AnyRunning(View())
    {
      for i := 0 to |workers|
        invariant forall j :: 0 <= j < i ==> !workers[j].running
      {
        if workers[i].running {
          assert workers[i] in workers;
          return true;
        }
      }
      return false;
    }
  }
}
