/**
 * The asynchronous log appender between one start and one stop: any number of appending and
 * flushing threads, the worker and the stopper, interleaved at every access to shared state.
 */
module Appender {
  import opened Sequences

  type Item = string

  /** Where a thread inside `append` stands. */
  datatype AppendPc =
    | Entering(item: Item)   // about to read running_
    | Waiting(item: Item)    // wants the lock and room in the queue
    | Holding(item: Item)    // has the lock, about to read running_ again
    | Pushing(item: Item)    // has the lock, saw running_ set
    | Direct(item: Item)     // about to hand the item to the sink itself
    | Appended

  /** Where the worker thread stands. */
  datatype WorkerPc =
    | Sleeping               // wants the lock and something to do
    | Choosing               // has the lock, about to test for the end
    | Carrying(item: Item)   // popped an item, about to deliver it
    | Finishing              // delivered it, about to clear processing_
    | Exited

  /** Where a thread inside `flush` stands. */
  datatype FlushPc =
    | Asking                 // about to read running_
    | Watching               // waits for an empty queue and an idle worker
    | Draining               // pops items itself
    | Bearing(item: Item)    // popped an item, about to deliver it
    | Flushed

  /** Where `stop` stands. */
  datatype StopPc =
    | NotCalled
    | Flagging               // running_ cleared, about to set stopping_
    | Joining                // waits for the worker to exit
    | Emptying               // the final flush
    | Handing(item: Item)
    | Returned

  datatype Owner = Nobody | Thread(i: nat) | WorkerThread

  /** The shared fields, the threads, and a record of what has been appended, pushed, popped and delivered. */
  datatype State = State(queue: seq<Item>, processing: bool, running: bool, stopping: bool, lock: Owner,
                         appenders: seq<AppendPc>, worker: WorkerPc, flushers: seq<FlushPc>, stopper: StopPc,
                         appended: multiset<Item>, pushed: seq<Item>, popped: seq<Item>,
                         viaQueue: multiset<Item>, viaCaller: multiset<Item>)

  const INITIAL := State([], false, true, false, Nobody, [], Sleeping, [], NotCalled,
                         multiset{}, [], [], multiset{}, multiset{})

  datatype Step =
    | CallAppend(item: Item) | AppendLoad(i: nat) | AppendWake(i: nat) | AppendTest(i: nat)
    | AppendPush(i: nat) | AppendDirect(i: nat)
    | WorkerWake | WorkerChoose | WorkerDeliver | WorkerFinish
    | CallFlush | FlushLoad(i: nat) | FlushWatch(i: nat) | FlushPop(i: nat) | FlushDeliver(i: nat)
    | StopExchange | StopFlag | StopJoin | StopPop | StopDeliver

  /** Whether a thread can take the step now; `limit` is the queue bound, 0 for none. */
  predicate Enabled(limit: nat, s: State, step: Step) {
    match step
    case CallAppend(_) => true
    case AppendLoad(i) => i < |s.appenders| && s.appenders[i].Entering?
    case AppendWake(i) =>
      && i < |s.appenders| && s.appenders[i].Waiting? && s.lock == Nobody
      && (!s.running || limit == 0 || |s.queue| < limit)
    case AppendTest(i) => i < |s.appenders| && s.appenders[i].Holding?
    case AppendPush(i) => i < |s.appenders| && s.appenders[i].Pushing?
    case AppendDirect(i) => i < |s.appenders| && s.appenders[i].Direct?
    case WorkerWake => s.worker.Sleeping? && s.lock == Nobody && (s.queue != [] || s.stopping || !s.running)
    case WorkerChoose => s.worker.Choosing?
    case WorkerDeliver => s.worker.Carrying?
    case WorkerFinish => s.worker.Finishing? && s.lock == Nobody
    case CallFlush => true
    case FlushLoad(i) => i < |s.flushers| && s.flushers[i].Asking?
    case FlushWatch(i) =>
      i < |s.flushers| && s.flushers[i].Watching? && s.lock == Nobody && s.queue == [] && !s.processing
    case FlushPop(i) => i < |s.flushers| && s.flushers[i].Draining? && s.lock == Nobody
    case FlushDeliver(i) => i < |s.flushers| && s.flushers[i].Bearing?
    case StopExchange => s.stopper.NotCalled?
    case StopFlag => s.stopper.Flagging?
    case StopJoin => s.stopper.Joining? && s.worker.Exited?
    case StopPop => s.stopper.Emptying? && s.lock == Nobody
    case StopDeliver => s.stopper.Handing?
  }

  function Pop(s: State): State
    requires s.queue != []
  {
    s.(queue := s.queue[1..], popped := s.popped + [s.queue[0]])
  }

  function Next(limit: nat, s: State, step: Step): State
    requires Enabled(limit, s, step)
  {
    match step
    case CallAppend(item) => s.(appenders := s.appenders + [Entering(item)], appended := s.appended + multiset{item})
    case AppendLoad(i) =>
      var item := s.appenders[i].item;
      s.(appenders := s.appenders[i := if s.running then Waiting(item) else Direct(item)])
    case AppendWake(i) => s.(appenders := s.appenders[i := Holding(s.appenders[i].item)], lock := Thread(i))
    case AppendTest(i) =>
      var item := s.appenders[i].item;
      if s.running then s.(appenders := s.appenders[i := Pushing(item)])
      else s.(appenders := s.appenders[i := Direct(item)], lock := Nobody)
    case AppendPush(i) =>
      var item := s.appenders[i].item;
      s.(appenders := s.appenders[i := Appended], lock := Nobody, queue := s.queue + [item],
         pushed := s.pushed + [item])
    case AppendDirect(i) =>
      s.(appenders := s.appenders[i := Appended], viaCaller := s.viaCaller + multiset{s.appenders[i].item})
    case WorkerWake => s.(worker := Choosing, lock := WorkerThread)
    case WorkerChoose =>
      if (s.stopping || !s.running) && s.queue == [] then s.(worker := Exited, lock := Nobody)
      else if s.queue == [] then s
      else Pop(s).(worker := Carrying(s.queue[0]), processing := true, lock := Nobody)
    case WorkerDeliver => s.(worker := Finishing, viaQueue := s.viaQueue + multiset{s.worker.item})
    case WorkerFinish => s.(worker := Sleeping, processing := false)
    case CallFlush => s.(flushers := s.flushers + [Asking])
    case FlushLoad(i) => s.(flushers := s.flushers[i := if s.running then Watching else Draining])
    case FlushWatch(i) => s.(flushers := s.flushers[i := Flushed])
    case FlushPop(i) =>
      if s.queue == [] then s.(flushers := s.flushers[i := Flushed])
      else Pop(s).(flushers := s.flushers[i := Bearing(s.queue[0])])
    case FlushDeliver(i) =>
      s.(flushers := s.flushers[i := Draining], viaQueue := s.viaQueue + multiset{s.flushers[i].item})
    case StopExchange => s.(running := false, stopper := Flagging)
    case StopFlag => s.(stopping := true, stopper := Joining)
    case StopJoin => s.(stopper := Emptying)
    case StopPop => if s.queue == [] then s.(stopper := Returned) else Pop(s).(stopper := Handing(s.queue[0]))
    case StopDeliver => s.(stopper := Emptying, viaQueue := s.viaQueue + multiset{s.stopper.item})
  }

  // ---------------------------------------------------------------- where the items are

  /** How many copies of item x a thread is carrying. */
  function InAppender(pc: AppendPc, x: Item): nat {
    if !pc.Appended? && pc.item == x then 1 else 0
  }

  function InAppenders(pcs: seq<AppendPc>, x: Item): nat {
    if pcs == [] then 0 else InAppenders(pcs[..|pcs| - 1], x) + InAppender(pcs[|pcs| - 1], x)
  }

  function InFlusher(pc: FlushPc, x: Item): nat {
    if pc.Bearing? && pc.item == x then 1 else 0
  }

  function InFlushers(pcs: seq<FlushPc>, x: Item): nat {
    if pcs == [] then 0 else InFlushers(pcs[..|pcs| - 1], x) + InFlusher(pcs[|pcs| - 1], x)
  }

  function InWorker(pc: WorkerPc, x: Item): nat {
    if pc.Carrying? && pc.item == x then 1 else 0
  }

  function InStopper(pc: StopPc, x: Item): nat {
    if pc.Handing? && pc.item == x then 1 else 0
  }

  /** Copies of x popped from the queue and not yet delivered. */
  function InHands(s: State, x: Item): nat {
    InWorker(s.worker, x) + InFlushers(s.flushers, x) + InStopper(s.stopper, x)
  }

  lemma {:induction false} AppenderMoves(pcs: seq<AppendPc>, i: nat, pc: AppendPc, x: Item)
    requires i < |pcs|
    ensures InAppenders(pcs[i := pc], x) + InAppender(pcs[i], x) == InAppenders(pcs, x) + InAppender(pc, x)
  {
    var n := |pcs| - 1;
    if i == n {
      assert pcs[i := pc][..n] == pcs[..n];
    } else {
      AppenderMoves(pcs[..n], i, pc, x);
      assert pcs[i := pc][..n] == pcs[..n][i := pc];
    }
  }

  lemma {:induction false} FlusherMoves(pcs: seq<FlushPc>, i: nat, pc: FlushPc, x: Item)
    requires i < |pcs|
    ensures InFlushers(pcs[i := pc], x) + InFlusher(pcs[i], x) == InFlushers(pcs, x) + InFlusher(pc, x)
  {
    var n := |pcs| - 1;
    if i == n {
      assert pcs[i := pc][..n] == pcs[..n];
    } else {
      FlusherMoves(pcs[..n], i, pc, x);
      assert pcs[i := pc][..n] == pcs[..n][i := pc];
    }
  }

  // ---------------------------------------------------------------- invariants

  ghost predicate Locks(pc: AppendPc) {
    pc.Holding? || pc.Pushing?
  }

  /** The lock is held by exactly the thread whose program counter says so. */
  ghost predicate LockOwned(s: State) {
    && (forall i :: 0 <= i < |s.appenders| ==> (Locks(s.appenders[i]) <==> s.lock == Thread(i)))
    && (s.worker.Choosing? <==> s.lock == WorkerThread)
    && (s.lock.Thread? ==> s.lock.i < |s.appenders|)
  }

  /** What the flags say about the stopper and the worker. */
  ghost predicate Flags(s: State) {
    && (s.running <==> s.stopper.NotCalled?)
    && (s.stopping ==> !s.running)
    && (s.processing <==> s.worker.Carrying? || s.worker.Finishing?)
    && (s.worker.Choosing? ==> s.queue != [] || s.stopping || !s.running)
  }

  /** While the appender runs, only the worker takes items out of the queue. */
  ghost predicate OnlyWorkerPops(s: State) {
    s.running ==> forall i :: 0 <= i < |s.flushers| ==> !s.flushers[i].Draining? && !s.flushers[i].Bearing?
  }

  ghost predicate Control(s: State) {
    LockOwned(s) && Flags(s) && OnlyWorkerPops(s)
  }

  /** The bound holds, and a thread about to push has room. */
  ghost predicate Bounded(limit: nat, s: State) {
    limit > 0 ==>
      && |s.queue| <= limit
      && forall i :: 0 <= i < |s.appenders| ==>
           && (s.appenders[i].Holding? ==> !s.running || |s.queue| < limit)
           && (s.appenders[i].Pushing? ==> |s.queue| < limit)
  }

  /** Once the worker has exited nobody can push any more. */
  ghost predicate Stopped(s: State) {
    && (s.worker.Exited? ==>
          !s.running && s.queue == [] && forall i :: 0 <= i < |s.appenders| ==> !s.appenders[i].Pushing?)
    && (s.stopper.Emptying? || s.stopper.Handing? || s.stopper.Returned? ==> s.worker.Exited?)
  }

  /** Every copy of x is in exactly one place, and items leave the queue in the order they entered. */
  ghost predicate Conserved(s: State, x: Item) {
    && s.pushed == s.popped + s.queue
    && s.appended[x] == InAppenders(s.appenders, x) + s.viaCaller[x] + multiset(s.pushed)[x]
    && multiset(s.popped)[x] == s.viaQueue[x] + InHands(s, x)
  }

  ghost predicate Inv(limit: nat, s: State) {
    Control(s) && Bounded(limit, s) && Stopped(s)
  }

  ghost predicate ByAppender(step: Step) {
    step.AppendLoad? || step.AppendWake? || step.AppendTest? || step.AppendPush? || step.AppendDirect?
  }

  lemma {:induction false} AppenderLock(limit: nat, s: State, step: Step)
    requires LockOwned(s) && Enabled(limit, s, step) && ByAppender(step)
    ensures LockOwned(Next(limit, s, step))
  {
  }

  lemma {:induction false} LockKept(limit: nat, s: State, step: Step)
    requires LockOwned(s) && Enabled(limit, s, step)
    ensures LockOwned(Next(limit, s, step))
  {
    if ByAppender(step) {
      AppenderLock(limit, s, step);
    }
  }

  lemma {:induction false} FlagsKept(limit: nat, s: State, step: Step)
    requires Control(s) && Enabled(limit, s, step)
    ensures Flags(Next(limit, s, step))
  {
  }

  lemma {:induction false} PoppingKept(limit: nat, s: State, step: Step)
    requires Flags(s) && OnlyWorkerPops(s) && Enabled(limit, s, step)
    ensures OnlyWorkerPops(Next(limit, s, step))
  {
  }

  lemma {:induction false} ControlKept(limit: nat, s: State, step: Step)
    requires Control(s) && Enabled(limit, s, step)
    ensures Control(Next(limit, s, step))
  {
    LockKept(limit, s, step);
    FlagsKept(limit, s, step);
    PoppingKept(limit, s, step);
  }

  lemma {:induction false} BoundedKept(limit: nat, s: State, step: Step)
    requires Inv(limit, s) && Enabled(limit, s, step)
    ensures Bounded(limit, Next(limit, s, step))
  {
  }

  lemma {:induction false} StoppedKept(limit: nat, s: State, step: Step)
    requires Inv(limit, s) && Enabled(limit, s, step)
    ensures Stopped(Next(limit, s, step))
  {
  }

  lemma {:induction false} PopKeepsOrder(s: State, x: Item)
    requires s.queue != [] && s.pushed == s.popped + s.queue
    ensures s.pushed == Pop(s).popped + Pop(s).queue
    ensures multiset(Pop(s).popped)[x] == multiset(s.popped)[x] + if s.queue[0] == x then 1 else 0
  {
    assert s.queue == [s.queue[0]] + s.queue[1..];
  }

  lemma {:induction false} CallGrows(s: State, item: Item, x: Item)
    ensures InAppenders(s.appenders + [Entering(item)], x) == InAppenders(s.appenders, x) + if item == x then 1 else 0
    ensures InFlushers(s.flushers + [Asking], x) == InFlushers(s.flushers, x)
  {
    assert (s.appenders + [Entering(item)])[..|s.appenders|] == s.appenders;
    assert (s.flushers + [Asking])[..|s.flushers|] == s.flushers;
  }

  lemma {:induction false} ConservedKept(limit: nat, s: State, step: Step, x: Item)
    requires Inv(limit, s) && Conserved(s, x) && Enabled(limit, s, step)
    ensures Conserved(Next(limit, s, step), x)
  {
    if ByAppender(step) {
      AppendConserved(limit, s, step, x);
    } else if step.FlushLoad? || step.FlushWatch? || step.FlushPop? || step.FlushDeliver? {
      FlushConserved(limit, s, step, x);
    } else if step.CallAppend? || step.CallFlush? {
      CallConserved(limit, s, step, x);
    } else if step.WorkerWake? || step.WorkerChoose? || step.WorkerDeliver? || step.WorkerFinish? {
      WorkerConserved(limit, s, step, x);
    } else {
      StopConserved(limit, s, step, x);
    }
  }

  lemma {:induction false} CallConserved(limit: nat, s: State, step: Step, x: Item)
    requires Conserved(s, x) && Enabled(limit, s, step) && (step.CallAppend? || step.CallFlush?)
    ensures Conserved(Next(limit, s, step), x)
  {
    if step.CallAppend? {
      CallGrows(s, step.item, x);
      AppendCounted(s.appended, step.item, x);
    } else {
      CallGrows(s, "", x);
    }
  }

  lemma {:induction false} AppendCounted(items: multiset<Item>, item: Item, x: Item)
    ensures (items + multiset{item})[x] == items[x] + if item == x then 1 else 0
  {
  }

  lemma {:induction false} WorkerConserved(limit: nat, s: State, step: Step, x: Item)
    requires Conserved(s, x) && Enabled(limit, s, step)
    requires step.WorkerWake? || step.WorkerChoose? || step.WorkerDeliver? || step.WorkerFinish?
    ensures Conserved(Next(limit, s, step), x)
  {
    if step.WorkerChoose? && s.queue != [] {
      PopConserved(s, Pop(s).(worker := Carrying(s.queue[0]), processing := true, lock := Nobody), x);
    } else if step.WorkerDeliver? {
      DeliverConserved(s, s.(worker := Finishing, viaQueue := s.viaQueue + multiset{s.worker.item}),
                       s.worker.item, x);
    } else {
      assert InHands(Next(limit, s, step), x) == InHands(s, x);
    }
  }

  lemma {:induction false} StopConserved(limit: nat, s: State, step: Step, x: Item)
    requires Conserved(s, x) && Enabled(limit, s, step)
    requires step.StopExchange? || step.StopFlag? || step.StopJoin? || step.StopPop? || step.StopDeliver?
    ensures Conserved(Next(limit, s, step), x)
  {
    if step.StopPop? && s.queue != [] {
      PopConserved(s, Pop(s).(stopper := Handing(s.queue[0])), x);
    } else if step.StopDeliver? {
      DeliverConserved(s, s.(stopper := Emptying, viaQueue := s.viaQueue + multiset{s.stopper.item}),
                       s.stopper.item, x);
    } else {
      assert InHands(Next(limit, s, step), x) == InHands(s, x);
    }
  }

  ghost predicate SameAppends(s: State, t: State) {
    t.appenders == s.appenders && t.appended == s.appended && t.viaCaller == s.viaCaller && t.pushed == s.pushed
  }

  /** Popping moves one item from the queue into some thread's hands. */
  lemma {:induction false} PopConserved(s: State, t: State, x: Item)
    requires Conserved(s, x) && s.queue != [] && SameAppends(s, t)
    requires t.queue == Pop(s).queue && t.popped == Pop(s).popped && t.viaQueue == s.viaQueue
    requires InHands(t, x) == InHands(s, x) + if s.queue[0] == x then 1 else 0
    ensures Conserved(t, x)
  {
    PopKeepsOrder(s, x);
  }

  /** Delivering moves one item out of a thread's hands. */
  lemma {:induction false} DeliverConserved(s: State, t: State, item: Item, x: Item)
    requires Conserved(s, x) && SameAppends(s, t)
    requires t.queue == s.queue && t.popped == s.popped && t.viaQueue == s.viaQueue + multiset{item}
    requires InHands(t, x) + (if item == x then 1 else 0) == InHands(s, x)
    ensures Conserved(t, x)
  {
  }

  lemma {:induction false} AppendConserved(limit: nat, s: State, step: Step, x: Item)
    requires Conserved(s, x) && Enabled(limit, s, step)
    requires ByAppender(step)
    ensures Conserved(Next(limit, s, step), x)
  {
    var t := Next(limit, s, step);
    AppenderMoves(s.appenders, step.i, t.appenders[step.i], x);
    if step.AppendPush? {
      Associate(s.popped, s.queue, [s.appenders[step.i].item]);
    }
  }

  lemma {:induction false} FlushConserved(limit: nat, s: State, step: Step, x: Item)
    requires Conserved(s, x) && Enabled(limit, s, step)
    requires step.FlushLoad? || step.FlushWatch? || step.FlushPop? || step.FlushDeliver?
    ensures Conserved(Next(limit, s, step), x)
  {
    if step.FlushPop? && s.queue != [] {
      FlushPopConserved(s, step.i, x);
    } else if step.FlushDeliver? {
      FlushDeliverConserved(s, step.i, x);
    } else {
      FlusherMoves(s.flushers, step.i, Next(limit, s, step).flushers[step.i], x);
    }
  }

  lemma {:induction false} FlushPopConserved(s: State, i: nat, x: Item)
    requires Conserved(s, x) && s.queue != [] && i < |s.flushers| && s.flushers[i].Draining?
    ensures Conserved(Pop(s).(flushers := s.flushers[i := Bearing(s.queue[0])]), x)
  {
    FlusherMoves(s.flushers, i, Bearing(s.queue[0]), x);
    PopConserved(s, Pop(s).(flushers := s.flushers[i := Bearing(s.queue[0])]), x);
  }

  lemma {:induction false} FlushDeliverConserved(s: State, i: nat, x: Item)
    requires Conserved(s, x) && i < |s.flushers| && s.flushers[i].Bearing?
    ensures Conserved(s.(flushers := s.flushers[i := Draining],
                         viaQueue := s.viaQueue + multiset{s.flushers[i].item}), x)
  {
    FlusherMoves(s.flushers, i, Draining, x);
    DeliverConserved(s, s.(flushers := s.flushers[i := Draining],
                           viaQueue := s.viaQueue + multiset{s.flushers[i].item}), s.flushers[i].item, x);
  }

  // ---------------------------------------------------------------- every interleaving

  ghost predicate Took(limit: nat, steps: seq<Step>, states: seq<State>, k: nat)
    requires k < |steps| && k + 1 < |states|
  {
    Enabled(limit, states[k], steps[k]) && states[k + 1] == Next(limit, states[k], steps[k])
  }

  ghost predicate IsRun(limit: nat, steps: seq<Step>, states: seq<State>) {
    && |states| == |steps| + 1 && states[0] == INITIAL
    && forall k :: 0 <= k < |steps| ==> Took(limit, steps, states, k)
  }

  lemma {:induction false} RunKeepsInv(limit: nat, steps: seq<Step>, states: seq<State>, k: nat, x: Item)
    requires IsRun(limit, steps, states) && k < |states|
    ensures Inv(limit, states[k]) && Conserved(states[k], x)
  {
    if k > 0 {
      RunKeepsInv(limit, steps, states, k - 1, x);
      var s, step := states[k - 1], steps[k - 1];
      assert Took(limit, steps, states, k - 1);
      ControlKept(limit, s, step);
      BoundedKept(limit, s, step);
      StoppedKept(limit, s, step);
      ConservedKept(limit, s, step, x);
    }
  }

  /**
   * Conservation: at every moment of every interleaving, each copy of x that was appended is
   * in exactly one place, and a bounded queue is within its bound.
   */
  lemma {:induction false} NothingLost(limit: nat, steps: seq<Step>, states: seq<State>, k: nat, x: Item)
    requires IsRun(limit, steps, states) && k < |states|
    ensures var s := states[k];
            && s.appended[x] == InAppenders(s.appenders, x) + multiset(s.queue)[x] + InHands(s, x)
                                + s.viaQueue[x] + s.viaCaller[x]
            && s.popped <= s.pushed
            && (limit > 0 ==> |s.queue| <= limit)
  {
    RunKeepsInv(limit, steps, states, k, x);
    assert multiset(states[k].popped + states[k].queue) == multiset(states[k].popped) + multiset(states[k].queue);
  }

  /** Once `stop` has returned the queue is empty, then and at every later moment. */
  lemma {:induction false} EmptyAfterStop(limit: nat, steps: seq<Step>, states: seq<State>, k: nat, m: nat)
    requires IsRun(limit, steps, states) && k <= m < |states| && states[k].stopper.Returned?
    ensures states[m].stopper.Returned? && states[m].queue == [] && states[m].worker.Exited?
  {
    ReturnedForGood(limit, steps, states, k, m);
    RunKeepsInv(limit, steps, states, m, "");
    ReturnedIsEmpty(states[m]);
  }

  lemma {:induction false} ReturnedIsEmpty(s: State)
    requires Stopped(s) && s.stopper.Returned?
    ensures s.queue == [] && s.worker.Exited?
  {
  }

  lemma {:induction false} ReturnedStays(limit: nat, s: State, step: Step)
    requires Enabled(limit, s, step) && s.stopper.Returned?
    ensures Next(limit, s, step).stopper.Returned?
  {
  }

  lemma {:induction false} ReturnedForGood(limit: nat, steps: seq<Step>, states: seq<State>, k: nat, m: nat)
    requires IsRun(limit, steps, states) && k <= m < |states| && states[k].stopper.Returned?
    ensures states[m].stopper.Returned?
    decreases m
  {
    if k < m {
      ReturnedForGood(limit, steps, states, k, m - 1);
      assert Took(limit, steps, states, m - 1);
      ReturnedStays(limit, states[m - 1], steps[m - 1]);
    }
  }

  /** The step in which a flush returns, having found nothing to wait for or nothing left to pop. */
  predicate FlushReturns(s: State, step: Step) {
    step.FlushWatch? || (step.FlushPop? && s.queue == [])
  }

  /**
   * Exactly what a flush has seen when it returns, running or stopped: of every item pushed so far,
   * all copies are delivered but for those that another thread has popped and still holds.
   */
  lemma {:induction false} FlushSees(limit: nat, steps: seq<Step>, states: seq<State>, k: nat, x: Item)
    requires IsRun(limit, steps, states) && k < |steps| && FlushReturns(states[k], steps[k])
    ensures multiset(states[k].pushed)[x] == states[k].viaQueue[x] + InHands(states[k], x)
    ensures multiset(states[k].pushed)[x] == states[k].viaQueue[x] <==> InHands(states[k], x) == 0
  {
    RunKeepsInv(limit, steps, states, k, x);
    assert Took(limit, steps, states, k);
    EmptyConcat(states[k].popped);
  }

  /**
   * A flush that waited can only have missed what another flush holds: everything is delivered if
   * and only if no flusher bears the item, and always while the appender is running.
   */
  lemma {:induction false} FlushSeesAll(limit: nat, steps: seq<Step>, states: seq<State>, k: nat, x: Item)
    requires IsRun(limit, steps, states) && k < |steps| && steps[k].FlushWatch?
    ensures multiset(states[k].pushed)[x] == states[k].viaQueue[x] <==> InFlushers(states[k].flushers, x) == 0
    ensures states[k].running ==> multiset(states[k].pushed)[x] == states[k].viaQueue[x]
  {
    RunKeepsInv(limit, steps, states, k, x);
    FlushSees(limit, steps, states, k, x);
    assert Took(limit, steps, states, k);
    StopperHoldsNothing(limit, steps, states, k);
    if states[k].running {
      NoneBorne(states[k].flushers, x);
    }
  }

  /** By the time `stop` looks, the queue is empty for good: the stopper never pops an item. */
  lemma {:induction false} StopperHoldsNothing(limit: nat, steps: seq<Step>, states: seq<State>, k: nat)
    requires IsRun(limit, steps, states) && k < |states|
    ensures !states[k].stopper.Handing?
  {
    if k > 0 {
      StopperHoldsNothing(limit, steps, states, k - 1);
      RunKeepsInv(limit, steps, states, k - 1, "");
      assert Took(limit, steps, states, k - 1);
      HoldsNothingNext(limit, states[k - 1], steps[k - 1]);
    }
  }

  lemma {:induction false} HoldsNothingNext(limit: nat, s: State, step: Step)
    requires Enabled(limit, s, step) && Stopped(s) && !s.stopper.Handing?
    ensures !Next(limit, s, step).stopper.Handing?
  {
  }

  lemma {:induction false} NoneBorne(pcs: seq<FlushPc>, x: Item)
    requires forall i :: 0 <= i < |pcs| ==> !pcs[i].Bearing?
    ensures InFlushers(pcs, x) == 0
  {
    if pcs != [] {
      NoneBorne(pcs[..|pcs| - 1], x);
    }
  }

  /** The worker never takes from an empty queue: its second test cannot find nothing to do. */
  lemma {:induction false} WorkerAlwaysFinds(limit: nat, steps: seq<Step>, states: seq<State>, k: nat)
    requires IsRun(limit, steps, states) && k < |steps| && steps[k].WorkerChoose?
    ensures var s := states[k]; s.queue != [] || ((s.stopping || !s.running) && states[k + 1].worker.Exited?)
  {
    RunKeepsInv(limit, steps, states, k, "");
    assert Took(limit, steps, states, k);
  }

  // ---------------------------------------------------------------- a flush that returns too early

  /** Two flushes around a stop: the first began while running, the second drains. */
  function EarlySteps(): seq<Step> {
    [CallAppend("x"), AppendLoad(0), AppendWake(0), AppendTest(0), AppendPush(0),
     CallFlush, FlushLoad(0), StopExchange, CallFlush, FlushLoad(1), FlushPop(1), FlushWatch(0)]
  }

  function EarlyState(n: nat): State {
    var x, one := "x", multiset{"x"};
    if n == 0 then INITIAL
    else if n == 1 then INITIAL.(appenders := [Entering(x)], appended := one)
    else if n == 2 then INITIAL.(appenders := [Waiting(x)], appended := one)
    else if n == 3 then INITIAL.(appenders := [Holding(x)], appended := one, lock := Thread(0))
    else if n == 4 then INITIAL.(appenders := [Pushing(x)], appended := one, lock := Thread(0))
    else
      var pushed := INITIAL.(appenders := [Appended], appended := one, queue := [x], pushed := [x]);
      if n == 5 then pushed
      else if n == 6 then pushed.(flushers := [Asking])
      else if n == 7 then pushed.(flushers := [Watching])
      else
        var stopped := pushed.(running := false, stopper := Flagging);
        if n == 8 then stopped.(flushers := [Watching])
        else if n == 9 then stopped.(flushers := [Watching, Asking])
        else if n == 10 then stopped.(flushers := [Watching, Draining])
        else
          var popped := stopped.(queue := [], popped := [x]);
          if n == 11 then popped.(flushers := [Watching, Bearing(x)]) else popped.(flushers := [Flushed, Bearing(x)])
  }

  function EarlyStates(): seq<State> {
    seq(13, i requires 0 <= i < 13 => EarlyState(i))
  }

  lemma {:induction false} EarlyAppends(limit: nat, k: nat)
    requires k < 5
    ensures Enabled(limit, EarlyState(k), EarlySteps()[k])
    ensures Next(limit, EarlyState(k), EarlySteps()[k]) == EarlyState(k + 1)
  {
    assert multiset{} + multiset{"x"} == multiset{"x"};
    assert [] + ["x"] == ["x"];
  }

  lemma {:induction false} EarlyStop(limit: nat, k: nat)
    requires 5 <= k < 8
    ensures Enabled(limit, EarlyState(k), EarlySteps()[k])
    ensures Next(limit, EarlyState(k), EarlySteps()[k]) == EarlyState(k + 1)
  {
    assert [] + [Asking] == [Asking];
  }

  lemma {:induction false} EarlyDrain(limit: nat, k: nat)
    requires 8 <= k < 12
    ensures Enabled(limit, EarlyState(k), EarlySteps()[k])
    ensures Next(limit, EarlyState(k), EarlySteps()[k]) == EarlyState(k + 1)
  {
    assert [Watching] + [Asking] == [Watching, Asking] && [] + ["x"] == ["x"] && ["x"][1..] == [];
  }

  /** The flush that waited returns, after the stop, while the other one still holds the item. */
  lemma {:induction false} FlushReturnsEarly(limit: nat)
    ensures var steps, states := EarlySteps(), EarlyStates();
            && IsRun(limit, steps, states) && steps[11] == FlushWatch(0)
            && multiset(states[11].pushed)["x"] == 1 && states[11].viaQueue["x"] == 0
            && states[12].flushers[0] == Flushed
  {
    var steps, states := EarlySteps(), EarlyStates();
    forall k | 0 <= k < |steps| ensures Took(limit, steps, states, k) {
      if k < 5 {
        EarlyAppends(limit, k);
      } else if k < 8 {
        EarlyStop(limit, k);
      } else {
        EarlyDrain(limit, k);
      }
    }
  }
}
