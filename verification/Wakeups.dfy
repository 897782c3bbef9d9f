/**
 * Who wakes whom in the asynchronous appender: threads are counted by where they stand, and a
 * thread that sleeps for room in the queue is woken by notifications only.
 */
module Wakeups {
  /** The queue lock, held by an appender that found no room, found room, or saw running_ still set. */
  datatype Lock = Free | Dozing | Holding | Pushing

  datatype State = State(queue: nat, running: bool, lock: Lock,
                         awake: nat,      // appenders that want the lock
                         sleeping: nat,   // appenders asleep until notified
                         owed: nat,       // threads that popped an item and have not notified yet
                         returned: nat)   // appenders that have returned

  const INITIAL := State(0, true, Free, 0, 0, 0, 0)

  /** Nothing in `stop` notifies the sleeping appenders: only a pop does. */
  datatype Step = Arrive | Look | Sleep | Check | Push | Pop | Notify | Stop

  predicate Enabled(s: State, step: Step) {
    match step
    case Arrive => true
    case Look => s.awake > 0 && s.lock.Free?
    case Sleep => s.lock.Dozing?
    case Check => s.lock.Holding?
    case Push => s.lock.Pushing?
    case Pop => s.queue > 0 && s.lock.Free?
    case Notify => s.owed > 0
    case Stop => s.running
  }

  predicate Full(limit: nat, s: State) {
    limit > 0 && s.queue >= limit
  }

  function Next(limit: nat, s: State, step: Step): State
    requires Enabled(s, step)
  {
    match step
    case Arrive => if s.running then s.(awake := s.awake + 1) else s.(returned := s.returned + 1)
    case Look => s.(awake := s.awake - 1, lock := if s.running && Full(limit, s) then Dozing else Holding)
    case Sleep => s.(lock := Free, sleeping := s.sleeping + 1)
    case Check => if s.running then s.(lock := Pushing) else s.(lock := Free, returned := s.returned + 1)
    case Push => s.(lock := Free, queue := s.queue + 1, returned := s.returned + 1)
    case Pop => s.(queue := s.queue - 1, owed := s.owed + 1)
    case Notify =>
      if s.sleeping > 0 then s.(owed := s.owed - 1, sleeping := s.sleeping - 1, awake := s.awake + 1)
      else s.(owed := s.owed - 1)
    case Stop => s.(running := false)
  }

  /** The steps can be taken one after the other. */
  predicate CanTake(limit: nat, s: State, steps: seq<Step>)
    decreases |steps|
  {
    steps == [] || (Enabled(s, steps[0]) && CanTake(limit, Next(limit, s, steps[0]), steps[1..]))
  }

  function After(limit: nat, s: State, steps: seq<Step>): State
    requires CanTake(limit, s, steps)
    decreases |steps|
  {
    if steps == [] then s else After(limit, Next(limit, s, steps[0]), steps[1..])
  }

  // ---------------------------------------------------------------- after stop

  /** The notifications still to come: one per queued item, per item about to be queued, and per pop not announced. */
  function Credits(s: State): nat {
    s.queue + s.owed + if s.lock.Pushing? then 1 else 0
  }

  function Less(a: nat, b: nat): nat {
    if a <= b then 0 else a - b
  }

  /** Sleepers, those falling asleep included, beyond the notifications to come. */
  function Stranded(s: State): nat {
    Less(s.sleeping + (if s.lock.Dozing? then 1 else 0), Credits(s))
  }

  lemma {:induction false} StepStrands(limit: nat, s: State, step: Step)
    requires Enabled(s, step) && !s.running
    ensures var t := Next(limit, s, step);
            && !t.running && Stranded(s) <= Stranded(t)
            && (!s.lock.Dozing? ==> !t.lock.Dozing? && Stranded(t) == Stranded(s))
  {
  }

  lemma {:induction false} RunStrands(limit: nat, s: State, steps: seq<Step>)
    requires !s.running && CanTake(limit, s, steps)
    ensures var t := After(limit, s, steps);
            && Stranded(s) <= Stranded(t)
            && (!s.lock.Dozing? ==> Stranded(t) == Stranded(s))
    decreases |steps|
  {
    if steps != [] {
      StepStrands(limit, s, steps[0]);
      RunStrands(limit, Next(limit, s, steps[0]), steps[1..]);
    }
  }

  /** Nobody can move any more, except callers who find the appender stopped and return at once. */
  predicate Settled(s: State) {
    !s.running && s.lock.Free? && s.awake == 0 && s.queue == 0 && s.owed == 0
  }

  lemma {:induction false} SettledIffStuck(s: State)
    requires !s.running
    ensures Settled(s) <==> forall step :: Enabled(s, step) ==> step.Arrive?
  {
    if !Settled(s) {
      assert Enabled(s, Look) || Enabled(s, Sleep) || Enabled(s, Check) || Enabled(s, Push)
          || Enabled(s, Pop) || Enabled(s, Notify);
    }
  }

  /** Every step but an arrival uses up part of what is left to do, so every run settles. */
  function Work(s: State): nat {
    2 * s.awake + 2 * s.sleeping + 2 * s.queue + s.owed
    + match s.lock { case Free => 0 case Holding => 1 case Dozing => 3 case Pushing => 3 }
  }

  lemma {:induction false} StepsAreFew(limit: nat, s: State, step: Step)
    requires Enabled(s, step) && !s.running
    ensures Work(Next(limit, s, step)) + (if step.Arrive? then 0 else 1) <= Work(s)
  {
  }

  function Moves(steps: seq<Step>): nat {
    if steps == [] then 0 else (if steps[0].Arrive? then 0 else 1) + Moves(steps[1..])
  }

  lemma {:induction false} RunsSettle(limit: nat, s: State, steps: seq<Step>)
    requires !s.running && CanTake(limit, s, steps)
    ensures Moves(steps) <= Work(s)
    decreases |steps|
  {
    if steps != [] {
      StepsAreFew(limit, s, steps[0]);
      RunsSettle(limit, Next(limit, s, steps[0]), steps[1..]);
    }
  }

  /**
   * Exactly who is left behind: from a stop at which no thread is just falling asleep, every run
   * that settles leaves as many appenders asleep for good as there were sleepers beyond the
   * notifications still to come.
   */
  lemma {:induction false} SleepersLeft(limit: nat, s: State, steps: seq<Step>)
    requires !s.running && !s.lock.Dozing? && CanTake(limit, s, steps) && Settled(After(limit, s, steps))
    ensures After(limit, s, steps).sleeping == Stranded(s)
    ensures After(limit, s, steps).sleeping == 0 <==> s.sleeping <= Credits(s)
  {
    RunStrands(limit, s, steps);
  }

  /** A thread just falling asleep can only make it worse: its wakeup may already have been spent. */
  lemma {:induction false} AtLeastLeft(limit: nat, s: State, steps: seq<Step>)
    requires !s.running && CanTake(limit, s, steps) && Settled(After(limit, s, steps))
    ensures After(limit, s, steps).sleeping >= Stranded(s)
  {
    RunStrands(limit, s, steps);
  }

  /** The steps lead from one state to the other. */
  predicate Leads(limit: nat, s: State, steps: seq<Step>, t: State) {
    CanTake(limit, s, steps) && After(limit, s, steps) == t
  }

  /** Three appends to a queue of one, then stop: one item is queued, two appenders sleep. */
  function ThreeAppends(): seq<Step> {
    [Arrive, Look, Check, Push] + TwoSleepers()
  }

  function TwoSleepers(): seq<Step> {
    [Arrive, Look, Sleep] + SleepThenStop()
  }

  function SleepThenStop(): seq<Step> {
    [Arrive, Look, Sleep] + [Stop]
  }

  lemma {:induction false} AfterAppend(limit: nat, s: State, a: seq<Step>, b: seq<Step>)
    requires CanTake(limit, s, a) && CanTake(limit, After(limit, s, a), b)
    ensures Leads(limit, s, a + b, After(limit, After(limit, s, a), b))
    decreases |a|
  {
    if a == [] {
      assert a + b == b;
    } else {
      assert (a + b)[1..] == a[1..] + b;
      AfterAppend(limit, Next(limit, s, a[0]), a[1..], b);
    }
  }

  lemma {:induction false} FallsAsleep(s: State)
    requires s.running && s.queue == 1 && s.lock.Free? && s.awake == 0
    ensures Leads(1, s, [Arrive, Look, Sleep], s.(sleeping := s.sleeping + 1))
  {
    assert [Arrive, Look, Sleep][1..] == [Look, Sleep] && [Look, Sleep][1..] == [Sleep] && [Sleep][1..] == [];
    var arrived := Next(1, s, Arrive);
    var dozing := Next(1, arrived, Look);
    assert Leads(1, dozing, [Sleep], Next(1, dozing, Sleep));
    assert Leads(1, arrived, [Look, Sleep], Next(1, dozing, Sleep));
  }

  lemma {:induction false} FillsQueue()
    ensures Leads(1, INITIAL, [Arrive, Look, Check, Push], INITIAL.(queue := 1, returned := 1))
  {
    var arrived := Next(1, INITIAL, Arrive);
    var holding := Next(1, arrived, Look);
    var pushing := Next(1, holding, Check);
    assert [Arrive, Look, Check, Push][1..] == [Look, Check, Push] && [Look, Check, Push][1..] == [Check, Push];
    assert [Check, Push][1..] == [Push] && [Push][1..] == [];
    assert Leads(1, pushing, [Push], Next(1, pushing, Push));
    assert Leads(1, holding, [Check, Push], Next(1, pushing, Push));
    assert Leads(1, arrived, [Look, Check, Push], Next(1, pushing, Push));
  }

  lemma {:induction false} InTwo(limit: nat, s: State, a: seq<Step>, t: State, b: seq<Step>, u: State)
    requires Leads(limit, s, a, t) && Leads(limit, t, b, u)
    ensures Leads(limit, s, a + b, u)
  {
    AfterAppend(limit, s, a, b);
  }

  lemma {:induction false} Stops(s: State)
    requires s.running
    ensures Leads(1, s, [Stop], s.(running := false))
  {
    assert [Stop][1..] == [];
  }

  lemma {:induction false} OneThenStop(s: State)
    requires s.running && s.queue == 1 && s.lock.Free? && s.awake == 0
    ensures Leads(1, s, SleepThenStop(), s.(sleeping := s.sleeping + 1, running := false))
  {
    var t := s.(sleeping := s.sleeping + 1);
    FallsAsleep(s);
    Stops(t);
    InTwo(1, s, [Arrive, Look, Sleep], t, [Stop], t.(running := false));
  }

  lemma {:induction false} TwoThenStop(s: State)
    requires s.running && s.queue == 1 && s.lock.Free? && s.awake == 0
    ensures Leads(1, s, TwoSleepers(), s.(sleeping := s.sleeping + 2, running := false))
  {
    var t := s.(sleeping := s.sleeping + 1);
    FallsAsleep(s);
    OneThenStop(t);
    InTwo(1, s, [Arrive, Look, Sleep], t, SleepThenStop(), s.(sleeping := s.sleeping + 2, running := false));
  }

  lemma {:induction false} AtStop()
    ensures Leads(1, INITIAL, ThreeAppends(), State(1, false, Free, 0, 2, 0, 1))
  {
    var full := State(1, true, Free, 0, 0, 0, 1);
    FillsQueue();
    TwoThenStop(full);
    InTwo(1, INITIAL, [Arrive, Look, Check, Push], full, TwoSleepers(), State(1, false, Free, 0, 2, 0, 1));
  }

  /** So `stop` can leave an appender blocked for good: here one of the two sleepers never returns. */
  lemma {:induction false} OneLeftBehind(steps: seq<Step>)
    ensures CanTake(1, INITIAL, ThreeAppends())
    ensures var s := After(1, INITIAL, ThreeAppends());
            && s.sleeping == 2 && Credits(s) == 1
            && (CanTake(1, s, steps) && Settled(After(1, s, steps)) ==> After(1, s, steps).sleeping == 1)
  {
    AtStop();
    var s := State(1, false, Free, 0, 2, 0, 1);
    if CanTake(1, s, steps) && Settled(After(1, s, steps)) {
      SleepersLeft(1, s, steps);
    }
  }
}
