/** Many rounds, each over its own packets of text: a run of the two peers. */
module TextRuns {
  import opened Wrappers
  import opened Text
  import opened Delta
  import opened Protocol
  import opened Files
  import opened Session
  import opened Exchange
  import opened HalfRounds
  import opened Convergence
  import opened Obstacles
  import opened Initiator
  import opened RoundOnWire
  import opened Dialogue
  import R = Receiver

  /** One round as it crosses the wire: where it starts, the responder's session, and the packets of each side. */
  datatype Exchanged = Exchanged(start: World, session: Inbound, toResponder: seq<string>, toInitiator: seq<string>)

  /** The trees are proper, the messages fit, nothing is in the way, and the packets carry what is said. */
  ghost predicate Carries(ca: Config, cb: Config, wa: Walk, wb: Walk, x: Exchanged)
    requires ca.chunkSize > 0 && cb.chunkSize > 0 && Walks(wa) && Walks(wb)
  {
    && Edited(ca, cb, x.start) && RoundFits(ca, cb, wa, wb, x.start) && !Obstructed(ca, cb, x.start)
    && Concat(x.toResponder) == Wire(SaidByA(ca, cb, wa, wb, x.start)) && WithinBuffer(x.toResponder)
    && Concat(x.toInitiator) == Wire(SaidByB(ca, cb, wa, wb, x.start))
  }

  function Heard(cb: Config, wb: Walk, x: Exchanged): Outcome
    requires cb.chunkSize > 0 && Walks(wb)
  {
    ReceiveAll(cb, wb, Connection(Live(x.session, []), ""), x.toResponder).outcome
  }

  /** The next round starts from what was saved and from the responder's session as it was left, on edited trees. */
  ghost predicate Continues(ca: Config, cb: Config, wa: Walk, wb: Walk, x: Exchanged, y: Exchanged)
    requires ca.chunkSize > 0 && cb.chunkSize > 0 && Walks(wb)
  {
    var v := RoundEnd(ca, cb, wa, wb, x.start);
    && y.start.savedA == v.savedA && y.start.savedB == v.savedB
    && (Heard(cb, wb, x).Live? ==> y.session == Heard(cb, wb, x).state.(receiver := R.Initial(y.start.b)))
  }

  ghost predicate IsTextRun(ca: Config, cb: Config, wa: Walk, wb: Walk, rounds: seq<Exchanged>)
    requires ca.chunkSize > 0 && cb.chunkSize > 0 && Walks(wa) && Walks(wb)
  {
    && (forall i :: 0 <= i < |rounds| ==> Carries(ca, cb, wa, wb, rounds[i]))
    && (forall i, j :: 0 <= i < j < |rounds| && j == i + 1 ==> Continues(ca, cb, wa, wb, rounds[i], rounds[j]))
  }

  /** The first round starts from agreeing saved states and a waiting responder. */
  ghost predicate Begins(ca: Config, cb: Config, x: Exchanged) {
    && x.start.savedA == x.start.savedB && ProperManifest(ca, x.start.savedA)
    && Waiting(x.session, x.start.b, x.start.savedB)
  }

  function Starts(rounds: seq<Exchanged>): seq<World> {
    seq(|rounds|, i requires 0 <= i < |rounds| => rounds[i].start)
  }

  function Ends(ca: Config, cb: Config, wa: Walk, wb: Walk, rounds: seq<Exchanged>): seq<World>
    requires ca.chunkSize > 0 && cb.chunkSize > 0
  {
    seq(|rounds|, i requires 0 <= i < |rounds| => RoundEnd(ca, cb, wa, wb, rounds[i].start))
  }

  /** The text does one round, and both sides are left with it. */
  ghost predicate Performs(ca: Config, cb: Config, wa: Walk, wb: Walk, x: Exchanged)
    requires ca.chunkSize > 0 && cb.chunkSize > 0 && Walks(wa) && Walks(wb)
  {
    var v := RoundEnd(ca, cb, wa, wb, x.start);
    var end := HearAll(ca, wa, Opening(ca, x.start.a, x.start.savedA), Frames(Concat(x.toInitiator)));
    && Round(ca, cb, x.start, v) && Agreed(ca, cb, x.start, v)
    && Heard(cb, wb, x).Live? && Waiting(Heard(cb, wb, x).state, v.b, v.savedB)
    && Wire(Heard(cb, wb, x).out) == Concat(x.toInitiator)
    && end.Ok? && Completed(ca, end.value.0, v.a, v.savedA)
  }

  lemma {:induction false} RoundPerforms(ca: Config, cb: Config, wa: Walk, wb: Walk, x: Exchanged)
    requires Aligned(ca, cb) && Aligned(cb, ca) && Walks(wa) && Walks(wb)
    requires Carries(ca, cb, wa, wb, x) && Begins(ca, cb, x)
    ensures Performs(ca, cb, wa, wb, x)
  {
    RoundOverText(ca, cb, wa, wb, x.start, x.session, x.toResponder, x.toInitiator);
    RoundAgrees(ca, cb, x.start, RoundEnd(ca, cb, wa, wb, x.start));
  }

  lemma {:induction false} NextBegins(ca: Config, cb: Config, wa: Walk, wb: Walk, x: Exchanged, y: Exchanged)
    requires ca.chunkSize > 0 && cb.chunkSize > 0 && Walks(wa) && Walks(wb)
    requires Performs(ca, cb, wa, wb, x) && Continues(ca, cb, wa, wb, x, y)
    ensures Begins(ca, cb, y)
  {
    CarriesOver(ca, cb, x.start, RoundEnd(ca, cb, wa, wb, x.start), y.start);
  }

  lemma {:induction false} StepBegins(ca: Config, cb: Config, wa: Walk, wb: Walk, x: Exchanged, y: Exchanged)
    requires Aligned(ca, cb) && Aligned(cb, ca) && Walks(wa) && Walks(wb)
    requires Carries(ca, cb, wa, wb, x) && Begins(ca, cb, x) && Continues(ca, cb, wa, wb, x, y)
    ensures Begins(ca, cb, y)
  {
    RoundPerforms(ca, cb, wa, wb, x);
    NextBegins(ca, cb, wa, wb, x, y);
  }

  /** What `Begins` says, as a property that can be carried along a sequence. */
  ghost function Begun(ca: Config, cb: Config): Exchanged -> bool {
    x => Begins(ca, cb, x)
  }

  lemma {:induction false} Hop(ca: Config, cb: Config, wa: Walk, wb: Walk, rounds: seq<Exchanged>, i: nat, j: nat)
    requires Aligned(ca, cb) && Aligned(cb, ca) && Walks(wa) && Walks(wb)
    requires IsTextRun(ca, cb, wa, wb, rounds) && i < j < |rounds| && j == i + 1
    ensures Begun(ca, cb)(rounds[i]) ==> Begun(ca, cb)(rounds[j])
  {
    if Begun(ca, cb)(rounds[i]) {
      assert Carries(ca, cb, wa, wb, rounds[i]) && Continues(ca, cb, wa, wb, rounds[i], rounds[j]);
      StepBegins(ca, cb, wa, wb, rounds[i], rounds[j]);
    }
  }

  /** Every round starts from the state in which the one before left the two peers. */
  lemma {:induction false} EveryRoundBegins(ca: Config, cb: Config, wa: Walk, wb: Walk, rounds: seq<Exchanged>, n: nat)
    requires Aligned(ca, cb) && Aligned(cb, ca) && Walks(wa) && Walks(wb)
    requires IsTextRun(ca, cb, wa, wb, rounds) && n < |rounds| && Begun(ca, cb)(rounds[0])
    ensures Begun(ca, cb)(rounds[n])
  {
    forall i, j | 0 <= i < j < |rounds| && j == i + 1 ensures Begun(ca, cb)(rounds[i]) ==> Begun(ca, cb)(rounds[j]) {
      Hop(ca, cb, wa, wb, rounds, i, j);
    }
    CarriedAlong(rounds, Begun(ca, cb), n);
  }

  lemma {:induction false} CarriedAlong<T>(xs: seq<T>, f: T -> bool, n: nat)
    requires n < |xs| && f(xs[0]) && forall i, j :: 0 <= i < j < |xs| && j == i + 1 ==> (f(xs[i]) ==> f(xs[j]))
    ensures f(xs[n])
  {
    if n > 0 {
      CarriedAlong(xs, f, n - 1);
    }
  }

  lemma {:induction false} EveryRoundPerforms(ca: Config, cb: Config, wa: Walk, wb: Walk, rounds: seq<Exchanged>,
      n: nat)
    requires Aligned(ca, cb) && Aligned(cb, ca) && Walks(wa) && Walks(wb)
    requires IsTextRun(ca, cb, wa, wb, rounds) && n < |rounds| && Begun(ca, cb)(rounds[0])
    ensures Performs(ca, cb, wa, wb, rounds[n])
  {
    EveryRoundBegins(ca, cb, wa, wb, rounds, n);
    assert Carries(ca, cb, wa, wb, rounds[n]);
    RoundPerforms(ca, cb, wa, wb, rounds[n]);
  }

  ghost function Rounds(ca: Config, cb: Config): (World, World) -> bool
    requires ca.chunkSize > 0 && cb.chunkSize > 0
  {
    (w, v) => Round(ca, cb, w, v)
  }

  lemma {:induction false} RoundAtIndex(ca: Config, cb: Config, wa: Walk, wb: Walk, rounds: seq<Exchanged>, n: nat)
    requires Aligned(ca, cb) && Aligned(cb, ca) && Walks(wa) && Walks(wb)
    requires IsTextRun(ca, cb, wa, wb, rounds) && n < |rounds| && Begun(ca, cb)(rounds[0])
    ensures Rounds(ca, cb)(Starts(rounds)[n], Ends(ca, cb, wa, wb, rounds)[n])
  {
    EveryRoundPerforms(ca, cb, wa, wb, rounds, n);
  }

  lemma {:induction false} LinkAtIndex(ca: Config, cb: Config, wa: Walk, wb: Walk, rounds: seq<Exchanged>, i: nat,
      j: nat)
    requires ca.chunkSize > 0 && cb.chunkSize > 0 && Walks(wa) && Walks(wb)
    requires IsTextRun(ca, cb, wa, wb, rounds) && i < j < |rounds| && j == i + 1
    ensures Starts(rounds)[j].savedA == Ends(ca, cb, wa, wb, rounds)[i].savedA
    ensures Starts(rounds)[j].savedB == Ends(ca, cb, wa, wb, rounds)[i].savedB
  {
    assert Continues(ca, cb, wa, wb, rounds[i], rounds[j]);
  }

  lemma {:induction false} RoundsAreRun(ca: Config, cb: Config, starts: seq<World>, ends: seq<World>)
    requires ca.chunkSize > 0 && cb.chunkSize > 0 && |starts| == |ends|
    requires forall i :: 0 <= i < |starts| ==> Rounds(ca, cb)(starts[i], ends[i])
    requires forall i, j :: 0 <= i < j < |starts| && j == i + 1 ==>
               starts[j].savedA == ends[i].savedA && starts[j].savedB == ends[i].savedB
    ensures IsRun(ca, cb, starts, ends)
  {
    forall i | 0 <= i < |starts| ensures Round(ca, cb, starts[i], ends[i]) {
      assert Rounds(ca, cb)(starts[i], ends[i]);
    }
  }

  lemma {:induction false} LinkedRun(ca: Config, cb: Config, wa: Walk, wb: Walk, rounds: seq<Exchanged>)
    requires Aligned(ca, cb) && Aligned(cb, ca) && Walks(wa) && Walks(wb)
    requires IsTextRun(ca, cb, wa, wb, rounds) && rounds != [] && Begun(ca, cb)(rounds[0])
    ensures IsRun(ca, cb, Starts(rounds), Ends(ca, cb, wa, wb, rounds))
  {
    forall i | 0 <= i < |rounds| ensures Rounds(ca, cb)(Starts(rounds)[i], Ends(ca, cb, wa, wb, rounds)[i]) {
      RoundAtIndex(ca, cb, wa, wb, rounds, i);
    }
    forall i, j | 0 <= i < j < |rounds| && j == i + 1
      ensures Starts(rounds)[j].savedA == Ends(ca, cb, wa, wb, rounds)[i].savedA
      ensures Starts(rounds)[j].savedB == Ends(ca, cb, wa, wb, rounds)[i].savedB
    {
      LinkAtIndex(ca, cb, wa, wb, rounds, i, j);
    }
    RoundsAreRun(ca, cb, Starts(rounds), Ends(ca, cb, wa, wb, rounds));
  }

  /** Any number of rounds of text is a run: each is performed where the one before left the two peers. */
  lemma {:induction false} TextIsRun(ca: Config, cb: Config, wa: Walk, wb: Walk, rounds: seq<Exchanged>)
    requires Aligned(ca, cb) && Aligned(cb, ca) && Walks(wa) && Walks(wb)
    requires IsTextRun(ca, cb, wa, wb, rounds) && rounds != [] && Begins(ca, cb, rounds[0])
    ensures IsRun(ca, cb, Starts(rounds), Ends(ca, cb, wa, wb, rounds))
    ensures forall i :: 0 <= i < |rounds| ==> Performs(ca, cb, wa, wb, rounds[i])
  {
    assert Begun(ca, cb)(rounds[0]);
    LinkedRun(ca, cb, wa, wb, rounds);
    forall i | 0 <= i < |rounds| ensures Performs(ca, cb, wa, wb, rounds[i]) {
      EveryRoundPerforms(ca, cb, wa, wb, rounds, i);
    }
  }
}
