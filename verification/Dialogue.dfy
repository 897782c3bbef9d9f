/** Two machines fed each other's output: one round of text leaves two peers that agree. */
module Dialogue {
  import opened Wrappers
  import opened Sequences
  import opened Text
  import opened Delta
  import opened Protocol
  import opened NeedList
  import opened Files
  import opened Decision
  import opened Sender
  import opened Refinement
  import opened Transfer
  import opened Session
  import opened Exchange
  import opened HalfRounds
  import opened Convergence
  import opened Obstacles
  import opened Initiator
  import opened RoundOnWire
  import R = Receiver

  // ---------------------------------------------------------------- taking turns

  /** The responder hears what the initiator said, the initiator hears the answer, and so on. */
  function Talk(ca: Config, cb: Config, wa: Walk, wb: Walk, i: Outbound, s: Inbound, said: seq<string>, turns: nat)
    : Result<(Outbound, Inbound)>
    requires ca.chunkSize > 0 && cb.chunkSize > 0 && Walks(wb)
    decreases turns
  {
    if turns == 0 then Ok((i, s))
    else
      match Process(cb, wb, s, said)
      case Closed(_) => Err
      case Live(t, answer) =>
        var heard :- HearAll(ca, wa, i, answer);
        Talk(ca, cb, wa, wb, heard.0, t, heard.1, turns - 1)
  }

  lemma {:induction false} TalkStep(ca: Config, cb: Config, wa: Walk, wb: Walk, i: Outbound, s: Inbound,
      said: seq<string>, turns: nat, t: Inbound, answer: seq<string>, j: Outbound, more: seq<string>)
    requires ca.chunkSize > 0 && cb.chunkSize > 0 && Walks(wb) && turns > 0
    requires Process(cb, wb, s, said) == Live(t, answer) && HearAll(ca, wa, i, answer) == Ok((j, more))
    ensures Talk(ca, cb, wa, wb, i, s, said, turns) == Talk(ca, cb, wa, wb, j, t, more, turns - 1)
  {
  }

  lemma {:induction false} TalkStops(ca: Config, cb: Config, wa: Walk, wb: Walk, i: Outbound, s: Inbound,
      said: seq<string>, turns: nat)
    requires ca.chunkSize > 0 && cb.chunkSize > 0 && Walks(wb) && turns > 0
    requires var answer := Process(cb, wb, s, said); answer.Live? ==> HearAll(ca, wa, i, answer.out) == Err
    ensures Talk(ca, cb, wa, wb, i, s, said, turns) == Err
  {
  }

  // ---------------------------------------------------------------- the initiator's states

  function Asking(ca: Config, cb: Config, wb: Walk, w: World): Outbound
    requires ca.chunkSize > 0 && cb.chunkSize > 0
  {
    var message := NeedMessage(AsksB(ca, cb, wb, w));
    Opening(ca, w.a, w.savedA).(
      stage := AwaitManifest,
      needLines := if |message| >= 2 && |message[0]| >= 11 then Collected(message) else [])
  }

  function Told(ca: Config, cb: Config, wa: Walk, wb: Walk, w: World): Outbound
    requires ca.chunkSize > 0 && cb.chunkSize > 0
  {
    Informed(Asking(ca, cb, wb, w), Remote(cb, RoundEnd(ca, cb, wa, wb, w).b))
  }

  function Done(ca: Config, cb: Config, wa: Walk, wb: Walk, w: World): Outbound
    requires ca.chunkSize > 0 && cb.chunkSize > 0
  {
    Told(ca, cb, wa, wb, w).(stage := AwaitReady, receiver := R.Initial(RoundEnd(ca, cb, wa, wb, w).a))
  }

  /** The initiator reads the need list as what the responder decided, and sends those files. */
  lemma {:induction false} InitiatorSends(ca: Config, cb: Config, wa: Walk, wb: Walk, w: World)
    requires Walks(wa) && Walks(wb) && Ready(ca, cb, w) && RoundFits(ca, cb, wa, wb, w)
    ensures NeedMessageParses(AsksB(ca, cb, wb, w))
    ensures HearAll(ca, wa, Opening(ca, w.a, w.savedA), NeedMessage(AsksB(ca, cb, wb, w))) ==
            Ok((Asking(ca, cb, wb, w), FilesToB(ca, cb, wb, w)))
  {
    DirectionSends(cb, ca, wb, wa, w.a, w.b, w.savedB);
    NeedParsed(ca, cb, wa, wb, w);
    NeedHeard(ca, wa, Opening(ca, w.a, w.savedA), AsksB(ca, cb, wb, w));
  }

  lemma {:induction false} NeedParsed(ca: Config, cb: Config, wa: Walk, wb: Walk, w: World)
    requires ca.chunkSize > 0 && cb.chunkSize > 0 && Walks(wa) && Walks(wb) && RoundFits(ca, cb, wa, wb, w)
    requires Sends(ca, w.a, AsksB(ca, cb, wb, w))
    ensures NeedMessageParses(AsksB(ca, cb, wb, w)) && Fit(NeedMessage(AsksB(ca, cb, wb, w)))
    ensures Emitted(ca, Scan(ca, w.a), w.a, AsksB(ca, cb, wb, w)).completes
  {
  }

  ghost predicate NeedMessageParses(asks: seq<NeedRequest>) {
    && |NeedMessage(asks)| >= 2 && |NeedMessage(asks)[0]| >= 11
    && NeedFrom(Collected(NeedMessage(asks))) == Ok(asks)
  }

  /** The initiator reads the reverse manifest as the responder's scan, and asks for what it decides. */
  lemma {:induction false} InitiatorAsks(ca: Config, cb: Config, wa: Walk, wb: Walk, w: World)
    requires Walks(wa) && Walks(wb) && Ready(ca, cb, w) && RoundFits(ca, cb, wa, wb, w)
    requires FirstClear(ca, cb, w)
    ensures HearAll(ca, wa, Asking(ca, cb, wb, w), ReverseManifest(ca, cb, wa, wb, w)) ==
            Ok((Told(ca, cb, wa, wb, w), NeedMessage(AsksA(ca, cb, wa, wb, w))))
  {
    var v := RoundEnd(ca, cb, wa, wb, w);
    FirstHalfHere(ca, cb, wa, wb, w);
    SecondHalfReady(ca, cb, w, v);
    ScanIsGood(cb, v.b);
    ManifestHeard(cb, ca, wb, wa, Asking(ca, cb, wb, w), Scan(cb, v.b));
  }

  /** The initiator applies the files and acknowledges them. */
  lemma {:induction false} InitiatorApplies(ca: Config, cb: Config, wa: Walk, wb: Walk, w: World)
    requires Walks(wa) && Walks(wb) && Ready(ca, cb, w) && RoundFits(ca, cb, wa, wb, w)
    requires Passable(ca, cb, wa, wb, w)
    ensures HearAll(ca, wa, Told(ca, cb, wa, wb, w), FilesToA(ca, cb, wa, wb, w)) ==
            Ok((Done(ca, cb, wa, wb, w), ["OK"]))
  {
    SecondDirection(ca, cb, wa, wb, w);
    SecondServed(ca, cb, wa, wb, w);
    AppliesHere(ca, wa, Told(ca, cb, wa, wb, w), w.a, FilesToA(ca, cb, wa, wb, w), RoundEnd(ca, cb, wa, wb, w).a,
                |AsksA(ca, cb, wa, wb, w)|);
  }

  lemma {:induction false} AppliesHere(c: Config, walk: Walk, s: Outbound, tree: Tree, lines: seq<string>, result: Tree,
      count: nat)
    requires c.chunkSize > 0 && s.stage == Receiving && s.receiver == R.Initial(tree)
    requires Accepts(c, tree, lines, result, count)
    ensures HearAll(c, walk, s, lines) == Ok((s.(stage := AwaitReady, receiver := R.Initial(result)), ["OK"]))
  {
    FilesHeard(c, walk, s, lines, result, count);
  }

  lemma {:induction false} SecondServed(ca: Config, cb: Config, wa: Walk, wb: Walk, w: World)
    requires ca.chunkSize > 0 && cb.chunkSize > 0 && Walks(wa) && Walks(wb) && RoundFits(ca, cb, wa, wb, w)
    requires Works(ca, cb, RoundEnd(ca, cb, wa, wb, w).b, w.a, AsksA(ca, cb, wa, wb, w), RoundEnd(ca, cb, wa, wb, w).a)
    ensures Accepts(ca, w.a, FilesToA(ca, cb, wa, wb, w), RoundEnd(ca, cb, wa, wb, w).a, |AsksA(ca, cb, wa, wb, w)|)
  {
    WorksServes(ca, cb, RoundEnd(ca, cb, wa, wb, w).b, w.a, AsksA(ca, cb, wa, wb, w), RoundEnd(ca, cb, wa, wb, w).a);
  }

  /** The initiator's last state: the round's tree, saved. */
  ghost predicate Completed(ca: Config, i: Outbound, tree: Tree, saved: Manifest) {
    i.stage == Finished && i.receiver == R.Initial(tree) && i.saved == saved
  }

  lemma {:induction false} InitiatorEnds(ca: Config, cb: Config, wa: Walk, wb: Walk, w: World)
    requires ca.chunkSize > 0 && cb.chunkSize > 0
    ensures var v, end := RoundEnd(ca, cb, wa, wb, w), HearAll(ca, wa, Done(ca, cb, wa, wb, w), ["READY"]);
            end.Ok? && end.value.1 == [] && Completed(ca, end.value.0, v.a, v.savedA)
  {
    ReadyHeard(ca, wa, Done(ca, cb, wa, wb, w), RoundEnd(ca, cb, wa, wb, w).a, w.savedA);
  }

  lemma {:induction false} ReadyHeard(ca: Config, wa: Walk, d: Outbound, tree: Tree, saved: Manifest)
    requires ca.chunkSize > 0 && d.stage == AwaitReady && d.receiver == R.Initial(tree) && d.saved == saved
    ensures var end := HearAll(ca, wa, d, ["READY"]);
            end.Ok? && end.value.1 == [] && Completed(ca, end.value.0, tree, Saved(ca, saved, tree))
  {
    HearOne(ca, wa, d, "READY", d.(stage := Finished, saved := Saved(ca, saved, tree)), []);
  }

  // ---------------------------------------------------------------- the responder's states

  function LastAnswer(ca: Config, cb: Config, wa: Walk, wb: Walk, w: World, s: Inbound): Outcome
    requires ca.chunkSize > 0 && cb.chunkSize > 0 && Walks(wa) && Walks(wb)
  {
    Process(cb, wb, AfterFiles(ca, cb, wa, wb, w, s), NeedMessage(AsksA(ca, cb, wa, wb, w)))
  }

  lemma {:induction false} ResponderServes(ca: Config, cb: Config, wa: Walk, wb: Walk, w: World, s: Inbound)
    requires Walks(wa) && Walks(wb) && Ready(ca, cb, w) && RoundFits(ca, cb, wa, wb, w) && Waiting(s, w.b, w.savedB)
    requires FirstClear(ca, cb, w)
    ensures var v, t := RoundEnd(ca, cb, wa, wb, w), LastAnswer(ca, cb, wa, wb, w, s);
            && t.Live? && t.out == FilesToA(ca, cb, wa, wb, w) && t.state.phase == AckPhase
            && t.state.receiver == R.Initial(v.b) && t.state.saved == v.savedB
  {
    NeedAnswered(ca, cb, wa, wb, w, s);
  }

  /** What the responder has heard and said when the round is over. */
  lemma {:induction false} ResponderEnds(ca: Config, cb: Config, wa: Walk, wb: Walk, w: World, s: Inbound)
    requires Walks(wa) && Walks(wb) && Ready(ca, cb, w) && RoundFits(ca, cb, wa, wb, w) && Waiting(s, w.b, w.savedB)
    requires FirstClear(ca, cb, w)
    ensures var v, t := RoundEnd(ca, cb, wa, wb, w), LastAnswer(ca, cb, wa, wb, w, s);
            && t.Live? && Process(cb, wb, t.state, ["OK"]).Live? && Process(cb, wb, t.state, ["OK"]).out == ["READY"]
            && Waiting(Process(cb, wb, t.state, ["OK"]).state, v.b, v.savedB)
  {
    ResponderServes(ca, cb, wa, wb, w, s);
    AckExchanged(cb, wb, LastAnswer(ca, cb, wa, wb, w, s).state);
  }

  // ---------------------------------------------------------------- one round

  /**
   * The two machines, each fed the other's answers, finish the round exactly when it is not
   * obstructed; then they hold its two trees, saved and in agreement.
   */
  lemma {:induction false} RoundOfTalk(ca: Config, cb: Config, wa: Walk, wb: Walk, w: World, s: Inbound)
    requires Walks(wa) && Walks(wb) && Ready(ca, cb, w) && RoundFits(ca, cb, wa, wb, w) && Waiting(s, w.b, w.savedB)
    ensures var v := RoundEnd(ca, cb, wa, wb, w);
            var end := Talk(ca, cb, wa, wb, Opening(ca, w.a, w.savedA), s, ManifestMessage(ca, wa, Scan(ca, w.a)), 4);
            && (end.Ok? <==> !Obstructed(ca, cb, w))
            && (end.Ok? ==>
                  && Completed(ca, end.value.0, v.a, v.savedA) && Waiting(end.value.1, v.b, v.savedB)
                  && Round(ca, cb, w, v) && Synced(ca, cb, v))
  {
    PassableIff(ca, cb, wa, wb, w);
    if Obstructed(ca, cb, w) {
      TalkRefused(ca, cb, wa, wb, w, s);
    } else {
      FirstTwoTurns(ca, cb, wa, wb, w, s);
      LastTwoTurns(ca, cb, wa, wb, w, s);
      RoundConvergesHere(ca, cb, wa, wb, w);
    }
  }

  lemma {:induction false} TalkRefused(ca: Config, cb: Config, wa: Walk, wb: Walk, w: World, s: Inbound)
    requires Walks(wa) && Walks(wb) && Ready(ca, cb, w) && RoundFits(ca, cb, wa, wb, w) && Waiting(s, w.b, w.savedB)
    requires !Passable(ca, cb, wa, wb, w)
    ensures Talk(ca, cb, wa, wb, Opening(ca, w.a, w.savedA), s, ManifestMessage(ca, wa, Scan(ca, w.a)), 4) == Err
  {
    if FirstClear(ca, cb, w) {
      FirstTwoTurns(ca, cb, wa, wb, w, s);
      ThirdTurnFails(ca, cb, wa, wb, w, s);
    } else {
      FirstTurn(ca, cb, wa, wb, w, s);
      ResponderRefuses(ca, cb, wa, wb, w, s);
      TalkStops(ca, cb, wa, wb, Asking(ca, cb, wb, w), AfterManifest(ca, wa, w, s), FilesToB(ca, cb, wb, w), 3);
    }
  }

  lemma {:induction false} ThirdTurnFails(ca: Config, cb: Config, wa: Walk, wb: Walk, w: World, s: Inbound)
    requires Walks(wa) && Walks(wb) && Ready(ca, cb, w) && RoundFits(ca, cb, wa, wb, w) && Waiting(s, w.b, w.savedB)
    requires FirstClear(ca, cb, w) && !Passable(ca, cb, wa, wb, w)
    ensures Talk(ca, cb, wa, wb, Told(ca, cb, wa, wb, w), AfterFiles(ca, cb, wa, wb, w, s),
                 NeedMessage(AsksA(ca, cb, wa, wb, w)), 2) == Err
  {
    ResponderServes(ca, cb, wa, wb, w, s);
    InitiatorRefuses(ca, cb, wa, wb, w);
    TalkStops(ca, cb, wa, wb, Told(ca, cb, wa, wb, w), AfterFiles(ca, cb, wa, wb, w, s),
              NeedMessage(AsksA(ca, cb, wa, wb, w)), 2);
  }

  lemma {:induction false} InitiatorRefuses(ca: Config, cb: Config, wa: Walk, wb: Walk, w: World)
    requires Walks(wa) && Walks(wb) && Ready(ca, cb, w) && RoundFits(ca, cb, wa, wb, w)
    requires FirstClear(ca, cb, w) && !Passable(ca, cb, wa, wb, w)
    ensures HearAll(ca, wa, Told(ca, cb, wa, wb, w), FilesToA(ca, cb, wa, wb, w)) == Err
  {
    SecondSends(ca, cb, wa, wb, w);
    FilesNotHeard(ca, wa, Told(ca, cb, wa, wb, w), FilesToA(ca, cb, wa, wb, w));
  }

  lemma {:induction false} ResponderRefuses(ca: Config, cb: Config, wa: Walk, wb: Walk, w: World, s: Inbound)
    requires Walks(wa) && Walks(wb) && Ready(ca, cb, w) && RoundFits(ca, cb, wa, wb, w) && Waiting(s, w.b, w.savedB)
    requires !FirstClear(ca, cb, w)
    ensures Process(cb, wb, AfterManifest(ca, wa, w, s), FilesToB(ca, cb, wb, w)) == Closed([])
  {
    DirectionSends(cb, ca, wb, wa, w.a, w.b, w.savedB);
    FilesRefused(cb, wb, AfterManifest(ca, wa, w, s), FilesToB(ca, cb, wb, w));
  }

  lemma {:induction false} FirstTurn(ca: Config, cb: Config, wa: Walk, wb: Walk, w: World, s: Inbound)
    requires Walks(wa) && Walks(wb) && Ready(ca, cb, w) && RoundFits(ca, cb, wa, wb, w) && Waiting(s, w.b, w.savedB)
    ensures Talk(ca, cb, wa, wb, Opening(ca, w.a, w.savedA), s, ManifestMessage(ca, wa, Scan(ca, w.a)), 4) ==
            Talk(ca, cb, wa, wb, Asking(ca, cb, wb, w), AfterManifest(ca, wa, w, s), FilesToB(ca, cb, wb, w), 3)
  {
    ManifestAnswered(ca, cb, wa, wb, w, s);
    InitiatorSends(ca, cb, wa, wb, w);
    TalkStep(ca, cb, wa, wb, Opening(ca, w.a, w.savedA), s, ManifestMessage(ca, wa, Scan(ca, w.a)), 4,
             AfterManifest(ca, wa, w, s), NeedMessage(AsksB(ca, cb, wb, w)), Asking(ca, cb, wb, w),
             FilesToB(ca, cb, wb, w));
  }

  lemma {:induction false} FirstTwoTurns(ca: Config, cb: Config, wa: Walk, wb: Walk, w: World, s: Inbound)
    requires Walks(wa) && Walks(wb) && Ready(ca, cb, w) && RoundFits(ca, cb, wa, wb, w) && Waiting(s, w.b, w.savedB)
    requires FirstClear(ca, cb, w)
    ensures Talk(ca, cb, wa, wb, Opening(ca, w.a, w.savedA), s, ManifestMessage(ca, wa, Scan(ca, w.a)), 4) ==
            Talk(ca, cb, wa, wb, Told(ca, cb, wa, wb, w), AfterFiles(ca, cb, wa, wb, w, s),
                 NeedMessage(AsksA(ca, cb, wa, wb, w)), 2)
  {
    FirstTurn(ca, cb, wa, wb, w, s);
    FirstDirection(ca, cb, wa, wb, w);
    FilesAnswered(ca, cb, wa, wb, w, s);
    InitiatorAsks(ca, cb, wa, wb, w);
    TalkStep(ca, cb, wa, wb, Asking(ca, cb, wb, w), AfterManifest(ca, wa, w, s), FilesToB(ca, cb, wb, w), 3,
             AfterFiles(ca, cb, wa, wb, w, s), ReverseManifest(ca, cb, wa, wb, w), Told(ca, cb, wa, wb, w),
             NeedMessage(AsksA(ca, cb, wa, wb, w)));
  }

  lemma {:induction false} LastTwoTurns(ca: Config, cb: Config, wa: Walk, wb: Walk, w: World, s: Inbound)
    requires Walks(wa) && Walks(wb) && Ready(ca, cb, w) && RoundFits(ca, cb, wa, wb, w) && Waiting(s, w.b, w.savedB)
    requires Passable(ca, cb, wa, wb, w)
    ensures var v := RoundEnd(ca, cb, wa, wb, w);
            var end := Talk(ca, cb, wa, wb, Told(ca, cb, wa, wb, w), AfterFiles(ca, cb, wa, wb, w, s),
                            NeedMessage(AsksA(ca, cb, wa, wb, w)), 2);
            end.Ok? && Completed(ca, end.value.0, v.a, v.savedA) && Waiting(end.value.1, v.b, v.savedB)
  {
    ResponderServes(ca, cb, wa, wb, w, s);
    InitiatorApplies(ca, cb, wa, wb, w);
    var t := LastAnswer(ca, cb, wa, wb, w, s).state;
    TalkStep(ca, cb, wa, wb, Told(ca, cb, wa, wb, w), AfterFiles(ca, cb, wa, wb, w, s),
             NeedMessage(AsksA(ca, cb, wa, wb, w)), 2, t, FilesToA(ca, cb, wa, wb, w), Done(ca, cb, wa, wb, w), ["OK"]);
    ResponderEnds(ca, cb, wa, wb, w, s);
    InitiatorEnds(ca, cb, wa, wb, w);
    var d := Done(ca, cb, wa, wb, w);
    TalkStep(ca, cb, wa, wb, d, t, ["OK"], 1, Process(cb, wb, t, ["OK"]).state, ["READY"],
             HearAll(ca, wa, d, ["READY"]).value.0, []);
  }

  // ---------------------------------------------------------------- one round of text

  /** All that the initiator says in a round. */
  function SaidByA(ca: Config, cb: Config, wa: Walk, wb: Walk, w: World): seq<string>
    requires ca.chunkSize > 0 && cb.chunkSize > 0 && Walks(wa)
  {
    ManifestMessage(ca, wa, Scan(ca, w.a)) + FilesToB(ca, cb, wb, w) + NeedMessage(AsksA(ca, cb, wa, wb, w)) + ["OK"]
  }

  function SaidByB(ca: Config, cb: Config, wa: Walk, wb: Walk, w: World): seq<string>
    requires ca.chunkSize > 0 && cb.chunkSize > 0 && Walks(wb)
  {
    NeedMessage(AsksB(ca, cb, wb, w)) + ReverseManifest(ca, cb, wa, wb, w) + FilesToA(ca, cb, wa, wb, w) + ["READY"]
  }

  lemma {:induction false} FourMessages(c: Config, walk: Walk, s: Inbound, f1: seq<string>, s1: Inbound,
      o1: seq<string>, f2: seq<string>, s2: Inbound, o2: seq<string>, f3: seq<string>, s3: Inbound, o3: seq<string>,
      f4: seq<string>, s4: Inbound, o4: seq<string>)
    requires c.chunkSize > 0 && Walks(walk)
    requires Process(c, walk, s, f1) == Live(s1, o1) && Process(c, walk, s1, f2) == Live(s2, o2)
    requires Process(c, walk, s2, f3) == Live(s3, o3) && Process(c, walk, s3, f4) == Live(s4, o4)
    ensures Process(c, walk, s, f1 + f2 + f3 + f4) == Live(s4, o1 + o2 + o3 + o4)
  {
    ProcessAppend(c, walk, s, f1, f2);
    ProcessAppend(c, walk, s, f1 + f2, f3);
    ProcessAppend(c, walk, s, f1 + f2 + f3, f4);
  }

  /** The responder hears the whole of it as one stream of lines. */
  lemma {:induction false} ResponderHears(ca: Config, cb: Config, wa: Walk, wb: Walk, w: World, s: Inbound)
    requires Walks(wa) && Walks(wb) && Ready(ca, cb, w) && RoundFits(ca, cb, wa, wb, w) && Waiting(s, w.b, w.savedB)
    requires FirstClear(ca, cb, w)
    ensures var v, end := RoundEnd(ca, cb, wa, wb, w), Process(cb, wb, s, SaidByA(ca, cb, wa, wb, w));
            end.Live? && end.out == SaidByB(ca, cb, wa, wb, w) && Waiting(end.state, v.b, v.savedB)
  {
    ManifestAnswered(ca, cb, wa, wb, w, s);
    FirstDirection(ca, cb, wa, wb, w);
    FilesAnswered(ca, cb, wa, wb, w, s);
    ResponderServes(ca, cb, wa, wb, w, s);
    ResponderEnds(ca, cb, wa, wb, w, s);
    var t := LastAnswer(ca, cb, wa, wb, w, s).state;
    FourMessages(cb, wb, s, ManifestMessage(ca, wa, Scan(ca, w.a)), AfterManifest(ca, wa, w, s),
                 NeedMessage(AsksB(ca, cb, wb, w)), FilesToB(ca, cb, wb, w), AfterFiles(ca, cb, wa, wb, w, s),
                 ReverseManifest(ca, cb, wa, wb, w), NeedMessage(AsksA(ca, cb, wa, wb, w)), t,
                 FilesToA(ca, cb, wa, wb, w), ["OK"], Process(cb, wb, t, ["OK"]).state, ["READY"]);
  }

  /** The initiator hears the whole of it as one stream of lines. */
  lemma {:induction false} InitiatorHears(ca: Config, cb: Config, wa: Walk, wb: Walk, w: World)
    requires Walks(wa) && Walks(wb) && Ready(ca, cb, w) && RoundFits(ca, cb, wa, wb, w)
    requires Passable(ca, cb, wa, wb, w)
    ensures var v, end := RoundEnd(ca, cb, wa, wb, w),
                          HearAll(ca, wa, Opening(ca, w.a, w.savedA), SaidByB(ca, cb, wa, wb, w));
            && end.Ok? && Completed(ca, end.value.0, v.a, v.savedA)
            && ManifestMessage(ca, wa, Scan(ca, w.a)) + end.value.1 == SaidByA(ca, cb, wa, wb, w)
  {
    var opening, asking, told, done := Opening(ca, w.a, w.savedA), Asking(ca, cb, wb, w), Told(ca, cb, wa, wb, w),
                                       Done(ca, cb, wa, wb, w);
    var m1, m2, m3 := NeedMessage(AsksB(ca, cb, wb, w)), ReverseManifest(ca, cb, wa, wb, w),
        FilesToA(ca, cb, wa, wb, w);
    var o1, o2 := FilesToB(ca, cb, wb, w), NeedMessage(AsksA(ca, cb, wa, wb, w));
    InitiatorSends(ca, cb, wa, wb, w);
    InitiatorAsks(ca, cb, wa, wb, w);
    InitiatorApplies(ca, cb, wa, wb, w);
    InitiatorEnds(ca, cb, wa, wb, w);
    HearAppend(ca, wa, opening, m1, asking, o1, m2, told, o2);
    HearAppend(ca, wa, opening, m1 + m2, told, o1 + o2, m3, done, ["OK"]);
    HearAppend(ca, wa, opening, m1 + m2 + m3, done, o1 + o2 + ["OK"], ["READY"],
               HearAll(ca, wa, done, ["READY"]).value.0, []);
    EmptyConcat(o1 + o2 + ["OK"]);
    JoinFour(ManifestMessage(ca, wa, Scan(ca, w.a)), o1, o2, ["OK"]);
  }

  lemma {:induction false} JoinFour<T>(a: seq<T>, b: seq<T>, c: seq<T>, d: seq<T>)
    ensures a + (b + c + d) == a + b + c + d
  {
  }

  ghost predicate Plain(lines: seq<string>) {
    forall line :: line in lines ==> OneLine(line)
  }

  lemma {:induction false} PlainJoin(a: seq<string>, b: seq<string>)
    requires Plain(a) && Plain(b)
    ensures Plain(a + b)
  {
  }

  lemma {:induction false} PlainThree(a: seq<string>, b: seq<string>, c: seq<string>, last: string)
    requires Plain(a) && Plain(b) && Plain(c) && OneLine(last)
    ensures Plain(a + b + c + [last])
  {
    PlainJoin(a, b);
    PlainJoin(a + b, c);
    PlainJoin(a + b + c, [last]);
  }

  lemma {:induction false} ManifestIsPlain(c: Config, walk: Walk, m: Manifest)
    requires c.Valid() && c.token != "" && Walks(walk) && GoodManifest(m)
    ensures Plain(ManifestMessage(c, walk, m))
  {
    HeadersPlain(c.token, |m|);
    GoodIsPrintable(m);
    EntryLinesAreLines(m, walk(m.Keys));
    FramePlain(Join(["HELLO", "filesync/4", Quote(c.token)]), Join(["MANIFEST_BEGIN", Decimal(|m|)]),
               EntryLines(m, walk(m.Keys)), "MANIFEST_END");
  }

  lemma {:induction false} HeadersPlain(token: string, n: nat)
    requires Octets(token)
    ensures OneLine(Join(["HELLO", "filesync/4", Quote(token)])) && OneLine(Join(["MANIFEST_BEGIN", Decimal(n)]))
    ensures OneLine("MANIFEST_END")
  {
    QuoteIsWord(token);
    NumberDecimal(n);
    JoinIsOneLine(["HELLO", "filesync/4", Quote(token)]);
    JoinIsOneLine(["MANIFEST_BEGIN", Decimal(n)]);
  }

  lemma {:induction false} FramePlain(hello: string, begin: string, entries: seq<string>, end: string)
    requires OneLine(hello) && OneLine(begin) && OneLine(end) && forall line :: line in entries ==> PlainLine(line)
    ensures Plain([hello, begin] + entries + [end])
  {
  }

  lemma {:induction false} NeedIsPlain(asks: seq<NeedRequest>)
    requires NeedMessageParses(asks)
    ensures Plain(NeedMessage(asks))
  {
    NeedAccepted(Collected(NeedMessage(asks)));
    NeedLinesAreLines(asks);
    BeginIsLine(|asks|);
  }

  lemma {:induction false} FilesArePlain(c: Config, cs: Config, walk: Walk, ws: Walk, source: Tree, tree: Tree,
      saved: Manifest)
    requires Aligned(c, cs) && Walks(walk) && Walks(ws) && Proper(cs, source) && Proper(c, tree)
    requires ProperManifest(c, saved) && DeltaSafe(c, cs, source, tree, saved)
    requires DirectionFits(c, cs, walk, ws, source, tree, saved)
    ensures Plain(Emitted(cs, Scan(cs, source), source, Asks(c, cs, walk, source, tree, saved)).lines)
    ensures Plain(NeedMessage(Asks(c, cs, walk, source, tree, saved)))
  {
    var remote := Remote(cs, source);
    ListServable(c, cs, source, tree, saved, walk(remote.Keys), walk(saved.Keys));
    EmittedAreLines(cs, c, Scan(cs, source), source, tree, Asks(c, cs, walk, source, tree, saved));
    AsksSurvive(c, cs, walk, source, tree, saved);
    NeedIsPlain(Asks(c, cs, walk, source, tree, saved));
  }

  lemma {:induction false} FirstPlain(ca: Config, cb: Config, wa: Walk, wb: Walk, w: World)
    requires Walks(wa) && Walks(wb) && Ready(ca, cb, w) && RoundFits(ca, cb, wa, wb, w)
    ensures Plain(ManifestMessage(ca, wa, Scan(ca, w.a))) && Plain(FilesToB(ca, cb, wb, w))
    ensures Plain(NeedMessage(AsksB(ca, cb, wb, w)))
  {
    ScanIsGood(ca, w.a);
    ManifestIsPlain(ca, wa, Scan(ca, w.a));
    FilesArePlain(cb, ca, wb, wa, w.a, w.b, w.savedB);
  }

  lemma {:induction false} SecondPlain(ca: Config, cb: Config, wa: Walk, wb: Walk, w: World)
    requires Walks(wa) && Walks(wb) && Ready(ca, cb, w) && RoundFits(ca, cb, wa, wb, w)
    requires FirstClear(ca, cb, w)
    ensures Plain(ReverseManifest(ca, cb, wa, wb, w)) && Plain(FilesToA(ca, cb, wa, wb, w))
    ensures Plain(NeedMessage(AsksA(ca, cb, wa, wb, w)))
  {
    var v := RoundEnd(ca, cb, wa, wb, w);
    FirstHalfHere(ca, cb, wa, wb, w);
    SecondHalfReady(ca, cb, w, v);
    ScanIsGood(cb, v.b);
    ManifestIsPlain(cb, wb, Scan(cb, v.b));
    FilesArePlain(ca, cb, wa, wb, v.b, w.a, w.savedA);
  }

  lemma {:induction false} WordsAreLines()
    ensures OneLine("OK") && OneLine("READY")
  {
  }

  lemma {:induction false} InitiatorPlain(ca: Config, cb: Config, wa: Walk, wb: Walk, w: World)
    requires ca.chunkSize > 0 && cb.chunkSize > 0 && Walks(wa)
    requires Plain(ManifestMessage(ca, wa, Scan(ca, w.a))) && Plain(FilesToB(ca, cb, wb, w))
    requires Plain(NeedMessage(AsksA(ca, cb, wa, wb, w)))
    ensures Plain(SaidByA(ca, cb, wa, wb, w))
  {
    WordsAreLines();
    PlainThree(ManifestMessage(ca, wa, Scan(ca, w.a)), FilesToB(ca, cb, wb, w), NeedMessage(AsksA(ca, cb, wa, wb, w)),
               "OK");
  }

  lemma {:induction false} ResponderPlain(ca: Config, cb: Config, wa: Walk, wb: Walk, w: World)
    requires ca.chunkSize > 0 && cb.chunkSize > 0 && Walks(wb)
    requires Plain(NeedMessage(AsksB(ca, cb, wb, w))) && Plain(ReverseManifest(ca, cb, wa, wb, w))
    requires Plain(FilesToA(ca, cb, wa, wb, w))
    ensures Plain(SaidByB(ca, cb, wa, wb, w))
  {
    WordsAreLines();
    PlainThree(NeedMessage(AsksB(ca, cb, wb, w)), ReverseManifest(ca, cb, wa, wb, w), FilesToA(ca, cb, wa, wb, w),
               "READY");
  }

  lemma {:induction false} AllPlain(ca: Config, cb: Config, wa: Walk, wb: Walk, w: World)
    requires Walks(wa) && Walks(wb) && Ready(ca, cb, w) && RoundFits(ca, cb, wa, wb, w)
    requires FirstClear(ca, cb, w)
    ensures Plain(SaidByA(ca, cb, wa, wb, w)) && Plain(SaidByB(ca, cb, wa, wb, w))
  {
    FirstPlain(ca, cb, wa, wb, w);
    SecondPlain(ca, cb, wa, wb, w);
    InitiatorPlain(ca, cb, wa, wb, w);
    ResponderPlain(ca, cb, wa, wb, w);
  }

  lemma {:induction false} FramesOfPlain(lines: seq<string>)
    requires Plain(lines)
    ensures Frames(Wire(lines)) == lines && Leftover(Wire(lines)) == ""
  {
    FramesOfWire(lines, "");
    EmptyConcat(Wire(lines));
    EmptyConcat(lines);
  }

  /**
   * One round of text that is not obstructed, cut into packets in any way that respects the buffer limit. The
   * responder, given all that the initiator says, says exactly what the initiator needs to hear to say it, and waits
   * again with its new tree; the initiator ends with its new tree saved; and the two trees are the ones on which the
   * peers agree.
   */
  lemma {:induction false} RoundOverText(ca: Config, cb: Config, wa: Walk, wb: Walk, w: World, s: Inbound,
      toResponder: seq<string>, toInitiator: seq<string>)
    requires Walks(wa) && Walks(wb) && Ready(ca, cb, w) && RoundFits(ca, cb, wa, wb, w) && Waiting(s, w.b, w.savedB)
    requires !Obstructed(ca, cb, w)
    requires Concat(toResponder) == Wire(SaidByA(ca, cb, wa, wb, w)) && WithinBuffer(toResponder)
    requires Concat(toInitiator) == Wire(SaidByB(ca, cb, wa, wb, w))
    ensures var v, end := RoundEnd(ca, cb, wa, wb, w), ReceiveAll(cb, wb, Connection(Live(s, []), ""), toResponder);
            && end.outcome.Live? && end.buffer == "" && Wire(end.outcome.out) == Concat(toInitiator)
            && Waiting(end.outcome.state, v.b, v.savedB)
    ensures var v, end := RoundEnd(ca, cb, wa, wb, w),
                          HearAll(ca, wa, Opening(ca, w.a, w.savedA), Frames(Concat(toInitiator)));
            && end.Ok? && Completed(ca, end.value.0, v.a, v.savedA)
            && Wire(ManifestMessage(ca, wa, Scan(ca, w.a)) + end.value.1) == Concat(toResponder)
    ensures var v := RoundEnd(ca, cb, wa, wb, w); Round(ca, cb, w, v) && Synced(ca, cb, v)
  {
    PassableIff(ca, cb, wa, wb, w);
    AllPlain(ca, cb, wa, wb, w);
    FramesOfPlain(SaidByA(ca, cb, wa, wb, w));
    FramesOfPlain(SaidByB(ca, cb, wa, wb, w));
    PacketsDoNotMatter(cb, wb, s, toResponder);
    ResponderHears(ca, cb, wa, wb, w, s);
    InitiatorHears(ca, cb, wa, wb, w);
    RoundConvergesHere(ca, cb, wa, wb, w);
  }

  /** Where the first half is not clear, the responder closes the connection instead of announcing its manifest. */
  lemma {:induction false} RefusedOverText(ca: Config, cb: Config, wa: Walk, wb: Walk, w: World, s: Inbound,
      toResponder: seq<string>)
    requires Walks(wa) && Walks(wb) && Ready(ca, cb, w) && RoundFits(ca, cb, wa, wb, w) && Waiting(s, w.b, w.savedB)
    requires !FirstClear(ca, cb, w) && WithinBuffer(toResponder)
    requires Concat(toResponder) == Wire(ManifestMessage(ca, wa, Scan(ca, w.a)) + FilesToB(ca, cb, wb, w))
    ensures ReceiveAll(cb, wb, Connection(Live(s, []), ""), toResponder).outcome ==
            Closed(NeedMessage(AsksB(ca, cb, wb, w)))
  {
    FirstPlain(ca, cb, wa, wb, w);
    ManifestAnswered(ca, cb, wa, wb, w, s);
    ResponderRefuses(ca, cb, wa, wb, w, s);
    ClosedOverText(cb, wb, s, ManifestMessage(ca, wa, Scan(ca, w.a)), AfterManifest(ca, wa, w, s),
                   NeedMessage(AsksB(ca, cb, wb, w)), FilesToB(ca, cb, wb, w), toResponder);
  }

  lemma {:induction false} ClosedOverText(c: Config, walk: Walk, s: Inbound, first: seq<string>, t: Inbound,
      out: seq<string>, second: seq<string>, packets: seq<string>)
    requires c.chunkSize > 0 && Walks(walk) && WithinBuffer(packets) && Concat(packets) == Wire(first + second)
    requires Plain(first) && Plain(second)
    requires Process(c, walk, s, first) == Live(t, out) && Process(c, walk, t, second) == Closed([])
    ensures ReceiveAll(c, walk, Connection(Live(s, []), ""), packets).outcome == Closed(out)
  {
    PlainJoin(first, second);
    FramesOfPlain(first + second);
    ProcessAppend(c, walk, s, first, second);
    EmptyConcat(out);
    PacketsDoNotMatter(c, walk, s, packets);
  }
}
