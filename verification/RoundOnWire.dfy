/** The responder in one round: every message it is sent is answered, and its tree becomes the round's. */
module RoundOnWire {
  import opened Wrappers
  import opened Sequences
  import opened Text
  import opened Delta
  import opened Protocol
  import opened NeedList
  import opened Files
  import opened Decision
  import opened Sender
  import opened Refinement
  import opened Transfer
  import opened Session
  import opened HalfRounds
  import opened Convergence
  import opened Obstacles
  import opened Exchange
  import R = Receiver

  // ---------------------------------------------------------------- what each side asks for and ends with

  function Asks(c: Config, cs: Config, walk: Walk, source: Tree, tree: Tree, saved: Manifest): seq<NeedRequest>
    requires c.chunkSize > 0
  {
    var remote := Remote(cs, source);
    Requests(c, tree, saved, remote, walk(remote.Keys), walk(saved.Keys))
  }

  function Gets(c: Config, cs: Config, walk: Walk, source: Tree, tree: Tree, saved: Manifest): Tree
    requires c.chunkSize > 0
  {
    EffectAll(c, Scan(cs, source), source, tree, Asks(c, cs, walk, source, tree, saved))
  }

  lemma {:induction false} GetsIsHalfRound(c: Config, cs: Config, walk: Walk, source: Tree, tree: Tree, saved: Manifest)
    requires Aligned(c, cs) && Walks(walk) && Proper(cs, source) && Proper(c, tree) && ProperManifest(c, saved)
    requires DeltaSafe(c, cs, source, tree, saved) && Clear(c, cs, source, tree, saved)
    ensures HalfRound(c, cs, source, tree, saved, Gets(c, cs, walk, source, tree, saved))
  {
    var remote := Remote(cs, source);
    ListServable(c, cs, source, tree, saved, walk(remote.Keys), walk(saved.Keys));
    assert Carried(c, cs, source, tree, saved, walk(remote.Keys), walk(saved.Keys),
                   Gets(c, cs, walk, source, tree, saved));
  }

  /** The world after a round in which both sides walk their maps in the given orders. */
  function RoundEnd(ca: Config, cb: Config, wa: Walk, wb: Walk, w: World): World
    requires ca.chunkSize > 0 && cb.chunkSize > 0
  {
    var b := Gets(cb, ca, wb, w.a, w.b, w.savedB);
    var a := Gets(ca, cb, wa, b, w.a, w.savedA);
    World(a, b, Saved(ca, w.savedA, a), Saved(cb, w.savedB, b))
  }

  /** Both halves of the round are clear. */
  ghost predicate Passable(ca: Config, cb: Config, wa: Walk, wb: Walk, w: World)
    requires ca.chunkSize > 0 && cb.chunkSize > 0
  {
    FirstClear(ca, cb, w) && SecondClear(ca, cb, w, RoundEnd(ca, cb, wa, wb, w).b)
  }

  lemma {:induction false} FirstHalfHere(ca: Config, cb: Config, wa: Walk, wb: Walk, w: World)
    requires Walks(wa) && Walks(wb) && Ready(ca, cb, w) && FirstClear(ca, cb, w)
    ensures FirstHalf(ca, cb, w, RoundEnd(ca, cb, wa, wb, w))
  {
    GetsIsHalfRound(cb, ca, wb, w.a, w.b, w.savedB);
  }

  lemma {:induction false} AfterIsRound(ca: Config, cb: Config, wa: Walk, wb: Walk, w: World)
    requires Walks(wa) && Walks(wb) && Ready(ca, cb, w) && Passable(ca, cb, wa, wb, w)
    ensures Round(ca, cb, w, RoundEnd(ca, cb, wa, wb, w))
  {
    var v := RoundEnd(ca, cb, wa, wb, w);
    FirstHalfHere(ca, cb, wa, wb, w);
    SecondHalfReady(ca, cb, w, v);
    GetsIsHalfRound(ca, cb, wa, v.b, w.a, w.savedA);
  }

  lemma {:induction false} PassableIff(ca: Config, cb: Config, wa: Walk, wb: Walk, w: World)
    requires Walks(wa) && Walks(wb) && Ready(ca, cb, w)
    ensures Passable(ca, cb, wa, wb, w) <==> !Obstructed(ca, cb, w)
  {
    var v := RoundEnd(ca, cb, wa, wb, w);
    if Passable(ca, cb, wa, wb, w) {
      AfterIsRound(ca, cb, wa, wb, w);
      RoundCompletes(ca, cb, w);
    }
    if !Obstructed(ca, cb, w) {
      UnobstructedFirst(ca, cb, w);
      FirstHalfHere(ca, cb, wa, wb, w);
      UnobstructedSecond(ca, cb, w, v);
    }
  }

  // ---------------------------------------------------------------- one direction

  /** Every message of one direction respects the protocol's limits on entries and line length. */
  ghost predicate DirectionFits(c: Config, cs: Config, walk: Walk, ws: Walk, source: Tree, tree: Tree, saved: Manifest)
    requires c.chunkSize > 0 && cs.chunkSize > 0 && Walks(ws)
  {
    && WithinLimits(Asks(c, cs, walk, source, tree, saved))
    && |Scan(cs, source)| <= MAX_MANIFEST_ENTRIES && Fit(ManifestMessage(cs, ws, Scan(cs, source)))
    && Fit(NeedMessage(Asks(c, cs, walk, source, tree, saved)))
    && Fit(Emitted(cs, Scan(cs, source), source, Asks(c, cs, walk, source, tree, saved)).lines)
  }

  lemma {:induction false} ScanIsGood(c: Config, tree: Tree)
    requires Proper(c, tree)
    ensures GoodManifest(Scan(c, tree))
  {
  }

  /** What one side asks for survives the wire, and the other side can send it. */
  ghost predicate Sends(cs: Config, source: Tree, asks: seq<NeedRequest>)
    requires cs.chunkSize > 0
  {
    var message, sent := NeedMessage(asks), Emitted(cs, Scan(cs, source), source, asks);
    && |message| >= 2 && |message[0]| >= 11 && NeedFrom(Collected(message)) == Ok(asks)
    && sent.completes && sent.lines != []
  }

  /** It is served in full and leaves the tree `result`. */
  ghost predicate Works(c: Config, cs: Config, source: Tree, tree: Tree, asks: seq<NeedRequest>, result: Tree)
    requires cs.chunkSize > 0
  {
    var sent := Emitted(cs, Scan(cs, source), source, asks);
    && Sends(cs, source, asks)
    && R.Run(c, R.Initial(tree), sent.lines) ==
       Ok((R.Initial(result).(completed := |asks|), Quiet(|sent.lines| - 1) + [true]))
  }

  lemma {:induction false} DirectionSends(c: Config, cs: Config, walk: Walk, ws: Walk, source: Tree, tree: Tree,
      saved: Manifest)
    requires Aligned(c, cs) && Walks(walk) && Walks(ws) && Proper(cs, source) && Proper(c, tree)
    requires ProperManifest(c, saved) && DeltaSafe(c, cs, source, tree, saved)
    requires DirectionFits(c, cs, walk, ws, source, tree, saved)
    ensures Sends(cs, source, Asks(c, cs, walk, source, tree, saved))
    ensures !Clear(c, cs, source, tree, saved) ==>
              Refuses(c, R.Initial(tree),
                      Emitted(cs, Scan(cs, source), source, Asks(c, cs, walk, source, tree, saved)).lines)
  {
    AsksSurvive(c, cs, walk, source, tree, saved);
    AsksSent(c, cs, walk, source, tree, saved);
  }

  lemma {:induction false} DirectionWorks(c: Config, cs: Config, walk: Walk, ws: Walk, source: Tree, tree: Tree,
      saved: Manifest)
    requires Aligned(c, cs) && Walks(walk) && Walks(ws) && Proper(cs, source) && Proper(c, tree)
    requires ProperManifest(c, saved) && DeltaSafe(c, cs, source, tree, saved) && Clear(c, cs, source, tree, saved)
    requires DirectionFits(c, cs, walk, ws, source, tree, saved)
    ensures Works(c, cs, source, tree, Asks(c, cs, walk, source, tree, saved), Gets(c, cs, walk, source, tree, saved))
  {
    DirectionSends(c, cs, walk, ws, source, tree, saved);
    AsksServed(c, cs, walk, source, tree, saved);
  }

  lemma {:induction false} AsksSurvive(c: Config, cs: Config, walk: Walk, source: Tree, tree: Tree, saved: Manifest)
    requires Aligned(c, cs) && Walks(walk) && Proper(cs, source) && ProperManifest(c, saved)
    requires WithinLimits(Asks(c, cs, walk, source, tree, saved))
    ensures var asks := Asks(c, cs, walk, source, tree, saved);
            && |NeedMessage(asks)| >= 2 && |NeedMessage(asks)[0]| >= 11
            && NeedFrom(Collected(NeedMessage(asks))) == Ok(asks)
  {
    var remote := Remote(cs, source);
    assert SafeKeys(remote) && SafeKeys(saved);
    NeedSurvivesWire(c, tree, saved, remote, walk(remote.Keys), walk(saved.Keys));
  }

  /** The list can be sent whatever becomes of it, and is refused unless the half round is clear. */
  lemma {:induction false} AsksSent(c: Config, cs: Config, walk: Walk, source: Tree, tree: Tree, saved: Manifest)
    requires Aligned(c, cs) && Walks(walk) && Proper(cs, source) && Proper(c, tree) && ProperManifest(c, saved)
    requires DeltaSafe(c, cs, source, tree, saved)
    requires |Asks(c, cs, walk, source, tree, saved)| <= MAX_TRANSFER_ENTRIES
    ensures var sent := Emitted(cs, Scan(cs, source), source, Asks(c, cs, walk, source, tree, saved));
            && sent.completes && sent.lines != []
            && (!Clear(c, cs, source, tree, saved) ==> Refuses(c, R.Initial(tree), sent.lines))
  {
    var remote := Remote(cs, source);
    ListServable(c, cs, source, tree, saved, walk(remote.Keys), walk(saved.Keys));
    TransferIff(cs, c, Scan(cs, source), source, tree, Asks(c, cs, walk, source, tree, saved));
  }

  lemma {:induction false} AsksServed(c: Config, cs: Config, walk: Walk, source: Tree, tree: Tree, saved: Manifest)
    requires Aligned(c, cs) && Walks(walk) && Proper(cs, source) && Proper(c, tree) && ProperManifest(c, saved)
    requires DeltaSafe(c, cs, source, tree, saved) && Clear(c, cs, source, tree, saved)
    requires |Asks(c, cs, walk, source, tree, saved)| <= MAX_TRANSFER_ENTRIES
    ensures var asks := Asks(c, cs, walk, source, tree, saved);
            var sent := Emitted(cs, Scan(cs, source), source, asks);
            R.Run(c, R.Initial(tree), sent.lines) ==
            Ok((R.Initial(Gets(c, cs, walk, source, tree, saved)).(completed := |asks|),
                Quiet(|sent.lines| - 1) + [true]))
  {
    var remote := Remote(cs, source);
    ListServable(c, cs, source, tree, saved, walk(remote.Keys), walk(saved.Keys));
    TransferRefines(cs, c, Scan(cs, source), source, tree, Asks(c, cs, walk, source, tree, saved));
  }

  // ---------------------------------------------------------------- the messages of a round

  function AsksB(ca: Config, cb: Config, wb: Walk, w: World): seq<NeedRequest>
    requires cb.chunkSize > 0
  {
    Asks(cb, ca, wb, w.a, w.b, w.savedB)
  }

  function AsksA(ca: Config, cb: Config, wa: Walk, wb: Walk, w: World): seq<NeedRequest>
    requires ca.chunkSize > 0 && cb.chunkSize > 0
  {
    Asks(ca, cb, wa, RoundEnd(ca, cb, wa, wb, w).b, w.a, w.savedA)
  }

  /** The files that the initiator sends. */
  function FilesToB(ca: Config, cb: Config, wb: Walk, w: World): seq<string>
    requires ca.chunkSize > 0 && cb.chunkSize > 0
  {
    Emitted(ca, Scan(ca, w.a), w.a, AsksB(ca, cb, wb, w)).lines
  }

  function FilesToA(ca: Config, cb: Config, wa: Walk, wb: Walk, w: World): seq<string>
    requires ca.chunkSize > 0 && cb.chunkSize > 0
  {
    var b := RoundEnd(ca, cb, wa, wb, w).b;
    Emitted(cb, Scan(cb, b), b, AsksA(ca, cb, wa, wb, w)).lines
  }

  function ReverseManifest(ca: Config, cb: Config, wa: Walk, wb: Walk, w: World): seq<string>
    requires ca.chunkSize > 0 && cb.chunkSize > 0 && Walks(wb)
  {
    ManifestMessage(cb, wb, Scan(cb, RoundEnd(ca, cb, wa, wb, w).b))
  }

  // ---------------------------------------------------------------- the whole round

  ghost predicate RoundFits(ca: Config, cb: Config, wa: Walk, wb: Walk, w: World)
    requires ca.chunkSize > 0 && cb.chunkSize > 0 && Walks(wa) && Walks(wb)
  {
    && ca.token == cb.token != "" && !cb.receiveOnly
    && DirectionFits(cb, ca, wb, wa, w.a, w.b, w.savedB)
    && DirectionFits(ca, cb, wa, wb, RoundEnd(ca, cb, wa, wb, w).b, w.a, w.savedA)
  }

  /** The responder's states between the four messages that the initiator sends. */
  function AfterManifest(ca: Config, wa: Walk, w: World, s: Inbound): Inbound
    requires Walks(wa)
  {
    Asked(s, Remote(ca, w.a), ManifestMessage(ca, wa, Scan(ca, w.a)))
  }

  function AfterFiles(ca: Config, cb: Config, wa: Walk, wb: Walk, w: World, s: Inbound): Inbound
    requires ca.chunkSize > 0 && cb.chunkSize > 0 && Walks(wa)
  {
    Applied(cb, AfterManifest(ca, wa, w, s), RoundEnd(ca, cb, wa, wb, w).b, FilesToB(ca, cb, wb, w))
  }

  lemma {:induction false} ManifestAnswered(ca: Config, cb: Config, wa: Walk, wb: Walk, w: World, s: Inbound)
    requires Walks(wa) && Walks(wb) && Ready(ca, cb, w) && RoundFits(ca, cb, wa, wb, w) && Waiting(s, w.b, w.savedB)
    ensures Process(cb, wb, s, ManifestMessage(ca, wa, Scan(ca, w.a))) ==
            Live(AfterManifest(ca, wa, w, s), NeedMessage(Asks(cb, ca, wb, w.a, w.b, w.savedB)))
  {
    ScanIsGood(ca, w.a);
    ManifestExchanged(ca, cb, wa, wb, s, w.b, w.savedB, Scan(ca, w.a));
  }

  /** What the initiator sends is accepted as the responder's new tree. */
  ghost predicate FirstServed(ca: Config, cb: Config, wa: Walk, wb: Walk, w: World)
    requires ca.chunkSize > 0 && cb.chunkSize > 0
  {
    && !cb.receiveOnly
    && Accepts(cb, w.b, FilesToB(ca, cb, wb, w), RoundEnd(ca, cb, wa, wb, w).b, |AsksB(ca, cb, wb, w)|)
  }

  /** The receiver takes all the lines, reports completion at the last, and holds the new tree. */
  ghost predicate Accepts(c: Config, tree: Tree, lines: seq<string>, result: Tree, count: nat) {
    && Fit(lines) && lines != []
    && R.Run(c, R.Initial(tree), lines) ==
       Ok((R.Initial(result).(completed := count), Quiet(|lines| - 1) + [true]))
  }

  lemma {:induction false} WorksServes(c: Config, cs: Config, source: Tree, tree: Tree, asks: seq<NeedRequest>,
      result: Tree)
    requires cs.chunkSize > 0 && Works(c, cs, source, tree, asks, result)
    requires Fit(Emitted(cs, Scan(cs, source), source, asks).lines)
    ensures Accepts(c, tree, Emitted(cs, Scan(cs, source), source, asks).lines, result, |asks|)
  {
  }

  lemma {:induction false} FirstDirection(ca: Config, cb: Config, wa: Walk, wb: Walk, w: World)
    requires Walks(wa) && Walks(wb) && Ready(ca, cb, w) && RoundFits(ca, cb, wa, wb, w) && FirstClear(ca, cb, w)
    ensures FirstServed(ca, cb, wa, wb, w)
  {
    DirectionWorks(cb, ca, wb, wa, w.a, w.b, w.savedB);
    WorksServes(cb, ca, w.a, w.b, AsksB(ca, cb, wb, w), Gets(cb, ca, wb, w.a, w.b, w.savedB));
  }

  lemma {:induction false} FilesAnswered(ca: Config, cb: Config, wa: Walk, wb: Walk, w: World, s: Inbound)
    requires ca.chunkSize > 0 && cb.chunkSize > 0 && Walks(wa) && Walks(wb)
    requires FirstServed(ca, cb, wa, wb, w) && Waiting(s, w.b, w.savedB)
    ensures Process(cb, wb, AfterManifest(ca, wa, w, s), FilesToB(ca, cb, wb, w)) ==
            Live(AfterFiles(ca, cb, wa, wb, w, s), ManifestMessage(cb, wb, Scan(cb, RoundEnd(ca, cb, wa, wb, w).b)))
  {
    FilesTaken(cb, wb, s, Remote(ca, w.a), ManifestMessage(ca, wa, Scan(ca, w.a)), w.b, FilesToB(ca, cb, wb, w),
               RoundEnd(ca, cb, wa, wb, w).b, |AsksB(ca, cb, wb, w)|);
  }

  lemma {:induction false} FilesTaken(c: Config, walk: Walk, s: Inbound, m: Manifest, frames: seq<string>, tree: Tree,
      lines: seq<string>, result: Tree, count: nat)
    requires c.chunkSize > 0 && Walks(walk) && !c.receiveOnly && s.receiver == R.Initial(tree)
    requires Accepts(c, tree, lines, result, count)
    ensures Process(c, walk, Asked(s, m, frames), lines) ==
            Live(Applied(c, Asked(s, m, frames), result, lines), ManifestMessage(c, walk, Scan(c, result)))
  {
    FilesExchanged(c, walk, Asked(s, m, frames), lines, result, count);
  }

  lemma {:induction false} NeedAnswered(ca: Config, cb: Config, wa: Walk, wb: Walk, w: World, s: Inbound)
    requires Walks(wa) && Walks(wb) && Ready(ca, cb, w) && RoundFits(ca, cb, wa, wb, w) && Waiting(s, w.b, w.savedB)
    requires FirstClear(ca, cb, w)
    ensures var v := RoundEnd(ca, cb, wa, wb, w);
            Answered(cb, wb, v.b, v.savedB, AsksA(ca, cb, wa, wb, w), AfterFiles(ca, cb, wa, wb, w, s))
  {
    var v := RoundEnd(ca, cb, wa, wb, w);
    SecondSends(ca, cb, wa, wb, w);
    FilesState(ca, cb, wa, wb, w, s);
    NeedReached(cb, wb, v.b, v.savedB, AsksA(ca, cb, wa, wb, w), AfterFiles(ca, cb, wa, wb, w, s));
  }

  /** The need list is answered with the files that it asks for. */
  ghost predicate Answered(cb: Config, wb: Walk, b: Tree, saved: Manifest, asks: seq<NeedRequest>, s: Inbound)
    requires cb.chunkSize > 0 && Walks(wb)
  {
    var end := Process(cb, wb, s, NeedMessage(asks));
    && end.Live? && end.out == Emitted(cb, Scan(cb, b), b, asks).lines && end.state.phase == AckPhase
    && end.state.receiver == R.Initial(b) && end.state.saved == saved
  }

  lemma {:induction false} NeedReached(cb: Config, wb: Walk, b: Tree, saved: Manifest, asks: seq<NeedRequest>,
      s: Inbound)
    requires cb.chunkSize > 0 && Walks(wb) && s.phase == NeedPhase && !s.needStarted
    requires s.receiver == R.Initial(b) && s.saved == saved
    requires |asks| <= MAX_TRANSFER_ENTRIES && Fit(NeedMessage(asks)) && Sends(cb, b, asks)
    ensures Answered(cb, wb, b, saved, asks, s)
  {
    NeedServed(cb, wb, s, b, saved, asks);
  }

  lemma {:induction false} FilesState(ca: Config, cb: Config, wa: Walk, wb: Walk, w: World, s: Inbound)
    requires ca.chunkSize > 0 && cb.chunkSize > 0 && Walks(wa) && Waiting(s, w.b, w.savedB)
    ensures var v, t := RoundEnd(ca, cb, wa, wb, w), AfterFiles(ca, cb, wa, wb, w, s);
            t.phase == NeedPhase && !t.needStarted && t.receiver == R.Initial(v.b) && t.saved == v.savedB
  {
  }

  lemma {:induction false} SecondSends(ca: Config, cb: Config, wa: Walk, wb: Walk, w: World)
    requires Walks(wa) && Walks(wb) && Ready(ca, cb, w) && RoundFits(ca, cb, wa, wb, w) && FirstClear(ca, cb, w)
    ensures Sends(cb, RoundEnd(ca, cb, wa, wb, w).b, AsksA(ca, cb, wa, wb, w))
    ensures !SecondClear(ca, cb, w, RoundEnd(ca, cb, wa, wb, w).b) ==>
              Refuses(ca, R.Initial(w.a), FilesToA(ca, cb, wa, wb, w))
  {
    var v := RoundEnd(ca, cb, wa, wb, w);
    FirstHalfHere(ca, cb, wa, wb, w);
    SecondHalfReady(ca, cb, w, v);
    DirectionSends(ca, cb, wa, wb, v.b, w.a, w.savedA);
  }

  lemma {:induction false} SecondDirection(ca: Config, cb: Config, wa: Walk, wb: Walk, w: World)
    requires Walks(wa) && Walks(wb) && Ready(ca, cb, w) && RoundFits(ca, cb, wa, wb, w) && Passable(ca, cb, wa, wb, w)
    ensures var v := RoundEnd(ca, cb, wa, wb, w);
            Works(ca, cb, v.b, w.a, AsksA(ca, cb, wa, wb, w), v.a)
  {
    var v := RoundEnd(ca, cb, wa, wb, w);
    FirstHalfHere(ca, cb, wa, wb, w);
    SecondHalfReady(ca, cb, w, v);
    DirectionWorks(ca, cb, wa, wb, v.b, w.a, w.savedA);
  }

  lemma {:induction false} NeedServed(c: Config, walk: Walk, s: Inbound, tree: Tree, saved: Manifest,
      asks: seq<NeedRequest>)
    requires c.chunkSize > 0 && Walks(walk) && s.phase == NeedPhase && !s.needStarted
    requires s.receiver == R.Initial(tree) && s.saved == saved
    requires |asks| <= MAX_TRANSFER_ENTRIES && Fit(NeedMessage(asks))
    requires |NeedMessage(asks)| >= 2 && |NeedMessage(asks)[0]| >= 11
             && NeedFrom(Collected(NeedMessage(asks))) == Ok(asks)
    requires Emitted(c, Scan(c, tree), tree, asks).completes
    ensures var end := Process(c, walk, s, NeedMessage(asks));
            && end.Live? && end.out == Emitted(c, Scan(c, tree), tree, asks).lines && end.state.phase == AckPhase
            && end.state.receiver == R.Initial(tree) && end.state.saved == saved
  {
    NeedExchanged(c, walk, s, asks);
  }

  lemma {:induction false} RoundConvergesHere(ca: Config, cb: Config, wa: Walk, wb: Walk, w: World)
    requires Walks(wa) && Walks(wb) && Ready(ca, cb, w) && Passable(ca, cb, wa, wb, w)
    ensures Round(ca, cb, w, RoundEnd(ca, cb, wa, wb, w)) && Synced(ca, cb, RoundEnd(ca, cb, wa, wb, w))
  {
    AfterIsRound(ca, cb, wa, wb, w);
    RoundConverges(ca, cb, w, RoundEnd(ca, cb, wa, wb, w));
  }
}
