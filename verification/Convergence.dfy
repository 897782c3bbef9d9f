/** Two peers, many bidirectional rounds, arbitrary edits in between: both sides always agree afterwards. */
module Convergence {
  import opened Wrappers
  import opened Sequences
  import opened Text
  import opened Delta
  import opened Protocol
  import opened NeedList
  import opened Files
  import opened Decision
  import opened Refinement
  import opened Transfer
  import opened HalfRounds
  import R = Receiver

  // ---------------------------------------------------------------- a whole round

  /** Two trees and the manifest each peer saved after the last round; `a` opens the rounds. */
  datatype World = World(a: Tree, b: Tree, savedA: Manifest, savedB: Manifest)

  /** The responder catches up and saves its state. */
  ghost predicate FirstHalf(ca: Config, cb: Config, w: World, v: World)
    requires ca.chunkSize > 0 && cb.chunkSize > 0
  {
    HalfRound(cb, ca, w.a, w.b, w.savedB, v.b) && v.savedB == Saved(cb, w.savedB, v.b)
  }

  /** A round that is completed: the responder catches up and saves its state, then the initiator does. */
  ghost predicate Round(ca: Config, cb: Config, w: World, v: World)
    requires ca.chunkSize > 0 && cb.chunkSize > 0
  {
    && FirstHalf(ca, cb, w, v)
    && HalfRound(ca, cb, v.b, w.a, w.savedA, v.a) && v.savedA == Saved(ca, w.savedA, v.a)
  }

  ghost predicate Ready(ca: Config, cb: Config, w: World) {
    && Aligned(ca, cb) && Aligned(cb, ca) && Proper(ca, w.a) && Proper(cb, w.b)
    && w.savedA == w.savedB && ProperManifest(ca, w.savedA)
    && DeltaSafe(cb, ca, w.a, w.b, w.savedB)
  }

  /**
   * Deleted by a round: unchanged since the saved state and missing on the responder, or saved and missing on the
   * initiator.
   */
  ghost predicate Gone(c: Config, w: World, p: string) {
    && c.syncDeletes && !Internal(p)
    && if p in w.a then p !in w.b && Unchanged(w.savedA, p, StateOf(w.a[p])) else p in w.savedA
  }

  /**
   * What a round leaves at a path: nothing if it or a directory above it is deleted; otherwise
   * the initiator's entry, else the responder's unless the initiator has a file above it.
   */
  ghost function Outcome(c: Config, w: World, p: string): Option<FileState> {
    if exists q :: Covers(q, p) && Gone(c, w, q) then None
    else if p in w.a then Some(StateOf(w.a[p]))
    else if p in w.b && !FileAbove(w.a, p) then Some(StateOf(w.b[p]))
    else None
  }

  lemma {:induction false} AboveVisible(c: Config, p: string, q: string)
    requires Visible(c, p) && Covers(q, p) && !Internal(q)
    ensures Visible(c, q)
  {
    if q != p {
      AboveIsUnder(p, q);
      forall x | x in Above(q) ensures !c.excluded(x) {
        AboveIsUnder(q, x);
        UnderTransitive(p, q, x);
        AboveIsUnder(p, x);
      }
    }
  }

  lemma {:induction false} DoomedIsGone(ca: Config, cb: Config, w: World, p: string)
    requires Ready(ca, cb, w) && Visible(ca, p)
    ensures Doomed(cb, ca, w.a, w.b, w.savedB, p) <==> exists q :: Covers(q, p) && Gone(ca, w, q)
  {
    if q :| Covers(q, p) && Gone(ca, w, q) {
      AboveVisible(ca, p, q);
      SameVisible(ca, cb, q);
      DropFormula(cb, ca, w.a, w.b, w.savedB, q);
    }
    if q :| Covers(q, p) && DropsFor(cb, ca, w.a, w.b, w.savedB, q) {
      AboveVisible(ca, p, q);
      SameVisible(ca, cb, q);
      DropFormula(cb, ca, w.a, w.b, w.savedB, q);
      assert Gone(ca, w, q);
    }
  }

  lemma {:induction false} FirstHalfAt(ca: Config, cb: Config, w: World, v: World, p: string)
    requires Ready(ca, cb, w) && FirstHalf(ca, cb, w, v) && Visible(ca, p)
    ensures IsTree(v.b) && PlainDirectories(v.b) && StateAt(v.b, p) == Outcome(ca, w, p)
    ensures R.Look(v.b, p) == R.Look(w.a, p) || R.Look(v.b, p) == R.Look(w.b, p) || R.Look(v.b, p) == None
  {
    SameVisible(ca, cb, p);
    HalfRoundAt(cb, ca, w.a, w.b, w.savedB, v.b, p);
    FirstHalfRule(ca, cb, w, p);
  }

  lemma {:induction false} FirstHalfRule(ca: Config, cb: Config, w: World, p: string)
    requires Ready(ca, cb, w) && Visible(ca, p)
    ensures var node := AfterHalf(cb, ca, w.a, w.b, w.savedB, p);
            && Outcome(ca, w, p) == (if node.Some? then Some(StateOf(node.value)) else None)
            && (node == R.Look(w.a, p) || node == R.Look(w.b, p) || node == None)
  {
    SameVisible(ca, cb, p);
    FetchFormula(cb, ca, w.a, w.b, w.savedB, p);
    DropFormula(cb, ca, w.a, w.b, w.savedB, p);
    DoomedIsGone(ca, cb, w, p);
    assert Covers(p, p);
  }

  /** What the second half needs: the responder's new tree is proper, with new entries only where there are none. */
  lemma {:induction false} SecondHalfFetches(ca: Config, cb: Config, w: World, v: World, p: string)
    requires Ready(ca, cb, w) && FirstHalf(ca, cb, w, v) && Visible(ca, p)
    ensures FetchesFrom(ca, cb, v.b, w.a, w.savedA, p) <==> p in v.b && p !in w.a
  {
    FirstHalfAt(ca, cb, w, v, p);
    FetchFormula(ca, cb, v.b, w.a, w.savedA, p);
    assert Covers(p, p);
    assert p in v.b && p !in w.a ==> !Gone(ca, w, p);
  }

  lemma {:induction false} ResponderProper(ca: Config, cb: Config, w: World, v: World)
    requires Ready(ca, cb, w) && FirstHalf(ca, cb, w, v)
    ensures Proper(cb, v.b)
  {
    forall p | p in v.b && Visible(cb, p)
      ensures SafePath(p) && (v.b[p].File? ==> 0 < v.b[p].mtime < TWO_64 && |v.b[p].data| < TWO_64)
    {
      SameVisible(ca, cb, p);
      FirstHalfAt(ca, cb, w, v, p);
    }
    TreeAfterHalf(cb, ca, w.a, w.b, w.savedB, v.b);
  }

  lemma {:induction false} TreeAfterHalf(c: Config, cs: Config, source: Tree, tree: Tree, previous: Manifest,
      result: Tree)
    requires Aligned(c, cs) && Proper(cs, source) && Proper(c, tree) && ProperManifest(c, previous)
    requires DeltaSafe(c, cs, source, tree, previous) && HalfRound(c, cs, source, tree, previous, result)
    ensures IsTree(result) && PlainDirectories(result)
  {
    var order, previousOrder :| Carried(c, cs, source, tree, previous, order, previousOrder, result);
    ListServable(c, cs, source, tree, previous, order, previousOrder);
  }

  lemma {:induction false} SecondHalfReady(ca: Config, cb: Config, w: World, v: World)
    requires Ready(ca, cb, w) && FirstHalf(ca, cb, w, v)
    ensures Proper(cb, v.b) && DeltaSafe(ca, cb, v.b, w.a, w.savedA)
  {
    ResponderProper(ca, cb, w, v);
    forall p | FetchesFrom(ca, cb, v.b, w.a, w.savedA, p) ensures DeltaSafeAt(ca, v.b, w.a, p) {
      FetchedIsVisible(ca, cb, v.b, w.a, w.savedA, p);
      SecondHalfFetches(ca, cb, w, v, p);
    }
  }

  /** What the initiator deletes is what the round has deleted. */
  lemma {:induction false} SecondHalfDooms(ca: Config, cb: Config, w: World, v: World, p: string)
    requires Ready(ca, cb, w) && FirstHalf(ca, cb, w, v) && Visible(ca, p) && (p in w.a || p in v.b)
    ensures Doomed(ca, cb, v.b, w.a, w.savedA, p) <==> exists q :: Covers(q, p) && Gone(ca, w, q)
  {
    ResponderProper(ca, cb, w, v);
    if q :| Covers(q, p) && DropsFor(ca, cb, v.b, w.a, w.savedA, q) {
      DropIsGone(ca, cb, w, v, p, q);
    }
    if q :| Covers(q, p) && Gone(ca, w, q) {
      GoneIsDrop(ca, cb, w, v, p, q);
    }
  }

  lemma {:induction false} DropIsGone(ca: Config, cb: Config, w: World, v: World, p: string, q: string)
    requires Ready(ca, cb, w) && FirstHalf(ca, cb, w, v) && Visible(ca, p) && (p in w.a || p in v.b)
    requires Proper(cb, v.b) && Covers(q, p) && DropsFor(ca, cb, v.b, w.a, w.savedA, q)
    ensures exists x :: Covers(x, p) && Gone(ca, w, x)
  {
    AboveVisible(ca, p, q);
    SavedNotLeft(ca, cb, w, v, q);
    AncestorOnInitiator(ca, cb, w, v, p, q);
    FirstHalfAt(ca, cb, w, v, q);
    NothingLeft(ca, w, p, q);
  }

  /** An initiator's entry is lost in a round only below a deletion. */
  lemma {:induction false} NothingLeft(c: Config, w: World, p: string, q: string)
    requires Outcome(c, w, q) == None && q in w.a && Covers(q, p)
    ensures exists x :: Covers(x, p) && Gone(c, w, x)
  {
    var x :| Covers(x, q) && Gone(c, w, x);
    CoversTransitive(p, q, x);
  }

  /** The initiator drops only what is saved and no longer on the responder. */
  lemma {:induction false} SavedNotLeft(ca: Config, cb: Config, w: World, v: World, q: string)
    requires Ready(ca, cb, w) && FirstHalf(ca, cb, w, v) && Visible(ca, q)
    requires DropsFor(ca, cb, v.b, w.a, w.savedA, q)
    ensures q !in v.b && q in w.savedA && ca.syncDeletes
  {
    DropFormula(ca, cb, v.b, w.a, w.savedA, q);
    FirstHalfAt(ca, cb, w, v, q);
    assert Covers(q, q);
    assert q in v.b && q !in w.a ==> !Gone(ca, w, q);
  }

  lemma {:induction false} AncestorOnInitiator(ca: Config, cb: Config, w: World, v: World, p: string, q: string)
    requires Ready(ca, cb, w) && Visible(ca, p) && (p in w.a || p in v.b)
    requires Proper(cb, v.b) && Covers(q, p) && q !in v.b
    ensures q in w.a
  {
    SameVisible(ca, cb, p);
    if q != p && p in v.b {
      VisibleAbove(cb, v.b, p, q);
    } else if q != p {
      VisibleAbove(ca, w.a, p, q);
    }
  }

  lemma {:induction false} GoneIsDrop(ca: Config, cb: Config, w: World, v: World, p: string, q: string)
    requires Ready(ca, cb, w) && FirstHalf(ca, cb, w, v) && Visible(ca, p)
    requires Covers(q, p) && Gone(ca, w, q)
    ensures Doomed(ca, cb, v.b, w.a, w.savedA, p)
  {
    AboveVisible(ca, p, q);
    FirstHalfAt(ca, cb, w, v, q);
    assert Covers(q, q);
    DropFormula(ca, cb, v.b, w.a, w.savedA, q);
    assert DropsFor(ca, cb, v.b, w.a, w.savedA, q);
  }

  /** Per path: both sides end with the outcome, whatever the two sides held before. */
  lemma {:induction false} RoundAt(ca: Config, cb: Config, w: World, v: World, p: string)
    requires Ready(ca, cb, w) && Round(ca, cb, w, v) && Visible(ca, p)
    ensures StateAt(v.a, p) == StateAt(v.b, p) == Outcome(ca, w, p)
  {
    SecondHalfReady(ca, cb, w, v);
    FirstHalfAt(ca, cb, w, v, p);
    HalfRoundAt(ca, cb, v.b, w.a, w.savedA, v.a, p);
    SecondHalfRule(ca, cb, w, v, p);
  }

  lemma {:induction false} SecondHalfRule(ca: Config, cb: Config, w: World, v: World, p: string)
    requires Ready(ca, cb, w) && FirstHalf(ca, cb, w, v) && Visible(ca, p) && StateAt(v.b, p) == Outcome(ca, w, p)
    ensures var node := AfterHalf(ca, cb, v.b, w.a, w.savedA, p);
            Outcome(ca, w, p) == (if node.Some? then Some(StateOf(node.value)) else None)
  {
    SecondHalfFetches(ca, cb, w, v, p);
    if p in w.a || p in v.b {
      SecondHalfDooms(ca, cb, w, v, p);
      SecondHalfCases(ca, cb, w, v, p);
    } else {
      SecondHalfNothing(ca, cb, w, v, p);
    }
  }

  lemma {:induction false} SecondHalfNothing(ca: Config, cb: Config, w: World, v: World, p: string)
    requires StateAt(v.b, p) == Outcome(ca, w, p) && p !in w.a && p !in v.b
    ensures AfterHalf(ca, cb, v.b, w.a, w.savedA, p) == None && Outcome(ca, w, p) == None
  {
  }

  lemma {:induction false} SecondHalfCases(ca: Config, cb: Config, w: World, v: World, p: string)
    requires ca.chunkSize > 0 && StateAt(v.b, p) == Outcome(ca, w, p) && (p in w.a || p in v.b)
    requires FetchesFrom(ca, cb, v.b, w.a, w.savedA, p) <==> p in v.b && p !in w.a
    requires Doomed(ca, cb, v.b, w.a, w.savedA, p) <==> exists q :: Covers(q, p) && Gone(ca, w, q)
    ensures var node := AfterHalf(ca, cb, v.b, w.a, w.savedA, p);
            Outcome(ca, w, p) == (if node.Some? then Some(StateOf(node.value)) else None)
  {
  }

  /** Both manifests agree, both saved states agree, and with deletions on they are the manifests. */
  ghost predicate Synced(ca: Config, cb: Config, v: World) {
    Scan(ca, v.a) == Scan(cb, v.b) && v.savedA == v.savedB && (ca.syncDeletes ==> v.savedA == Scan(ca, v.a))
  }

  lemma {:induction false} RoundConverges(ca: Config, cb: Config, w: World, v: World)
    requires Ready(ca, cb, w) && Round(ca, cb, w, v)
    ensures Synced(ca, cb, v)
    ensures ProperManifest(ca, v.savedA)
  {
    ManifestsAgree(ca, cb, w, v);
    SecondHalfReady(ca, cb, w, v);
    TreeAfterHalf(ca, cb, v.b, w.a, w.savedA, v.a);
    forall p | p in v.savedA ensures SafePath(p) && PlainAbove(p) {
      ScansAgree(ca, cb, w, v, p);
      if ca.syncDeletes {
        ScannedPlainAbove(ca, v.a, p);
      }
    }
  }

  lemma {:induction false} ScannedPlainAbove(c: Config, tree: Tree, p: string)
    requires IsTree(tree) && PlainDirectories(tree) && p in Scan(c, tree)
    ensures PlainAbove(p)
  {
    forall q | Under(p, q) ensures !Internal(q) {
      VisibleAbove(c, tree, p, q);
    }
  }

  lemma {:induction false} ManifestsAgree(ca: Config, cb: Config, w: World, v: World)
    requires Ready(ca, cb, w) && Round(ca, cb, w, v)
    ensures Scan(ca, v.a) == Scan(cb, v.b)
  {
    var sa, sb := Scan(ca, v.a), Scan(cb, v.b);
    forall p ensures (p in sa <==> p in sb) && (p in sa && p in sb ==> sa[p] == sb[p]) {
      ScansAgree(ca, cb, w, v, p);
    }
    SameMaps(sa, sb);
  }

  lemma {:induction false} SameMaps(x: Manifest, y: Manifest)
    requires forall p :: (p in x <==> p in y) && (p in x && p in y ==> x[p] == y[p])
    ensures x == y
  {
  }

  lemma {:induction false} ScansAgree(ca: Config, cb: Config, w: World, v: World, p: string)
    requires Ready(ca, cb, w) && Round(ca, cb, w, v)
    ensures p in Scan(ca, v.a) <==> p in Scan(cb, v.b)
    ensures p in Scan(ca, v.a) && p in Scan(cb, v.b) ==> Scan(ca, v.a)[p] == Scan(cb, v.b)[p]
    ensures p in Scan(ca, v.a) ==> SafePath(p)
  {
    SameVisible(ca, cb, p);
    if Visible(ca, p) {
      RoundAt(ca, cb, w, v, p);
      if Outcome(ca, w, p).Some? {
        SafeAfterRound(ca, cb, w, v, p);
      }
    }
  }

  lemma {:induction false} SafeAfterRound(ca: Config, cb: Config, w: World, v: World, p: string)
    requires Ready(ca, cb, w) && Round(ca, cb, w, v) && Visible(ca, p) && Outcome(ca, w, p).Some?
    ensures SafePath(p)
  {
    SameVisible(ca, cb, p);
  }

  // ---------------------------------------------------------------- whole runs

  /**
   * A run: world `starts[i]`, reached by any edits to the two trees, becomes `ends[i]` in a
   * round; only the saved states carry over to the next start.
   */
  ghost predicate IsRun(ca: Config, cb: Config, starts: seq<World>, ends: seq<World>)
    requires ca.chunkSize > 0 && cb.chunkSize > 0
  {
    && |starts| == |ends|
    && (forall i :: 0 <= i < |starts| ==> Round(ca, cb, starts[i], ends[i]))
    && (forall i :: 0 < i < |starts| ==>
          starts[i].savedA == ends[i - 1].savedA && starts[i].savedB == ends[i - 1].savedB)
  }

  /** The two trees as edited before a round: proper names and times, and no digest collision. */
  ghost predicate Edited(ca: Config, cb: Config, w: World)
    requires ca.chunkSize > 0 && cb.chunkSize > 0
  {
    Proper(ca, w.a) && Proper(cb, w.b) && DeltaSafe(cb, ca, w.a, w.b, w.savedB)
  }

  /** What every round of a run achieves. */
  ghost predicate Agreed(ca: Config, cb: Config, w: World, v: World) {
    && Synced(ca, cb, v) && ProperManifest(ca, v.savedA)
    && forall p :: Visible(ca, p) ==> StateAt(v.a, p) == StateAt(v.b, p) == Outcome(ca, w, p)
  }

  lemma {:induction false} RoundAgrees(ca: Config, cb: Config, w: World, v: World)
    requires Ready(ca, cb, w) && Round(ca, cb, w, v)
    ensures Agreed(ca, cb, w, v)
  {
    RoundConverges(ca, cb, w, v);
    forall p | Visible(ca, p) ensures StateAt(v.a, p) == StateAt(v.b, p) == Outcome(ca, w, p) {
      RoundAt(ca, cb, w, v, p);
    }
  }

  /** Convergence: if the saved states agree at the start, the peers agree at the end of every round. */
  lemma {:induction false} RunConverges(ca: Config, cb: Config, starts: seq<World>, ends: seq<World>, n: nat)
    requires Aligned(ca, cb) && Aligned(cb, ca) && IsRun(ca, cb, starts, ends) && n < |starts|
    requires forall i :: 0 <= i < |starts| ==> Edited(ca, cb, starts[i])
    requires starts[0].savedA == starts[0].savedB && ProperManifest(ca, starts[0].savedA)
    ensures Agreed(ca, cb, starts[n], ends[n])
    decreases n
  {
    if n > 0 {
      RunConverges(ca, cb, starts, ends, n - 1);
      CarriesOver(ca, cb, starts[n - 1], ends[n - 1], starts[n]);
    }
    RoundAgrees(ca, cb, starts[n], ends[n]);
  }

  lemma {:induction false} CarriesOver(ca: Config, cb: Config, w: World, v: World, next: World)
    requires Agreed(ca, cb, w, v) && next.savedA == v.savedA && next.savedB == v.savedB
    ensures next.savedA == next.savedB && ProperManifest(ca, next.savedA)
  {
  }

  /** With nothing edited since the last round, neither half requests anything. */
  lemma {:induction false} QuietRound(ca: Config, cb: Config, w: World, order: seq<string>, previousOrder: seq<string>)
    requires SameView(ca, cb) && SameView(cb, ca) && Synced(ca, cb, w)
    requires Enumerates(order, Remote(ca, w.a).Keys) && Enumerates(previousOrder, w.savedB.Keys)
    ensures Requests(cb, w.b, w.savedB, Remote(ca, w.a), order, previousOrder) == []
    ensures Requests(ca, w.a, w.savedA, Remote(cb, w.b), order, previousOrder) == []
  {
    NothingRequested(cb, ca, w.a, w.b, w.savedB, order, previousOrder);
    NothingRequested(ca, cb, w.b, w.a, w.savedA, order, previousOrder);
  }

  lemma {:induction false} HasMember(requests: seq<NeedRequest>)
    ensures requests != [] ==> exists r :: r in requests
  {
    if requests != [] {
      assert requests[0] in requests;
    }
  }

  lemma {:induction false} NothingRequested(c: Config, cs: Config, source: Tree, tree: Tree, previous: Manifest,
      order: seq<string>, previousOrder: seq<string>)
    requires SameView(c, cs) && Scan(c, tree) == Scan(cs, source) && (c.syncDeletes ==> previous == Scan(c, tree))
    requires Enumerates(order, Remote(cs, source).Keys) && Enumerates(previousOrder, previous.Keys)
    ensures Requests(c, tree, previous, Remote(cs, source), order, previousOrder) == []
  {
    var requests := Requests(c, tree, previous, Remote(cs, source), order, previousOrder);
    RequestsExact(c, tree, previous, Remote(cs, source), order, previousOrder);
    var local := Scan(c, tree);
    forall p
      ensures !Fetches(c, local, previous, Remote(cs, source), p) && !Drops(c, local, previous, Remote(cs, source), p)
    {
      assert p in Remote(cs, source) <==> p in local;
    }
    HasMember(requests);
  }

  /**
   * Contents, not only metadata: if equal metadata meant equal bytes at the start of a round,
   * the visible parts of the two trees are equal, byte for byte, at its end.
   */
  lemma {:induction false} RoundEqualContent(ca: Config, cb: Config, w: World, v: World, p: string)
    requires Ready(ca, cb, w) && Round(ca, cb, w, v) && Visible(ca, p)
    requires p in w.a && p in w.b && StateOf(w.a[p]) == StateOf(w.b[p]) ==> w.a[p] == w.b[p]
    ensures R.Look(v.a, p) == R.Look(v.b, p)
  {
    RoundAt(ca, cb, w, v, p);
    SameVisible(ca, cb, p);
    HalfRoundAt(cb, ca, w.a, w.b, w.savedB, v.b, p);
    FetchFormula(cb, ca, w.a, w.b, w.savedB, p);
    SecondHalfReady(ca, cb, w, v);
    HalfRoundAt(ca, cb, v.b, w.a, w.savedA, v.a, p);
    SecondHalfFetches(ca, cb, w, v, p);
  }
}
