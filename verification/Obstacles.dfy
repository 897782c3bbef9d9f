/** When a round cannot be completed: deletions that meet a file above their path. */
module Obstacles {
  import opened Wrappers
  import opened Sequences
  import opened Text
  import opened Delta
  import opened Protocol
  import opened NeedList
  import opened Files
  import opened Decision
  import opened Transfer
  import opened HalfRounds
  import opened Convergence
  import opened Losses
  import Session
  import R = Receiver

  // ---------------------------------------------------------------- the condition

  /** The round deletes the path. */
  ghost predicate Deletes(ca: Config, cb: Config, w: World, p: string) {
    DropsFor(cb, ca, w.a, w.b, w.savedB, p)
  }

  /** The path, or a directory above it, is deleted. */
  ghost predicate Condemned(ca: Config, cb: Config, w: World, p: string) {
    Doomed(cb, ca, w.a, w.b, w.savedB, p)
  }

  /** One of the peers has a file at the path, and not one that the initiator's directory replaces. */
  ghost predicate Stands(c: Config, w: World, q: string) {
    IsFile(R.Look(w.a, q)) || (IsFile(R.Look(w.b, q)) && (q in w.a ==> !Visible(c, q)))
  }

  /** Something is to be deleted below a file that is to stay. */
  ghost predicate Obstructed(ca: Config, cb: Config, w: World) {
    exists p, q :: Blocks(ca, cb, w, p, q)
  }

  ghost predicate Blocks(ca: Config, cb: Config, w: World, p: string, q: string) {
    Deletes(ca, cb, w, p) && Under(p, q) && Stands(ca, w, q) && !Condemned(ca, cb, w, q)
  }

  /** The two halves are clear. */
  ghost predicate FirstClear(ca: Config, cb: Config, w: World) {
    Clear(cb, ca, w.a, w.b, w.savedB)
  }

  ghost predicate SecondClear(ca: Config, cb: Config, w: World, b: Tree) {
    Clear(ca, cb, b, w.a, w.savedA)
  }

  // ---------------------------------------------------------------- the first half

  lemma {:induction false} FirstMeets(ca: Config, cb: Config, w: World, q: string)
    requires Ready(ca, cb, w) && FileAfter(cb, ca, w.a, w.b, w.savedB, q)
    ensures Stands(ca, w, q)
  {
    if !FetchesFrom(cb, ca, w.a, w.b, w.savedB, q) && Visible(ca, q) {
      SameVisible(ca, cb, q);
      FetchFormula(cb, ca, w.a, w.b, w.savedB, q);
    }
  }

  lemma {:induction false} UnobstructedFirst(ca: Config, cb: Config, w: World)
    requires Ready(ca, cb, w) && !Obstructed(ca, cb, w)
    ensures FirstClear(ca, cb, w)
  {
    forall p, q | Deletes(ca, cb, w, p) && Under(p, q) && FileAfter(cb, ca, w.a, w.b, w.savedB, q)
      ensures Condemned(ca, cb, w, q)
    {
      FirstMeets(ca, cb, w, q);
      assert !Blocks(ca, cb, w, p, q);
    }
  }

  lemma {:induction false} CondemnedBelow(ca: Config, cb: Config, w: World, p: string, q: string)
    requires Under(p, q) && Condemned(ca, cb, w, q)
    ensures Condemned(ca, cb, w, p)
  {
    var r :| Covers(r, q) && DropsFor(cb, ca, w.a, w.b, w.savedB, r);
    CoversTransitive(p, q, r);
  }

  // ---------------------------------------------------------------- the second half

  /** Invisible paths are judged by the saved state alone, alike on both sides. */
  lemma {:induction false} InvisibleDrops(ca: Config, cb: Config, w: World, v: World, p: string)
    requires Ready(ca, cb, w) && !Visible(ca, p)
    ensures Deletes(ca, cb, w, p) <==> DropsFor(ca, cb, v.b, w.a, w.savedA, p)
  {
    SameVisible(ca, cb, p);
  }

  /** What the initiator deletes and does not have is what the responder deleted. */
  lemma {:induction false} SecondDeletes(ca: Config, cb: Config, w: World, v: World, p: string)
    requires Ready(ca, cb, w) && FirstHalf(ca, cb, w, v) && p !in w.a
    ensures DropsFor(ca, cb, v.b, w.a, w.savedA, p) ==> Deletes(ca, cb, w, p)
  {
    if DropsFor(ca, cb, v.b, w.a, w.savedA, p) {
      if Visible(ca, p) {
        SavedNotLeft(ca, cb, w, v, p);
        SameVisible(ca, cb, p);
        DropFormula(cb, ca, w.a, w.b, w.savedB, p);
      } else {
        InvisibleDrops(ca, cb, w, v, p);
      }
    }
  }

  /** What stands on the initiator and is condemned is condemned in the second half too, and conversely. */
  lemma {:induction false} SecondCondemns(ca: Config, cb: Config, w: World, v: World, q: string)
    requires Ready(ca, cb, w) && FirstHalf(ca, cb, w, v) && q in w.a
    ensures Doomed(ca, cb, v.b, w.a, w.savedA, q) <==> Condemned(ca, cb, w, q)
  {
    forall r | Covers(r, q) ensures r in w.a {
    }
    forall r | Covers(r, q) && Deletes(ca, cb, w, r) ensures DropsFor(ca, cb, v.b, w.a, w.savedA, r) {
      DeletedTwice(ca, cb, w, v, r);
    }
    forall r | Covers(r, q) && DropsFor(ca, cb, v.b, w.a, w.savedA, r) ensures Condemned(ca, cb, w, q) {
      DroppedBefore(ca, cb, w, v, r);
      if r != q {
        CondemnedBelow(ca, cb, w, q, r);
      }
    }
  }

  lemma {:induction false} DeletedTwice(ca: Config, cb: Config, w: World, v: World, r: string)
    requires Ready(ca, cb, w) && FirstHalf(ca, cb, w, v) && r in w.a && Deletes(ca, cb, w, r)
    ensures DropsFor(ca, cb, v.b, w.a, w.savedA, r)
  {
    if Visible(ca, r) {
      SameVisible(ca, cb, r);
      DropFormula(cb, ca, w.a, w.b, w.savedB, r);
      DeletedIsGone(ca, cb, w, v, r);
      DropFormula(ca, cb, v.b, w.a, w.savedA, r);
    } else {
      InvisibleDrops(ca, cb, w, v, r);
    }
  }

  lemma {:induction false} DeletedIsGone(ca: Config, cb: Config, w: World, v: World, r: string)
    requires Ready(ca, cb, w) && FirstHalf(ca, cb, w, v) && Visible(cb, r) && Deletes(ca, cb, w, r)
    ensures r !in v.b
  {
    HalfRoundAt(cb, ca, w.a, w.b, w.savedB, v.b, r);
    assert Covers(r, r);
  }

  lemma {:induction false} DroppedBefore(ca: Config, cb: Config, w: World, v: World, r: string)
    requires Ready(ca, cb, w) && FirstHalf(ca, cb, w, v) && r in w.a && DropsFor(ca, cb, v.b, w.a, w.savedA, r)
    ensures Condemned(ca, cb, w, r)
  {
    if Visible(ca, r) {
      SavedNotLeft(ca, cb, w, v, r);
      FirstHalfAt(ca, cb, w, v, r);
      DoomedIsGone(ca, cb, w, r);
    } else {
      InvisibleDrops(ca, cb, w, v, r);
      assert Covers(r, r);
    }
  }

  lemma {:induction false} UnobstructedSecond(ca: Config, cb: Config, w: World, v: World)
    requires Ready(ca, cb, w) && FirstHalf(ca, cb, w, v) && !Obstructed(ca, cb, w)
    ensures SecondClear(ca, cb, w, v.b)
  {
    forall p, q | DropsFor(ca, cb, v.b, w.a, w.savedA, p) && Under(p, q) && FileAfter(ca, cb, v.b, w.a, w.savedA, q)
      ensures Doomed(ca, cb, v.b, w.a, w.savedA, q)
    {
      SecondMeets(ca, cb, w, v, p, q);
    }
  }

  lemma {:induction false} SecondMeets(ca: Config, cb: Config, w: World, v: World, p: string, q: string)
    requires Ready(ca, cb, w) && FirstHalf(ca, cb, w, v) && !Obstructed(ca, cb, w)
    requires DropsFor(ca, cb, v.b, w.a, w.savedA, p) && Under(p, q) && FileAfter(ca, cb, v.b, w.a, w.savedA, q)
    ensures Doomed(ca, cb, v.b, w.a, w.savedA, q)
  {
    if FetchesFrom(ca, cb, v.b, w.a, w.savedA, q) {
      FetchedIsVisible(ca, cb, v.b, w.a, w.savedA, q);
      SecondHalfFetches(ca, cb, w, v, q);
    }
    assert p !in w.a;
    SecondDeletes(ca, cb, w, v, p);
    if FetchesFrom(ca, cb, v.b, w.a, w.savedA, q) {
      FirstHalfAt(ca, cb, w, v, q);
      assert Stands(ca, w, q);
      assert !Blocks(ca, cb, w, p, q);
      SameVisible(ca, cb, q);
      HalfRoundAt(cb, ca, w.a, w.b, w.savedB, v.b, q);
    } else {
      assert Stands(ca, w, q);
      assert !Blocks(ca, cb, w, p, q);
      SecondCondemns(ca, cb, w, v, q);
    }
  }

  // ---------------------------------------------------------------- conversely

  /** A file that stands in the way is met in one of the halves. */
  lemma {:induction false} ClearIsUnobstructed(ca: Config, cb: Config, w: World, v: World, p: string, q: string)
    requires Ready(ca, cb, w) && FirstHalf(ca, cb, w, v) && FirstClear(ca, cb, w) && SecondClear(ca, cb, w, v.b)
    ensures !Blocks(ca, cb, w, p, q)
  {
    if Blocks(ca, cb, w, p, q) {
      if IsFile(R.Look(w.a, q)) && !Visible(ca, q) {
        MetBySecond(ca, cb, w, v, p, q);
      } else {
        MetByFirst(ca, cb, w, p, q);
      }
    }
  }

  lemma {:induction false} MetByFirst(ca: Config, cb: Config, w: World, p: string, q: string)
    requires Ready(ca, cb, w) && Blocks(ca, cb, w, p, q) && (IsFile(R.Look(w.a, q)) ==> Visible(ca, q))
    ensures !FirstClear(ca, cb, w)
  {
    if BelowFetched(cb, ca, w.a, w.b, w.savedB, q) {
      var r :| Under(q, r) && FetchesFrom(cb, ca, w.a, w.b, w.savedB, r) && IsFile(R.Look(w.a, r));
      UnderTransitive(p, q, r);
      assert FileAfter(cb, ca, w.a, w.b, w.savedB, r);
      if Condemned(ca, cb, w, r) {
        CondemnedBelow(ca, cb, w, q, r);
      }
      assert Deletes(ca, cb, w, p) && Under(p, r) && !Condemned(ca, cb, w, r);
    } else {
      StandsInFirst(ca, cb, w, q);
      assert FileAfter(cb, ca, w.a, w.b, w.savedB, q);
    }
  }

  lemma {:induction false} StandsInFirst(ca: Config, cb: Config, w: World, q: string)
    requires Ready(ca, cb, w) && Stands(ca, w, q) && !Condemned(ca, cb, w, q)
    requires IsFile(R.Look(w.a, q)) ==> Visible(ca, q)
    requires !BelowFetched(cb, ca, w.a, w.b, w.savedB, q)
    ensures FileAfter(cb, ca, w.a, w.b, w.savedB, q)
  {
    assert Covers(q, q);
    SameVisible(ca, cb, q);
    if Visible(ca, q) {
      FetchFormula(cb, ca, w.a, w.b, w.savedB, q);
      DropFormula(cb, ca, w.a, w.b, w.savedB, q);
    } else if FetchesFrom(cb, ca, w.a, w.b, w.savedB, q) {
      FetchedIsVisible(cb, ca, w.a, w.b, w.savedB, q);
    }
  }

  lemma {:induction false} MetBySecond(ca: Config, cb: Config, w: World, v: World, p: string, q: string)
    requires Ready(ca, cb, w) && FirstHalf(ca, cb, w, v) && Blocks(ca, cb, w, p, q)
    requires IsFile(R.Look(w.a, q)) && !Visible(ca, q)
    ensures !SecondClear(ca, cb, w, v.b)
  {
    assert p !in w.a;
    DropServable(cb, ca, w.a, w.b, w.savedB, w.b, NeedRequest(p, None, true));
    if Visible(ca, p) {
      AboveVisible(ca, p, q);
    }
    InvisibleDrops(ca, cb, w, v, p);
    SecondCondemns(ca, cb, w, v, q);
    if FetchesFrom(ca, cb, v.b, w.a, w.savedA, q) {
      FetchedIsVisible(ca, cb, v.b, w.a, w.savedA, q);
    }
    if BelowFetched(ca, cb, v.b, w.a, w.savedA, q) {
      var r :| Under(q, r) && FetchesFrom(ca, cb, v.b, w.a, w.savedA, r) && IsFile(R.Look(v.b, r));
      FetchedIsVisible(ca, cb, v.b, w.a, w.savedA, r);
      SecondHalfFetches(ca, cb, w, v, r);
    }
    assert FileAfter(ca, cb, v.b, w.a, w.savedA, q);
  }

  // ---------------------------------------------------------------- exactly when a round completes

  /** Half a round can be completed exactly when it is clear. */
  lemma {:induction false} HalfRoundIff(c: Config, cs: Config, source: Tree, tree: Tree, previous: Manifest)
    requires Aligned(c, cs) && Proper(cs, source) && Proper(c, tree) && ProperManifest(c, previous)
    requires DeltaSafe(c, cs, source, tree, previous)
    ensures (exists result :: HalfRound(c, cs, source, tree, previous, result)) <==>
            Clear(c, cs, source, tree, previous)
  {
    if result :| HalfRound(c, cs, source, tree, previous, result) {
      var order, previousOrder :| Carried(c, cs, source, tree, previous, order, previousOrder, result);
      ListServable(c, cs, source, tree, previous, order, previousOrder);
    }
    if Clear(c, cs, source, tree, previous) {
      var result := ClearCompletes(c, cs, source, tree, previous);
    }
  }

  lemma {:induction false} ClearCompletes(c: Config, cs: Config, source: Tree, tree: Tree, previous: Manifest)
      returns (result: Tree)
    requires Aligned(c, cs) && Proper(cs, source) && Proper(c, tree) && ProperManifest(c, previous)
    requires DeltaSafe(c, cs, source, tree, previous) && Clear(c, cs, source, tree, previous)
    ensures HalfRound(c, cs, source, tree, previous, result)
  {
    var walk := Session.WalksExist();
    var order, previousOrder := walk(Remote(cs, source).Keys), walk(previous.Keys);
    ListServable(c, cs, source, tree, previous, order, previousOrder);
    result := EffectAll(c, Scan(cs, source), source, tree,
                        Requests(c, tree, previous, Remote(cs, source), order, previousOrder));
    assert Carried(c, cs, source, tree, previous, order, previousOrder, result);
  }

  /**
   * A round can be completed if and only if nothing is to be deleted below a file that is to stay,
   * on either peer; in particular always when deletions are not propagated.
   */
  lemma {:induction false} RoundCompletes(ca: Config, cb: Config, w: World)
    requires Ready(ca, cb, w)
    ensures (exists v :: Round(ca, cb, w, v)) <==> !Obstructed(ca, cb, w)
    ensures !ca.syncDeletes ==> !Obstructed(ca, cb, w)
  {
    if v :| Round(ca, cb, w, v) {
      SecondHalfReady(ca, cb, w, v);
      HalfRoundIff(cb, ca, w.a, w.b, w.savedB);
      HalfRoundIff(ca, cb, v.b, w.a, w.savedA);
      forall p, q ensures !Blocks(ca, cb, w, p, q) {
        ClearIsUnobstructed(ca, cb, w, v, p, q);
      }
    }
    if !Obstructed(ca, cb, w) {
      UnobstructedFirst(ca, cb, w);
      HalfRoundIff(cb, ca, w.a, w.b, w.savedB);
      var b :| HalfRound(cb, ca, w.a, w.b, w.savedB, b);
      var u := World(w.a, b, w.savedA, Saved(cb, w.savedB, b));
      UnobstructedSecond(ca, cb, w, u);
      SecondHalfReady(ca, cb, w, u);
      HalfRoundIff(ca, cb, b, w.a, w.savedA);
      var a :| HalfRound(ca, cb, b, w.a, w.savedA, a);
      assert Round(ca, cb, w, World(a, b, Saved(ca, w.savedA, a), u.savedB));
    }
  }

  // ---------------------------------------------------------------- a refused round is refused again

  /** The responder has served the list up to the deletion that it refuses; nothing has been saved. */
  ghost predicate Aborted(ca: Config, cb: Config, w: World, u: World)
    requires ca.chunkSize > 0 && cb.chunkSize > 0
  {
    && u.a == w.a && u.savedA == w.savedA && u.savedB == w.savedB
    && exists order, previousOrder, k :: StopsWith(ca, cb, w, order, previousOrder, k, u.b)
  }

  ghost predicate StopsWith(ca: Config, cb: Config, w: World, order: seq<string>, previousOrder: seq<string>, k: nat,
      b: Tree)
    requires ca.chunkSize > 0 && cb.chunkSize > 0
  {
    var requests := Requests(cb, w.b, w.savedB, Remote(ca, w.a), order, previousOrder);
    && Enumerates(order, Remote(ca, w.a).Keys) && AncestorsFirst(order)
    && Enumerates(previousOrder, w.savedB.Keys) && AncestorsFirst(previousOrder)
    && StopsAt(cb, Scan(ca, w.a), w.a, w.b, requests, k)
    && b == EffectAll(cb, Scan(ca, w.a), w.a, w.b, requests[..k])
  }

  /** It comes to that exactly when the first half is not clear. */
  lemma {:induction false} AbortedIff(ca: Config, cb: Config, w: World)
    requires Ready(ca, cb, w)
    ensures (exists u :: Aborted(ca, cb, w, u)) <==> !FirstClear(ca, cb, w)
  {
    if u :| Aborted(ca, cb, w, u) {
      var order, previousOrder, k :| StopsWith(ca, cb, w, order, previousOrder, k, u.b);
      StopIsNotClear(ca, cb, w, order, previousOrder, k, u.b);
    }
    if !FirstClear(ca, cb, w) {
      var u := NotClearStops(ca, cb, w);
    }
  }

  lemma {:induction false} StopIsNotClear(ca: Config, cb: Config, w: World, order: seq<string>,
      previousOrder: seq<string>, k: nat, b: Tree)
    requires Ready(ca, cb, w) && StopsWith(ca, cb, w, order, previousOrder, k, b)
    ensures !FirstClear(ca, cb, w)
  {
    var requests := Requests(cb, w.b, w.savedB, Remote(ca, w.a), order, previousOrder);
    ListServable(cb, ca, w.a, w.b, w.savedB, order, previousOrder);
    StoppedIsNotServable(cb, Scan(ca, w.a), w.a, w.b, requests, k);
  }

  lemma {:induction false} NotClearStops(ca: Config, cb: Config, w: World) returns (u: World)
    requires Ready(ca, cb, w) && !FirstClear(ca, cb, w)
    ensures Aborted(ca, cb, w, u)
  {
    var walk := Session.WalksExist();
    var order, previousOrder := walk(Remote(ca, w.a).Keys), walk(w.savedB.Keys);
    var requests := Requests(cb, w.b, w.savedB, Remote(ca, w.a), order, previousOrder);
    ListServable(cb, ca, w.a, w.b, w.savedB, order, previousOrder);
    var k := FirstBarred(cb, Scan(ca, w.a), w.a, w.b, requests);
    u := World(w.a, EffectAll(cb, Scan(ca, w.a), w.a, w.b, requests[..k]), w.savedA, w.savedB);
    assert StopsWith(ca, cb, w, order, previousOrder, k, u.b);
  }

  lemma {:induction false} StoppedIsNotServable(c: Config, m: Manifest, source: Tree, tree: Tree,
      requests: seq<NeedRequest>, k: nat)
    requires StopsAt(c, m, source, tree, requests, k)
    ensures !AllServable(c, m, source, tree, requests)
    decreases |requests|
  {
    if k == 0 {
      assert requests[..0] == [];
    } else {
      assert requests[..k][0] == requests[0] && requests[..k][1..] == requests[1..][..k - 1];
      StoppedIsNotServable(c, m, source, Effect(c, m, source, tree, requests[0]), requests[1..], k - 1);
    }
  }

  /** The refused request is a deletion, met after all fetches and after the deletions before it. */
  lemma {:induction false} StopsAmongDrops(c: Config, m: Manifest, source: Tree, tree: Tree, gets: seq<NeedRequest>,
      drops: seq<NeedRequest>, k: nat) returns (j: nat)
    requires StopsAt(c, m, source, tree, gets + drops, k) && AllServable(c, m, source, tree, gets)
    requires forall r :: r in gets ==> !r.deletePath
    ensures j < |drops| && k == |gets| + j && (gets + drops)[k] == drops[j]
    ensures EffectAll(c, m, source, tree, (gets + drops)[..k]) ==
            EffectAll(c, m, source, EffectAll(c, m, source, tree, gets), drops[..j])
  {
    assert forall i :: 0 <= i < |gets| ==> !gets[i].deletePath && (gets + drops)[i] == gets[i];
    j := k - |gets|;
    assert (gets + drops)[..k] == gets + drops[..j];
    EffectAllConcat(c, m, source, tree, gets, drops[..j]);
  }

  /** The tree at which the round stopped, with the requests in their two parts. */
  ghost predicate Halted(ca: Config, cb: Config, w: World, u: World, gets: seq<NeedRequest>, drops: seq<NeedRequest>,
      base: Tree, j: nat)
    requires ca.chunkSize > 0 && cb.chunkSize > 0
  {
    var m := Scan(ca, w.a);
    && u.a == w.a && u.savedA == w.savedA && u.savedB == w.savedB
    && Fetching(cb, ca, w.a, w.b, w.savedB, gets) && AllServable(cb, m, w.a, w.b, gets)
    && (forall p :: FetchesFrom(cb, ca, w.a, w.b, w.savedB, p) ==> exists r :: r in gets && r.path == p)
    && Dropping(cb, ca, w.a, w.b, w.savedB, drops) && DropsOrdered(drops)
    && (forall p :: DropsFor(cb, ca, w.a, w.b, w.savedB, p) ==> exists r :: r in drops && r.path == p)
    && base == EffectAll(cb, m, w.a, w.b, gets) && IsTree(base) && PlainDirectories(base)
    && j < |drops| && u.b == EffectAll(cb, m, w.a, base, drops[..j]) && Blocked(u.b, drops[j].path)
  }

  lemma {:induction false} AbortedHalts(ca: Config, cb: Config, w: World, u: World)
      returns (gets: seq<NeedRequest>, drops: seq<NeedRequest>, base: Tree, j: nat)
    requires Ready(ca, cb, w) && Aborted(ca, cb, w, u)
    ensures Halted(ca, cb, w, u, gets, drops, base, j)
  {
    var order, previousOrder, k :| StopsWith(ca, cb, w, order, previousOrder, k, u.b);
    gets, drops := TwoParts(cb, ca, w.a, w.b, w.savedB, order, previousOrder);
    NothingInTheWay(cb, ca, w.a, w.b, w.savedB, gets);
    GetsServable(cb, ca, w.a, w.b, w.savedB, w.b, gets);
    base := EffectAll(cb, Scan(ca, w.a), w.a, w.b, gets);
    j := StopsAmongDrops(cb, Scan(ca, w.a), w.a, w.b, gets, drops, k);
  }

  /** What is left at the stop: the fetched tree but for the deletions made so far. */
  lemma {:induction false} HaltedAt(ca: Config, cb: Config, w: World, u: World, gets: seq<NeedRequest>,
      drops: seq<NeedRequest>, base: Tree, j: nat, p: string)
    requires Ready(ca, cb, w) && Halted(ca, cb, w, u, gets, drops, base, j) && !Internal(p) && p in u.b
    ensures p in base && u.b[p] == base[p] && forall r :: r in drops[..j] ==> !Covers(r.path, p)
    ensures u.b[p].File? ==>
              FileAfter(cb, ca, w.a, w.b, w.savedB, p)
              && Some(u.b[p]) == R.Look(if FetchesFrom(cb, ca, w.a, w.b, w.savedB, p) then w.a else w.b, p)
    ensures p in w.a || p in w.b
  {
    DropsLeave(cb, Scan(ca, w.a), w.a, base, drops[..j], p);
    GetsFiles(cb, ca, w.a, w.b, w.savedB, gets, p);
    if p !in w.a && p !in w.b {
      GetsBring(cb, ca, w.a, w.b, w.savedB, gets, p);
    }
  }

  /** Where the initiator has a visible directory no file is left, and a visible file of both is the same. */
  lemma {:induction false} HaltedAgrees(ca: Config, cb: Config, w: World, u: World, gets: seq<NeedRequest>,
      drops: seq<NeedRequest>, base: Tree, j: nat, p: string)
    requires Ready(ca, cb, w) && Halted(ca, cb, w, u, gets, drops, base, j)
    requires Visible(ca, p) && p in w.a && p in u.b && u.b[p].File?
    ensures StateAt(u.b, p) == StateAt(w.a, p)
  {
    HaltedAt(ca, cb, w, u, gets, drops, base, j, p);
    SameVisible(ca, cb, p);
    FetchFormula(cb, ca, w.a, w.b, w.savedB, p);
  }

  lemma {:induction false} HaltedReady(ca: Config, cb: Config, w: World, u: World, gets: seq<NeedRequest>,
      drops: seq<NeedRequest>, base: Tree, j: nat)
    requires Ready(ca, cb, w) && Halted(ca, cb, w, u, gets, drops, base, j)
    ensures Ready(ca, cb, u)
  {
    assert Dropping(cb, ca, w.a, w.b, w.savedB, drops[..j]);
    DropsSound(cb, ca, w.a, w.b, w.savedB, base, drops[..j]);
    forall p | p in u.b && Visible(cb, p)
      ensures SafePath(p) && (u.b[p].File? ==> 0 < u.b[p].mtime < TWO_64 && |u.b[p].data| < TWO_64)
    {
      HaltedAt(ca, cb, w, u, gets, drops, base, j, p);
      SameVisible(ca, cb, p);
    }
    forall p | FetchesFrom(cb, ca, u.a, u.b, u.savedB, p) ensures DeltaSafeAt(cb, u.a, u.b, p) {
      FetchedIsVisible(cb, ca, u.a, u.b, u.savedB, p);
      FetchFormula(cb, ca, u.a, u.b, u.savedB, p);
      if p in u.b && u.b[p].File? {
        HaltedAgrees(ca, cb, w, u, gets, drops, base, j, p);
      }
    }
  }

  lemma {:induction false} HaltedBlocks(ca: Config, cb: Config, w: World, u: World, gets: seq<NeedRequest>,
      drops: seq<NeedRequest>, base: Tree, j: nat, q: string)
    requires Ready(ca, cb, w) && Ready(ca, cb, u) && Halted(ca, cb, w, u, gets, drops, base, j)
    requires Under(drops[j].path, q) && q in u.b && u.b[q].File?
    ensures Blocks(ca, cb, u, drops[j].path, q)
  {
    var p := drops[j].path;
    assert drops[j] in drops;
    DropServable(cb, ca, w.a, w.b, w.savedB, w.b, drops[j]);
    if p in Remote(ca, w.a) {
      VisibleAbove(ca, w.a, p, q);
      HaltedAgrees(ca, cb, w, u, gets, drops, base, j, q);
    }
    if Visible(ca, q) && q in w.a {
      HaltedAgrees(ca, cb, w, u, gets, drops, base, j, q);
    }
    if r :| Covers(r, q) && Deletes(ca, cb, u, r) {
      NotCondemned(ca, cb, w, u, gets, drops, base, j, q, r);
    }
  }

  lemma {:induction false} NotCondemned(ca: Config, cb: Config, w: World, u: World, gets: seq<NeedRequest>,
      drops: seq<NeedRequest>, base: Tree, j: nat, q: string, r: string)
    requires Ready(ca, cb, w) && Ready(ca, cb, u) && Halted(ca, cb, w, u, gets, drops, base, j)
    requires Under(drops[j].path, q) && q in u.b && u.b[q].File? && !Internal(q) && Covers(r, q)
    ensures !Deletes(ca, cb, u, r)
  {
    assert r in u.b;
    if r in Remote(ca, w.a) {
      SameVisible(ca, cb, r);
    } else if Deletes(ca, cb, u, r) {
      assert DropsFor(cb, ca, w.a, w.b, w.savedB, r);
      var x :| x in drops && x.path == r;
      EarlierCovers(drops, j, x, q);
      HaltedAt(ca, cb, w, u, gets, drops, base, j, q);
    }
  }

  /**
   * Nothing was saved, so the same deletion is decided again: without edits every later round
   * starts in a world that is obstructed too.
   */
  lemma {:induction false} StuckForGood(ca: Config, cb: Config, w: World, u: World)
    requires Ready(ca, cb, w) && Aborted(ca, cb, w, u)
    ensures Ready(ca, cb, u) && Obstructed(ca, cb, u) && !FirstClear(ca, cb, u)
  {
    var gets, drops, base, j := AbortedHalts(ca, cb, w, u);
    HaltedReady(ca, cb, w, u, gets, drops, base, j);
    var p := drops[j].path;
    var q :| q in Above(p) && q in u.b && u.b[q].File?;
    AboveIsUnder(p, q);
    HaltedBlocks(ca, cb, w, u, gets, drops, base, j, q);
    if IsFile(R.Look(u.a, q)) && !Visible(ca, q) {
      InvisibleStays(ca, cb, u, p, q);
    } else {
      MetByFirst(ca, cb, u, p, q);
    }
  }

  lemma {:induction false} InvisibleStays(ca: Config, cb: Config, u: World, p: string, q: string)
    requires Ready(ca, cb, u) && Blocks(ca, cb, u, p, q) && IsFile(R.Look(u.b, q)) && !Visible(ca, q)
    ensures !FirstClear(ca, cb, u)
  {
    SameVisible(ca, cb, q);
    if FetchesFrom(cb, ca, u.a, u.b, u.savedB, q) {
      FetchedIsVisible(cb, ca, u.a, u.b, u.savedB, q);
    }
    if BelowFetched(cb, ca, u.a, u.b, u.savedB, q) {
      var r :| Under(q, r) && FetchesFrom(cb, ca, u.a, u.b, u.savedB, r) && IsFile(R.Look(u.a, r));
      UnderTransitive(p, q, r);
      assert FileAfter(cb, ca, u.a, u.b, u.savedB, r);
      if Condemned(ca, cb, u, r) {
        CondemnedBelow(ca, cb, u, q, r);
      }
    } else {
      assert FileAfter(cb, ca, u.a, u.b, u.savedB, q);
    }
  }

  // ---------------------------------------------------------------- a directory that became a file

  /** The initiator has replaced the synchronised directory "d", which holds the file "d/y", by a file. */
  function ReplacedWorld(file: Node, inner: Node): World
    requires inner.File?
  {
    World(map["d" := file], map["d" := Dir, "d/y" := inner], SavedBefore(|inner.data|, inner.mtime),
          SavedBefore(|inner.data|, inner.mtime))
  }

  ghost predicate Storable(file: Node) {
    file.File? && 0 < file.mtime < TWO_64 && |file.data| < TWO_64
  }

  lemma {:induction false} ReplacedReady(ca: Config, cb: Config, file: Node, inner: Node)
    requires Aligned(ca, cb) && Aligned(cb, ca) && Storable(file) && Storable(inner)
    ensures Ready(ca, cb, ReplacedWorld(file, inner))
  {
    var w := ReplacedWorld(file, inner);
    ShortNames();
    UnderFileIsTree(file);
    NewFileProper(cb, inner.data, inner.mtime);
    forall p | p in w.savedA ensures PlainAbove(p) {
      forall q | Under(p, q) ensures !Internal(q) {
        OnlyUnderD(p, q);
      }
    }
    forall p | FetchesFrom(cb, ca, w.a, w.b, w.savedB, p) ensures DeltaSafeAt(cb, w.a, w.b, p) {
      FetchedIsVisible(cb, ca, w.a, w.b, w.savedB, p);
    }
  }

  lemma {:induction false} ReplacedVisible(c: Config)
    requires !c.excluded("d") && !c.excluded("d/y")
    ensures Visible(c, "d") && Visible(c, "d/y")
  {
    ShortNames();
  }

  lemma {:induction false} ReplacedDrops(ca: Config, cb: Config, file: Node, inner: Node)
    requires Aligned(ca, cb) && Aligned(cb, ca) && inner.File? && cb.syncDeletes
    requires Visible(cb, "d") && Visible(cb, "d/y")
    ensures Deletes(ca, cb, ReplacedWorld(file, inner), "d/y")
    ensures !Condemned(ca, cb, ReplacedWorld(file, inner), "d")
  {
    var w := ReplacedWorld(file, inner);
    assert "d" != "d/y";
    DropFormula(cb, ca, w.a, w.b, w.savedB, "d/y");
    DropFormula(cb, ca, w.a, w.b, w.savedB, "d");
    forall r | Covers(r, "d") ensures !Deletes(ca, cb, w, r) {
      NothingAboveD(r);
    }
  }

  /** Such a round is refused, although the world meets every other hypothesis. */
  lemma {:induction false} ReplacedIsRefused(ca: Config, cb: Config, file: Node, inner: Node)
    requires Aligned(ca, cb) && Aligned(cb, ca) && Storable(file) && Storable(inner)
    requires ca.syncDeletes && !ca.excluded("d") && !ca.excluded("d/y")
    ensures var w := ReplacedWorld(file, inner);
            && Ready(ca, cb, w) && Blocks(ca, cb, w, "d/y", "d") && !FirstClear(ca, cb, w)
            && !exists v :: Round(ca, cb, w, v)
  {
    ReplacedReady(ca, cb, file, inner);
    ReplacedVisible(ca);
    ReplacedVisible(cb);
    ReplacedDrops(ca, cb, file, inner);
    ReplacedStands(ca, file, inner);
    BlocksRefuse(ca, cb, ReplacedWorld(file, inner), "d/y", "d");
  }

  lemma {:induction false} ReplacedStands(c: Config, file: Node, inner: Node)
    requires file.File? && inner.File?
    ensures Under("d/y", "d") && Stands(c, ReplacedWorld(file, inner), "d")
  {
    PlacesOf();
  }

  lemma {:induction false} BlocksRefuse(ca: Config, cb: Config, w: World, p: string, q: string)
    requires Ready(ca, cb, w) && Blocks(ca, cb, w, p, q) && Visible(ca, q)
    ensures !FirstClear(ca, cb, w) && !exists v :: Round(ca, cb, w, v)
  {
    MetByFirst(ca, cb, w, p, q);
    RoundCompletes(ca, cb, w);
  }
}
