/** Half a round between two peers: what is decided is served, and what becomes of every path. */
module HalfRounds {
  import opened Wrappers
  import opened Sequences
  import opened Text
  import opened Delta
  import opened Protocol
  import opened NeedList
  import opened Files
  import opened Decision
  import opened Refinement
  import opened Transfer
  import R = Receiver

  // ---------------------------------------------------------------- setting

  /** Both peers hash alike, filter alike and agree on propagating deletions. */
  ghost predicate SameView(c: Config, cs: Config) {
    && c.Valid() && cs.Valid() && c.h == cs.h && c.syncDeletes == cs.syncDeletes
    && forall p :: c.wanted(p) == cs.wanted(p) && c.excluded(p) == cs.excluded(p)
  }

  /** The same view, with no include-only filter. */
  ghost predicate Aligned(c: Config, cs: Config) {
    SameView(c, cs) && forall p :: c.wanted(p) && cs.wanted(p)
  }

  /** Neither internal nor excluded, and in no excluded directory. */
  predicate Visible(c: Config, p: string) {
    !Internal(p) && !c.excluded(p) && !Shadowed(c, p)
  }

  /** No directory bears an internal name. */
  ghost predicate PlainDirectories(tree: Tree) {
    forall p :: p in tree && Internal(p) ==> tree[p].File?
  }

  /** Visible names are safe and visible files have a proper size and a nonzero modification time. */
  ghost predicate Named(c: Config, tree: Tree) {
    forall p :: p in tree && Visible(c, p) ==>
      SafePath(p) && (tree[p].File? ==> 0 < tree[p].mtime < TWO_64 && |tree[p].data| < TWO_64)
  }

  ghost predicate Proper(c: Config, tree: Tree) {
    IsTree(tree) && PlainDirectories(tree) && Named(c, tree)
  }

  /** Safe names, in directories that bear no internal name. */
  ghost predicate ProperManifest(c: Config, m: Manifest) {
    forall p :: p in m ==> SafePath(p) && PlainAbove(p)
  }

  ghost predicate PlainAbove(p: string) {
    forall q :: Under(p, q) ==> !Internal(q)
  }

  lemma {:induction false} SameVisible(c: Config, cs: Config, p: string)
    requires SameView(c, cs)
    ensures Visible(c, p) == Visible(cs, p) && Shadowed(c, p) == Shadowed(cs, p)
  {
  }

  /** The directories that lead to a visible entry are visible. */
  lemma {:induction false} VisibleAbove(c: Config, tree: Tree, p: string, q: string)
    requires IsTree(tree) && PlainDirectories(tree) && p in tree && Visible(c, p) && Under(p, q)
    ensures q in tree && tree[q].Dir? && Visible(c, q)
  {
    AboveIsUnder(p, q);
    forall x | x in Above(q) ensures !c.excluded(x) {
      AboveIsUnder(q, x);
      UnderTransitive(p, q, x);
      AboveIsUnder(p, x);
    }
  }

  // ---------------------------------------------------------------- half a round

  function Remote(cs: Config, source: Tree): Manifest {
    ManifestOnWire(Scan(cs, source))
  }

  ghost predicate FetchesFrom(c: Config, cs: Config, source: Tree, tree: Tree, previous: Manifest, p: string) {
    Fetches(c, Scan(c, tree), previous, Remote(cs, source), p)
  }

  ghost predicate DropsFor(c: Config, cs: Config, source: Tree, tree: Tree, previous: Manifest, p: string) {
    Drops(c, Scan(c, tree), previous, Remote(cs, source), p)
  }

  /** The path or a directory above it is deleted. */
  ghost predicate Doomed(c: Config, cs: Config, source: Tree, tree: Tree, previous: Manifest, p: string) {
    exists r :: Covers(r, p) && DropsFor(c, cs, source, tree, previous, r)
  }

  /** A file stands where a directory would have to lead to the path. */
  ghost predicate FileAbove(tree: Tree, p: string) {
    exists q :: Under(p, q) && q in tree && tree[q].File?
  }

  /** No digest collision, and a basis whose block indices lead home, wherever a delta will be used. */
  ghost predicate DeltaSafe(c: Config, cs: Config, source: Tree, tree: Tree, previous: Manifest)
    requires c.chunkSize > 0
  {
    forall p :: FetchesFrom(c, cs, source, tree, previous, p) ==> DeltaSafeAt(c, source, tree, p)
  }

  ghost predicate DeltaSafeAt(c: Config, source: Tree, tree: Tree, p: string)
    requires c.chunkSize > 0
  {
    p in source && source[p].File? && p in tree && tree[p].File? ==>
      && |tree[p].data| < TWO_64 && WrapsHome(tree[p].data, c.chunkSize)
      && NoCollision(c.h, tree[p].data, source[p].data)
  }

  /**
   * The receiver accepts the decided requests, and this is its tree once they have been served;
   * directories are met before what they hold.
   */
  ghost predicate HalfRound(c: Config, cs: Config, source: Tree, tree: Tree, previous: Manifest, result: Tree)
    requires c.chunkSize > 0
  {
    exists order, previousOrder :: Carried(c, cs, source, tree, previous, order, previousOrder, result)
  }

  ghost predicate Carried(c: Config, cs: Config, source: Tree, tree: Tree, previous: Manifest, order: seq<string>,
      previousOrder: seq<string>, result: Tree)
    requires c.chunkSize > 0
  {
    && Enumerates(order, Remote(cs, source).Keys) && AncestorsFirst(order)
    && Enumerates(previousOrder, previous.Keys) && AncestorsFirst(previousOrder)
    && AllServable(c, Scan(cs, source), source, tree,
                   Requests(c, tree, previous, Remote(cs, source), order, previousOrder))
    && result == EffectAll(c, Scan(cs, source), source, tree,
                           Requests(c, tree, previous, Remote(cs, source), order, previousOrder))
  }

  // ---------------------------------------------------------------- the requests in parts

  /** The fetches of a half round: distinct, directories first, each with its basis. */
  ghost predicate Fetching(c: Config, cs: Config, source: Tree, tree: Tree, previous: Manifest, gets: seq<NeedRequest>)
    requires c.chunkSize > 0
  {
    && (forall r :: r in gets ==>
          && !r.deletePath && FetchesFrom(c, cs, source, tree, previous, r.path)
          && r.basis == BasisFor(c, tree, Remote(cs, source), r.path))
    && (forall i, j :: 0 <= i < j < |gets| ==> gets[i].path != gets[j].path && !Under(gets[i].path, gets[j].path))
  }

  ghost predicate Dropping(c: Config, cs: Config, source: Tree, tree: Tree, previous: Manifest,
      drops: seq<NeedRequest>)
  {
    forall r :: r in drops ==> r.deletePath && DropsFor(c, cs, source, tree, previous, r.path)
  }

  /** No deletion comes before one of a directory above it. */
  ghost predicate DropsOrdered(drops: seq<NeedRequest>) {
    forall i, j :: 0 <= i < j < |drops| ==> !Under(drops[i].path, drops[j].path)
  }

  /** The decided list is its fetches followed by its deletions, and nothing decided is missing. */
  lemma {:induction false} TwoParts(c: Config, cs: Config, source: Tree, tree: Tree, previous: Manifest,
      order: seq<string>, previousOrder: seq<string>)
      returns (gets: seq<NeedRequest>, drops: seq<NeedRequest>)
    requires c.chunkSize > 0 && Enumerates(order, Remote(cs, source).Keys) && AncestorsFirst(order)
    requires Enumerates(previousOrder, previous.Keys)
    ensures Requests(c, tree, previous, Remote(cs, source), order, previousOrder) == gets + drops
    ensures Aligned(c, cs) && Proper(cs, source) && AncestorsFirst(previousOrder) ==> DropsOrdered(drops)
    ensures Fetching(c, cs, source, tree, previous, gets) && Dropping(c, cs, source, tree, previous, drops)
    ensures forall p :: FetchesFrom(c, cs, source, tree, previous, p) ==> exists r :: r in gets && r.path == p
    ensures forall p :: DropsFor(c, cs, source, tree, previous, p) ==> exists r :: r in drops && r.path == p
  {
    var remote, local := Remote(cs, source), Scan(c, tree);
    gets := FetchRequests(c, tree, remote, Fetched(c, local, previous, remote, order));
    drops := DropRequests(Dropped(c, local, previous, remote, order, previousOrder));
    FetchPart(c, cs, source, tree, previous, order);
    DropPart(c, cs, source, tree, previous, order, previousOrder);
    if Aligned(c, cs) && Proper(cs, source) && AncestorsFirst(previousOrder) {
      DropOrder(c, cs, source, tree, previous, order, previousOrder);
    }
  }

  lemma {:induction false} FetchPart(c: Config, cs: Config, source: Tree, tree: Tree, previous: Manifest,
      order: seq<string>)
    requires c.chunkSize > 0 && Enumerates(order, Remote(cs, source).Keys) && AncestorsFirst(order)
    ensures var gets := FetchRequests(c, tree, Remote(cs, source),
                                        Fetched(c, Scan(c, tree), previous, Remote(cs, source), order));
            && Fetching(c, cs, source, tree, previous, gets)
            && forall p :: FetchesFrom(c, cs, source, tree, previous, p) ==> exists r :: r in gets && r.path == p
  {
    var remote, local := Remote(cs, source), Scan(c, tree);
    var fetched := Fetched(c, local, previous, remote, order);
    var gets := FetchRequests(c, tree, remote, fetched);
    FetchedMembers(c, local, previous, remote, order);
    FetchedInOrder(c, local, previous, remote, order);
    forall p | FetchesFrom(c, cs, source, tree, previous, p) ensures exists r :: r in gets && r.path == p {
      var i :| 0 <= i < |fetched| && fetched[i] == p;
      assert gets[i] in gets && gets[i].path == p;
    }
    forall r | r in gets
      ensures !r.deletePath && FetchesFrom(c, cs, source, tree, previous, r.path)
              && r.basis == BasisFor(c, tree, remote, r.path)
    {
      var i :| 0 <= i < |gets| && gets[i] == r;
      assert fetched[i] in fetched;
    }
  }

  lemma {:induction false} DropPart(c: Config, cs: Config, source: Tree, tree: Tree, previous: Manifest,
      order: seq<string>, previousOrder: seq<string>)
    requires c.chunkSize > 0 && Enumerates(order, Remote(cs, source).Keys) && Enumerates(previousOrder, previous.Keys)
    ensures var drops := DropRequests(Dropped(c, Scan(c, tree), previous, Remote(cs, source), order, previousOrder));
            && Dropping(c, cs, source, tree, previous, drops)
            && forall p :: DropsFor(c, cs, source, tree, previous, p) ==> exists r :: r in drops && r.path == p
  {
    var remote, local := Remote(cs, source), Scan(c, tree);
    var dropped := Dropped(c, local, previous, remote, order, previousOrder);
    var drops := DropRequests(dropped);
    DroppedMembers(c, local, previous, remote, order, previousOrder);
    forall p | DropsFor(c, cs, source, tree, previous, p) ensures exists r :: r in drops && r.path == p {
      var i :| 0 <= i < |dropped| && dropped[i] == p;
      assert drops[i] in drops && drops[i].path == p;
    }
    forall r | r in drops ensures r.deletePath && DropsFor(c, cs, source, tree, previous, r.path) {
      var i :| 0 <= i < |drops| && drops[i] == r;
      assert dropped[i] in dropped;
    }
  }

  /**
   * Deletions met in the peer's manifest come first; one found only in the saved state is never
   * above them, since what is above a listed entry is listed.
   */
  lemma {:induction false} DropOrder(c: Config, cs: Config, source: Tree, tree: Tree, previous: Manifest,
      order: seq<string>, previousOrder: seq<string>)
    requires Aligned(c, cs) && Proper(cs, source)
    requires Enumerates(order, Remote(cs, source).Keys) && AncestorsFirst(order)
    requires Enumerates(previousOrder, previous.Keys) && AncestorsFirst(previousOrder)
    ensures DropsOrdered(DropRequests(Dropped(c, Scan(c, tree), previous, Remote(cs, source), order, previousOrder)))
  {
    var remote, local := Remote(cs, source), Scan(c, tree);
    var first := Select(order, p => Drops(c, local, previous, remote, p));
    var second := Select(previousOrder, p => p !in remote && Drops(c, local, previous, remote, p));
    SelectInOrder(order, p => Drops(c, local, previous, remote, p));
    SelectInOrder(previousOrder, p => p !in remote && Drops(c, local, previous, remote, p));
    SelectMembers(order, p => Drops(c, local, previous, remote, p));
    SelectMembers(previousOrder, p => p !in remote && Drops(c, local, previous, remote, p));
    forall p, q | p in first && q in second ensures !Under(p, q) {
      if Under(p, q) {
        assert p in remote;
        VisibleAbove(cs, source, p, q);
      }
    }
    InOrderConcat(first, second);
  }

  lemma {:induction false} InOrderConcat(first: seq<string>, second: seq<string>)
    requires InOrder(first) && InOrder(second) && forall p, q :: p in first && q in second ==> !Under(p, q)
    ensures DropsOrdered(DropRequests(first + second))
  {
    var all := first + second;
    forall i, j | 0 <= i < j < |all| ensures !Under(all[i], all[j]) {
      if i < |first| && j >= |first| {
        assert all[i] in first && all[j] in second;
      } else if i >= |first| {
        assert all[i] == second[i - |first|] && all[j] == second[j - |first|];
      }
    }
  }

  // ---------------------------------------------------------------- every request can be served

  /** While fetches remain, each file that stands in the way is itself still to be fetched, and no basis has moved. */
  ghost predicate OnTheWay(c: Config, source: Tree, before: Tree, tree: Tree, rest: seq<NeedRequest>) {
    && IsTree(tree) && PlainDirectories(tree)
    && (forall q :: q in source && source[q].Dir? && Visible(c, q) && q in tree && tree[q].File? ==>
          exists r :: r in rest && r.path == q)
    && (forall r :: r in rest && r.basis.Some? ==> R.Look(tree, r.path) == R.Look(before, r.path))
  }

  lemma {:induction false} FetchedIsVisible(c: Config, cs: Config, source: Tree, tree: Tree, previous: Manifest,
      p: string)
    requires Aligned(c, cs) && FetchesFrom(c, cs, source, tree, previous, p)
    ensures p in source && Visible(c, p) && Visible(cs, p) && p in Scan(cs, source)
    ensures Remote(cs, source)[p].isDirectory == source[p].Dir?
  {
    SameVisible(c, cs, p);
  }

  /** No fetch touches the path of another one whose source is a file, except from above. */
  lemma {:induction false} FetchesApart(c: Config, cs: Config, source: Tree, tree: Tree, previous: Manifest,
      r: NeedRequest, p: string)
    requires Aligned(c, cs) && Proper(cs, source) && !r.deletePath && p != r.path
    requires FetchesFrom(c, cs, source, tree, previous, r.path) && p in source && Visible(c, p)
    ensures source[p].File? ==> Touches(c, Scan(cs, source), source, r, p) == Keeps
    ensures source[p].Dir? ==> Touches(c, Scan(cs, source), source, r, p) in {Keeps, Becomes(Some(Dir))}
  {
    FetchedIsVisible(c, cs, source, tree, previous, r.path);
    SameVisible(c, cs, p);
  }

  lemma {:induction false} NextServable(c: Config, cs: Config, source: Tree, before: Tree, previous: Manifest,
      tree: Tree, rest: seq<NeedRequest>)
    requires Aligned(c, cs) && Proper(cs, source) && DeltaSafe(c, cs, source, before, previous)
    requires rest != [] && Fetching(c, cs, source, before, previous, rest) && OnTheWay(c, source, before, tree, rest)
    ensures Servable(c, Scan(cs, source), source, tree, rest[0])
  {
    var r := rest[0];
    assert r in rest;
    FetchedIsVisible(c, cs, source, before, previous, r.path);
    NotBlocked(c, cs, source, before, previous, tree, rest);
    assert DeltaSafeAt(c, source, before, r.path);
    if source[r.path].File? {
      ConflictIsInternal(r.path, source[r.path].mtime);
    }
  }

  lemma {:induction false} NotBlocked(c: Config, cs: Config, source: Tree, before: Tree, previous: Manifest,
      tree: Tree, rest: seq<NeedRequest>)
    requires Aligned(c, cs) && Proper(cs, source)
    requires rest != [] && Fetching(c, cs, source, before, previous, rest) && OnTheWay(c, source, before, tree, rest)
    ensures !Blocked(tree, rest[0].path)
  {
    var p := rest[0].path;
    assert rest[0] in rest;
    FetchedIsVisible(c, cs, source, before, previous, p);
    forall q | q in Above(p) && q in tree ensures !tree[q].File? {
      AboveIsUnder(p, q);
      VisibleAbove(cs, source, p, q);
      SameVisible(c, cs, q);
    }
  }

  lemma {:induction false} EffectIsPlain(c: Config, cs: Config, source: Tree, tree: Tree, r: NeedRequest)
    requires Proper(cs, source) && PlainDirectories(tree)
    requires Servable(c, Scan(cs, source), source, tree, r)
    ensures PlainDirectories(Effect(c, Scan(cs, source), source, tree, r))
  {
    var after := Effect(c, Scan(cs, source), source, tree, r);
    forall p | p in after && Internal(p) ensures after[p].File? {
      AboveIsUnder(r.path, p);
    }
  }

  lemma {:induction false} StepOnTheWay(c: Config, cs: Config, source: Tree, before: Tree, previous: Manifest,
      tree: Tree, rest: seq<NeedRequest>)
    requires Aligned(c, cs) && Proper(cs, source)
    requires rest != [] && Fetching(c, cs, source, before, previous, rest) && OnTheWay(c, source, before, tree, rest)
    requires Servable(c, Scan(cs, source), source, tree, rest[0])
    ensures OnTheWay(c, source, before, Effect(c, Scan(cs, source), source, tree, rest[0]), rest[1..])
    ensures Fetching(c, cs, source, before, previous, rest[1..])
  {
    var m, r := Scan(cs, source), rest[0];
    assert r in rest;
    var next := Effect(c, m, source, tree, r);
    EffectKeepsTree(c, m, source, tree, r);
    EffectIsPlain(c, cs, source, tree, r);
    forall q | q in source && source[q].Dir? && Visible(c, q) && q in next && next[q].File?
      ensures exists x :: x in rest[1..] && x.path == q
    {
      ObstacleRemains(c, cs, source, before, previous, tree, r, q);
      var x :| x in rest && x.path == q;
      assert x in rest[1..];
    }
    forall x | x in rest[1..] && x.basis.Some? ensures R.Look(next, x.path) == R.Look(before, x.path) {
      assert x in rest && x.path != r.path;
      BasisRemains(c, cs, source, before, previous, tree, r, x);
    }
    FetchingTail(c, cs, source, before, previous, rest);
  }

  lemma {:induction false} FetchingTail(c: Config, cs: Config, source: Tree, tree: Tree, previous: Manifest,
      gets: seq<NeedRequest>)
    requires c.chunkSize > 0 && gets != [] && Fetching(c, cs, source, tree, previous, gets)
    ensures Fetching(c, cs, source, tree, previous, gets[1..])
  {
  }

  lemma {:induction false} ObstacleRemains(c: Config, cs: Config, source: Tree, before: Tree, previous: Manifest,
      tree: Tree, r: NeedRequest, q: string)
    requires Aligned(c, cs) && Proper(cs, source) && IsTree(tree)
    requires !r.deletePath && FetchesFrom(c, cs, source, before, previous, r.path)
    requires Servable(c, Scan(cs, source), source, tree, r)
    requires q in source && source[q].Dir? && Visible(c, q)
    requires R.Look(Effect(c, Scan(cs, source), source, tree, r), q).Some?
    requires R.Look(Effect(c, Scan(cs, source), source, tree, r), q).value.File?
    ensures q != r.path && q in tree && tree[q].File?
  {
    FetchedIsVisible(c, cs, source, before, previous, r.path);
    EffectTouches(c, Scan(cs, source), source, tree, r, q);
    if q != r.path {
      FetchesApart(c, cs, source, before, previous, r, q);
    }
  }

  lemma {:induction false} BasisRemains(c: Config, cs: Config, source: Tree, before: Tree, previous: Manifest,
      tree: Tree, r: NeedRequest, x: NeedRequest)
    requires Aligned(c, cs) && Proper(cs, source) && IsTree(tree)
    requires !r.deletePath && FetchesFrom(c, cs, source, before, previous, r.path)
    requires Servable(c, Scan(cs, source), source, tree, r)
    requires x.path != r.path && x.basis.Some? && x.basis == BasisFor(c, before, Remote(cs, source), x.path)
    requires FetchesFrom(c, cs, source, before, previous, x.path)
    ensures R.Look(Effect(c, Scan(cs, source), source, tree, r), x.path) == R.Look(tree, x.path)
  {
    FetchedIsVisible(c, cs, source, before, previous, x.path);
    FetchesApart(c, cs, source, before, previous, r, x.path);
    EffectTouches(c, Scan(cs, source), source, tree, r, x.path);
  }

  lemma {:induction false} GetsServable(c: Config, cs: Config, source: Tree, before: Tree, previous: Manifest,
      tree: Tree, rest: seq<NeedRequest>)
    requires Aligned(c, cs) && Proper(cs, source) && DeltaSafe(c, cs, source, before, previous)
    requires Fetching(c, cs, source, before, previous, rest) && OnTheWay(c, source, before, tree, rest)
    ensures AllServable(c, Scan(cs, source), source, tree, rest)
    ensures IsTree(EffectAll(c, Scan(cs, source), source, tree, rest))
    ensures PlainDirectories(EffectAll(c, Scan(cs, source), source, tree, rest))
    decreases |rest|
  {
    if rest != [] {
      NextServable(c, cs, source, before, previous, tree, rest);
      StepOnTheWay(c, cs, source, before, previous, tree, rest);
      GetsServable(c, cs, source, before, previous, Effect(c, Scan(cs, source), source, tree, rest[0]), rest[1..]);
    }
  }

  /** A decided deletion can be refused only because of a file above the path. */
  lemma {:induction false} DropServable(c: Config, cs: Config, source: Tree, tree: Tree, previous: Manifest,
      now: Tree, r: NeedRequest)
    requires Aligned(c, cs) && Proper(cs, source) && ProperManifest(c, previous)
    requires r.deletePath && DropsFor(c, cs, source, tree, previous, r.path)
    ensures if Blocked(now, r.path) then Barred(c, now, r) else Servable(c, Scan(cs, source), source, now, r)
    ensures PlainAbove(r.path)
  {
    SameVisible(c, cs, r.path);
    if r.path in Remote(cs, source) {
      forall q | Under(r.path, q) ensures !Internal(q) {
        VisibleAbove(cs, source, r.path, q);
      }
    }
  }

  lemma {:induction false} DropsSound(c: Config, cs: Config, source: Tree, tree: Tree, previous: Manifest,
      now: Tree, drops: seq<NeedRequest>)
    requires Aligned(c, cs) && Proper(cs, source) && ProperManifest(c, previous)
    requires Dropping(c, cs, source, tree, previous, drops) && IsTree(now) && PlainDirectories(now)
    ensures Sound(c, Scan(cs, source), source, now, drops)
    ensures IsTree(EffectAll(c, Scan(cs, source), source, now, drops))
    ensures PlainDirectories(EffectAll(c, Scan(cs, source), source, now, drops))
    decreases |drops|
  {
    if drops != [] {
      var r := drops[0];
      assert r in drops;
      DropServable(c, cs, source, tree, previous, now, r);
      WithoutKeepsTree(now, r.path);
      DropsSound(c, cs, source, tree, previous, Without(now, r.path), drops[1..]);
    }
  }

  /** What a list of deletions leaves. */
  lemma {:induction false} DropsLeave(c: Config, m: Manifest, source: Tree, now: Tree, drops: seq<NeedRequest>,
      q: string)
    requires forall r :: r in drops ==> r.deletePath
    ensures R.Look(EffectAll(c, m, source, now, drops), q) ==
            if exists r :: r in drops && Covers(r.path, q) then None else R.Look(now, q)
    decreases |drops|
  {
    if drops != [] {
      var r, rest := drops[0], drops[1..];
      assert r in drops;
      DropsLeave(c, m, source, Without(now, r.path), rest, q);
      DeleteTouches(now, r.path, q);
      assert forall x :: x in drops <==> x == r || x in rest;
    }
  }

  /** Every file above the path of deletion `j` goes with one of the deletions. */
  ghost predicate Freed(base: Tree, drops: seq<NeedRequest>, j: nat)
    requires j < |drops|
  {
    forall q :: Under(drops[j].path, q) && IsFile(R.Look(base, q)) ==> exists r :: r in drops && Covers(r.path, q)
  }

  lemma {:induction false} BlockedIff(c: Config, m: Manifest, source: Tree, base: Tree, drops: seq<NeedRequest>,
      k: nat)
    requires (forall r :: r in drops ==> r.deletePath) && DropsOrdered(drops) && k < |drops|
    ensures Blocked(EffectAll(c, m, source, base, drops[..k]), drops[k].path) <==> !Freed(base, drops, k)
  {
    var p, now := drops[k].path, EffectAll(c, m, source, base, drops[..k]);
    forall q | Under(p, q)
      ensures IsFile(R.Look(now, q)) <==> IsFile(R.Look(base, q)) && !exists r :: r in drops && Covers(r.path, q)
    {
      DropsLeave(c, m, source, base, drops[..k], q);
      if r :| r in drops && Covers(r.path, q) {
        EarlierCovers(drops, k, r, q);
      }
    }
    if Blocked(now, p) {
      var q :| q in Above(p) && q in now && now[q].File?;
      AboveIsUnder(p, q);
      assert IsFile(R.Look(now, q));
    }
    if !Freed(base, drops, k) {
      var q :| Under(p, q) && IsFile(R.Look(base, q)) && !exists r :: r in drops && Covers(r.path, q);
      AboveIsUnder(p, q);
      assert IsFile(R.Look(now, q));
    }
  }

  lemma {:induction false} EarlierCovers(drops: seq<NeedRequest>, k: nat, r: NeedRequest, q: string)
    requires DropsOrdered(drops) && k < |drops| && r in drops && Covers(r.path, q) && Under(drops[k].path, q)
    ensures r in drops[..k]
  {
    var i :| 0 <= i < |drops| && drops[i] == r;
    if q != r.path {
      UnderTransitive(drops[k].path, q, r.path);
    }
    assert Under(drops[k].path, drops[i].path);
    assert i < k;
    assert drops[..k][i] == r;
  }

  /** Deletions in order are all accepted exactly when every file above one goes with one of them. */
  lemma {:induction false} DropsIff(c: Config, cs: Config, source: Tree, tree: Tree, previous: Manifest, base: Tree,
      drops: seq<NeedRequest>, k: nat)
    requires Aligned(c, cs) && Proper(cs, source) && ProperManifest(c, previous)
    requires Dropping(c, cs, source, tree, previous, drops) && DropsOrdered(drops) && k <= |drops|
    ensures AllServable(c, Scan(cs, source), source, EffectAll(c, Scan(cs, source), source, base, drops[..k]),
                        drops[k..]) <==>
            forall j :: k <= j < |drops| ==> Freed(base, drops, j)
    decreases |drops| - k
  {
    if k < |drops| {
      var m, now := Scan(cs, source), EffectAll(c, Scan(cs, source), source, base, drops[..k]);
      assert drops[k] in drops;
      DropServable(c, cs, source, tree, previous, now, drops[k]);
      BlockedIff(c, m, source, base, drops, k);
      DropsIff(c, cs, source, tree, previous, base, drops, k + 1);
      OneMoreDrop(c, m, source, base, drops, k);
    }
  }

  lemma {:induction false} OneMoreDrop(c: Config, m: Manifest, source: Tree, base: Tree, drops: seq<NeedRequest>,
      k: nat)
    requires k < |drops|
    ensures var now := EffectAll(c, m, source, base, drops[..k]);
            && drops[k..][0] == drops[k] && drops[k..][1..] == drops[k + 1..]
            && EffectAll(c, m, source, base, drops[..k + 1]) == Effect(c, m, source, now, drops[k])
  {
    assert drops[..k + 1] == drops[..k] + [drops[k]];
    EffectAllConcat(c, m, source, base, drops[..k], [drops[k]]);
  }

  lemma {:induction false} NothingInTheWay(c: Config, cs: Config, source: Tree, tree: Tree, previous: Manifest,
      gets: seq<NeedRequest>)
    requires Aligned(c, cs) && Proper(cs, source) && Proper(c, tree)
    requires forall p :: FetchesFrom(c, cs, source, tree, previous, p) ==> exists r :: r in gets && r.path == p
    ensures OnTheWay(c, source, tree, tree, gets)
  {
    forall q | q in source && source[q].Dir? && Visible(c, q) && q in tree && tree[q].File?
      ensures exists r :: r in gets && r.path == q
    {
      FetchFormula(c, cs, source, tree, previous, q);
    }
  }

  lemma {:induction false} EffectAllConcat(c: Config, manifest: Manifest, source: Tree, tree: Tree,
      a: seq<NeedRequest>, b: seq<NeedRequest>)
    ensures EffectAll(c, manifest, source, tree, a + b)
         == EffectAll(c, manifest, source, EffectAll(c, manifest, source, tree, a), b)
    decreases |a|
  {
    if a == [] {
      EmptyConcat(b);
    } else {
      TailConcat(a, b);
      EffectAllConcat(c, manifest, source, Effect(c, manifest, source, tree, a[0]), a[1..], b);
    }
  }

  /**
   * A file stands at the path once everything has been fetched: a fetched one, or one that was
   * there and lies below no fetched file.
   */
  ghost predicate FileAfter(c: Config, cs: Config, source: Tree, tree: Tree, previous: Manifest, q: string) {
    if FetchesFrom(c, cs, source, tree, previous, q) then IsFile(R.Look(source, q))
    else IsFile(R.Look(tree, q)) && !BelowFetched(c, cs, source, tree, previous, q)
  }

  ghost predicate BelowFetched(c: Config, cs: Config, source: Tree, tree: Tree, previous: Manifest, q: string) {
    exists r :: Under(q, r) && FetchesFrom(c, cs, source, tree, previous, r) && IsFile(R.Look(source, r))
  }

  /** Nothing is to be deleted below a file, unless that file goes too. */
  ghost predicate Clear(c: Config, cs: Config, source: Tree, tree: Tree, previous: Manifest) {
    forall p, q ::
      DropsFor(c, cs, source, tree, previous, p) && Under(p, q) && FileAfter(c, cs, source, tree, previous, q) ==>
        Doomed(c, cs, source, tree, previous, q)
  }

  /** The fetches leave a file exactly where one is expected. */
  lemma {:induction false} GetsFiles(c: Config, cs: Config, source: Tree, tree: Tree, previous: Manifest,
      gets: seq<NeedRequest>, q: string)
    requires Aligned(c, cs) && Proper(cs, source) && Proper(c, tree) && !Internal(q)
    requires Fetching(c, cs, source, tree, previous, gets)
    requires forall p :: FetchesFrom(c, cs, source, tree, previous, p) ==> exists r :: r in gets && r.path == p
    requires AllServable(c, Scan(cs, source), source, tree, gets)
    ensures IsFile(R.Look(EffectAll(c, Scan(cs, source), source, tree, gets), q)) <==>
            FileAfter(c, cs, source, tree, previous, q)
    ensures IsFile(R.Look(EffectAll(c, Scan(cs, source), source, tree, gets), q)) ==>
              R.Look(EffectAll(c, Scan(cs, source), source, tree, gets), q) ==
              R.Look(if FetchesFrom(c, cs, source, tree, previous, q) then source else tree, q)
  {
    var m, node := Scan(cs, source), R.Look(tree, q);
    FinalAt(c, m, source, tree, gets, q);
    if FetchesFrom(c, cs, source, tree, previous, q) {
      var r :| r in gets && r.path == q;
      TargetIsSource(c, cs, source, tree, previous, r);
      FetchedIsVisible(c, cs, source, tree, previous, q);
      forall x | x in gets ensures Touches(c, m, source, x, q) in {Keeps, Becomes(R.Look(source, q))} {
        if x.path == q {
          TargetIsSource(c, cs, source, tree, previous, x);
        } else {
          FetchesApart(c, cs, source, tree, previous, x, q);
        }
      }
      LastSettles(c, m, source, gets, q, node, R.Look(source, q));
    } else if !IsFile(node) {
      NeverFileAgain(c, m, source, gets, q, node);
    } else {
      KeptFile(c, cs, source, tree, previous, gets, q);
    }
  }

  lemma {:induction false} KeptFile(c: Config, cs: Config, source: Tree, tree: Tree, previous: Manifest,
      gets: seq<NeedRequest>, q: string)
    requires Aligned(c, cs) && Proper(cs, source) && Proper(c, tree) && !Internal(q)
    requires Fetching(c, cs, source, tree, previous, gets)
    requires forall p :: FetchesFrom(c, cs, source, tree, previous, p) ==> exists r :: r in gets && r.path == p
    requires !FetchesFrom(c, cs, source, tree, previous, q) && IsFile(R.Look(tree, q))
    ensures Last(c, Scan(cs, source), source, gets, q, R.Look(tree, q)) ==
            if BelowFetched(c, cs, source, tree, previous, q) then None else R.Look(tree, q)
  {
    var m, node := Scan(cs, source), R.Look(tree, q);
    forall r | r in gets
      ensures Touches(c, m, source, r, q) ==
              if Under(q, r.path) && IsFile(R.Look(source, r.path)) then Becomes(None) else Keeps
    {
      FetchedIsVisible(c, cs, source, tree, previous, r.path);
      if Under(r.path, q) {
        VisibleAbove(cs, source, r.path, q);
        SameVisible(c, cs, q);
        FetchFormula(c, cs, source, tree, previous, q);
      }
    }
    if BelowFetched(c, cs, source, tree, previous, q) {
      var p :| Under(q, p) && FetchesFrom(c, cs, source, tree, previous, p) && IsFile(R.Look(source, p));
      var r :| r in gets && r.path == p;
      assert Touches(c, m, source, r, q) == Becomes(None);
      LastSettles(c, m, source, gets, q, node, None);
    } else {
      LastSettles(c, m, source, gets, q, node, node);
    }
  }

  /** Fetching brings only what the source has. */
  lemma {:induction false} GetsBring(c: Config, cs: Config, source: Tree, tree: Tree, previous: Manifest,
      gets: seq<NeedRequest>, p: string)
    requires Aligned(c, cs) && Proper(cs, source) && Proper(c, tree) && !Internal(p)
    requires Fetching(c, cs, source, tree, previous, gets) && AllServable(c, Scan(cs, source), source, tree, gets)
    requires p !in source && p !in tree
    ensures p !in EffectAll(c, Scan(cs, source), source, tree, gets)
  {
    var m := Scan(cs, source);
    FinalAt(c, m, source, tree, gets, p);
    forall r | r in gets ensures Touches(c, m, source, r, p) in {Keeps, Becomes(None)} {
      FetchedIsVisible(c, cs, source, tree, previous, r.path);
    }
    LastSettles(c, m, source, gets, p, None, None);
  }

  /**
   * The decided requests are all accepted, whatever is nested in what, if and only if nothing is to
   * be deleted below a file that stays; and they leave a tree.
   */
  lemma {:induction false} ListServable(c: Config, cs: Config, source: Tree, tree: Tree, previous: Manifest,
      order: seq<string>, previousOrder: seq<string>)
    requires Aligned(c, cs) && Proper(cs, source) && Proper(c, tree) && ProperManifest(c, previous)
    requires DeltaSafe(c, cs, source, tree, previous)
    requires Enumerates(order, Remote(cs, source).Keys) && AncestorsFirst(order)
    requires Enumerates(previousOrder, previous.Keys) && AncestorsFirst(previousOrder)
    ensures var requests := Requests(c, tree, previous, Remote(cs, source), order, previousOrder);
            var result := EffectAll(c, Scan(cs, source), source, tree, requests);
            && Sound(c, Scan(cs, source), source, tree, requests) && IsTree(result) && PlainDirectories(result)
            && (AllServable(c, Scan(cs, source), source, tree, requests) <==> Clear(c, cs, source, tree, previous))
  {
    var m := Scan(cs, source);
    var gets, drops := TwoParts(c, cs, source, tree, previous, order, previousOrder);
    NothingInTheWay(c, cs, source, tree, previous, gets);
    GetsServable(c, cs, source, tree, previous, tree, gets);
    var base := EffectAll(c, m, source, tree, gets);
    DropsSound(c, cs, source, tree, previous, base, drops);
    SoundConcat(c, m, source, tree, gets, drops);
    EffectAllConcat(c, m, source, tree, gets, drops);
    DropsClear(c, cs, source, tree, previous, gets, drops);
  }

  lemma {:induction false} DropsClear(c: Config, cs: Config, source: Tree, tree: Tree, previous: Manifest,
      gets: seq<NeedRequest>, drops: seq<NeedRequest>)
    requires Aligned(c, cs) && Proper(cs, source) && Proper(c, tree) && ProperManifest(c, previous)
    requires Fetching(c, cs, source, tree, previous, gets) && AllServable(c, Scan(cs, source), source, tree, gets)
    requires forall p :: FetchesFrom(c, cs, source, tree, previous, p) ==> exists r :: r in gets && r.path == p
    requires Dropping(c, cs, source, tree, previous, drops) && DropsOrdered(drops)
    requires forall p :: DropsFor(c, cs, source, tree, previous, p) ==> exists r :: r in drops && r.path == p
    ensures AllServable(c, Scan(cs, source), source, EffectAll(c, Scan(cs, source), source, tree, gets), drops) <==>
            Clear(c, cs, source, tree, previous)
  {
    var m := Scan(cs, source);
    var base := EffectAll(c, m, source, tree, gets);
    DropsIff(c, cs, source, tree, previous, base, drops, 0);
    assert drops[..0] == [] && drops[0..] == drops;
    forall p, q | DropsFor(c, cs, source, tree, previous, p) && Under(p, q)
      ensures IsFile(R.Look(base, q)) <==> FileAfter(c, cs, source, tree, previous, q)
    {
      DropServable(c, cs, source, tree, previous, base, NeedRequest(p, None, true));
      GetsFiles(c, cs, source, tree, previous, gets, q);
    }
    forall q ensures Doomed(c, cs, source, tree, previous, q) <==> exists r :: r in drops && Covers(r.path, q) {
      DoomedIff(c, cs, source, tree, previous, drops, q);
    }
    FreedIff(c, cs, source, tree, previous, base, drops);
  }

  lemma {:induction false} DoomedIff(c: Config, cs: Config, source: Tree, tree: Tree, previous: Manifest,
      drops: seq<NeedRequest>, q: string)
    requires Dropping(c, cs, source, tree, previous, drops)
    requires forall p :: DropsFor(c, cs, source, tree, previous, p) ==> exists r :: r in drops && r.path == p
    ensures Doomed(c, cs, source, tree, previous, q) <==> exists r :: r in drops && Covers(r.path, q)
  {
  }

  lemma {:induction false} FreedIff(c: Config, cs: Config, source: Tree, tree: Tree, previous: Manifest, base: Tree,
      drops: seq<NeedRequest>)
    requires Dropping(c, cs, source, tree, previous, drops)
    requires forall p :: DropsFor(c, cs, source, tree, previous, p) ==> exists r :: r in drops && r.path == p
    requires forall p, q :: DropsFor(c, cs, source, tree, previous, p) && Under(p, q) ==>
               (IsFile(R.Look(base, q)) <==> FileAfter(c, cs, source, tree, previous, q))
    requires forall q :: Doomed(c, cs, source, tree, previous, q) <==> exists r :: r in drops && Covers(r.path, q)
    ensures (forall j :: 0 <= j < |drops| ==> Freed(base, drops, j)) <==> Clear(c, cs, source, tree, previous)
  {
    if Clear(c, cs, source, tree, previous) {
      forall j | 0 <= j < |drops| ensures Freed(base, drops, j) {
        assert drops[j] in drops;
      }
    }
    if forall j :: 0 <= j < |drops| ==> Freed(base, drops, j) {
      forall p, q | DropsFor(c, cs, source, tree, previous, p) && Under(p, q)
                    && FileAfter(c, cs, source, tree, previous, q)
        ensures Doomed(c, cs, source, tree, previous, q)
      {
        var r :| r in drops && r.path == p;
        var j :| 0 <= j < |drops| && drops[j] == r;
        assert Freed(base, drops, j);
      }
    }
  }

  // ---------------------------------------------------------------- half a round, path by path

  function StateAt(tree: Tree, p: string): Option<FileState> {
    if p in tree then Some(StateOf(tree[p])) else None
  }

  lemma {:induction false} FetchFormula(c: Config, cs: Config, source: Tree, tree: Tree, previous: Manifest, p: string)
    requires Aligned(c, cs) && Visible(c, p)
    ensures FetchesFrom(c, cs, source, tree, previous, p) <==>
            && p in source && !(c.syncDeletes && p !in tree && Unchanged(previous, p, StateOf(source[p])))
            && StateAt(tree, p) != StateAt(source, p)
  {
    SameVisible(c, cs, p);
    assert p in Remote(cs, source) <==> p in source;
    assert p in Scan(c, tree) <==> p in tree;
  }

  lemma {:induction false} DropFormula(c: Config, cs: Config, source: Tree, tree: Tree, previous: Manifest, p: string)
    requires Aligned(c, cs) && Visible(c, p)
    ensures DropsFor(c, cs, source, tree, previous, p) <==>
            && c.syncDeletes
            && if p in source then p !in tree && Unchanged(previous, p, StateOf(source[p])) else p in previous
  {
    SameVisible(c, cs, p);
    assert p in Remote(cs, source) <==> p in source;
    assert p in Scan(c, tree) <==> p in tree;
  }

  /** What one half of a round does to a visible path. */
  ghost function AfterHalf(c: Config, cs: Config, source: Tree, tree: Tree, previous: Manifest,
      p: string)
    : Option<Node>
  {
    if Doomed(c, cs, source, tree, previous, p) then None
    else if FetchesFrom(c, cs, source, tree, previous, p) then R.Look(source, p)
    else if p !in source && FileAbove(source, p) then None
    else R.Look(tree, p)
  }

  lemma {:induction false} DropsSettle(c: Config, cs: Config, source: Tree, tree: Tree, previous: Manifest,
      drops: seq<NeedRequest>, p: string, node: Option<Node>)
    requires Dropping(c, cs, source, tree, previous, drops)
    requires forall q :: DropsFor(c, cs, source, tree, previous, q) ==> exists r :: r in drops && r.path == q
    ensures Last(c, Scan(cs, source), source, drops, p, node) ==
            if Doomed(c, cs, source, tree, previous, p) then None else node
  {
    if Doomed(c, cs, source, tree, previous, p) {
      var q :| Covers(q, p) && DropsFor(c, cs, source, tree, previous, q);
      var r :| r in drops && r.path == q;
      assert Touches(c, Scan(cs, source), source, r, p) == Becomes(None);
      LastSettles(c, Scan(cs, source), source, drops, p, node, None);
    } else {
      forall r | r in drops ensures Touches(c, Scan(cs, source), source, r, p) in {Keeps, Becomes(node)} {
        assert Covers(r.path, p) ==> DropsFor(c, cs, source, tree, previous, r.path);
      }
      LastSettles(c, Scan(cs, source), source, drops, p, node, node);
    }
  }

  /** A visible file of the source keeps its node in every wire representation. */
  lemma {:induction false} TargetIsSource(c: Config, cs: Config, source: Tree, tree: Tree, previous: Manifest,
      r: NeedRequest)
    requires Aligned(c, cs) && Proper(cs, source) && !r.deletePath
    requires FetchesFrom(c, cs, source, tree, previous, r.path)
    ensures Target(c, Scan(cs, source), source, r) == R.Look(source, r.path)
  {
    FetchedIsVisible(c, cs, source, tree, previous, r.path);
  }

  lemma {:induction false} GetsSettle(c: Config, cs: Config, source: Tree, tree: Tree, previous: Manifest,
      gets: seq<NeedRequest>, p: string)
    requires Aligned(c, cs) && Proper(cs, source) && Proper(c, tree) && Visible(c, p)
    requires Fetching(c, cs, source, tree, previous, gets)
    requires forall q :: FetchesFrom(c, cs, source, tree, previous, q) ==> exists r :: r in gets && r.path == q
    requires !DropsFor(c, cs, source, tree, previous, p)
    ensures Last(c, Scan(cs, source), source, gets, p, R.Look(tree, p)) ==
            if FetchesFrom(c, cs, source, tree, previous, p) then R.Look(source, p)
            else if p !in source && FileAbove(source, p) then None
            else R.Look(tree, p)
  {
    var m := Scan(cs, source);
    FetchFormula(c, cs, source, tree, previous, p);
    DropFormula(c, cs, source, tree, previous, p);
    if p in source {
      forall r | r in gets ensures Touches(c, m, source, r, p) in {Keeps, Becomes(R.Look(source, p))} {
        if r.path == p {
          TargetIsSource(c, cs, source, tree, previous, r);
        } else {
          FetchesApart(c, cs, source, tree, previous, r, p);
        }
      }
      PresentSettles(c, cs, source, tree, previous, gets, p);
    } else {
      AbsentSettles(c, cs, source, tree, previous, gets, p);
    }
  }

  lemma {:induction false} PresentSettles(c: Config, cs: Config, source: Tree, tree: Tree, previous: Manifest,
      gets: seq<NeedRequest>, p: string)
    requires Aligned(c, cs) && Proper(cs, source) && Visible(c, p) && p in source
    requires Fetching(c, cs, source, tree, previous, gets)
    requires forall q :: FetchesFrom(c, cs, source, tree, previous, q) ==> exists r :: r in gets && r.path == q
    requires forall r :: r in gets ==> Touches(c, Scan(cs, source), source, r, p) in {Keeps, Becomes(R.Look(source, p))}
    requires !FetchesFrom(c, cs, source, tree, previous, p) ==> StateAt(tree, p) == StateAt(source, p)
    ensures Last(c, Scan(cs, source), source, gets, p, R.Look(tree, p)) ==
            if FetchesFrom(c, cs, source, tree, previous, p) then R.Look(source, p) else R.Look(tree, p)
  {
    var m, there := Scan(cs, source), R.Look(source, p);
    if FetchesFrom(c, cs, source, tree, previous, p) {
      var r :| r in gets && r.path == p;
      TargetIsSource(c, cs, source, tree, previous, r);
      LastSettles(c, m, source, gets, p, R.Look(tree, p), there);
    } else {
      forall r | r in gets ensures Touches(c, m, source, r, p) in {Keeps, Becomes(R.Look(tree, p))} {
        assert r.path != p;
        FetchesApart(c, cs, source, tree, previous, r, p);
      }
      LastSettles(c, m, source, gets, p, R.Look(tree, p), R.Look(tree, p));
    }
  }

  lemma {:induction false} AbsentSettles(c: Config, cs: Config, source: Tree, tree: Tree, previous: Manifest,
      gets: seq<NeedRequest>, p: string)
    requires Aligned(c, cs) && Proper(cs, source) && Proper(c, tree) && Visible(c, p) && p !in source
    requires Fetching(c, cs, source, tree, previous, gets)
    requires forall q :: FetchesFrom(c, cs, source, tree, previous, q) ==> exists r :: r in gets && r.path == q
    ensures Last(c, Scan(cs, source), source, gets, p, R.Look(tree, p)) ==
            if FileAbove(source, p) then None else R.Look(tree, p)
  {
    var m := Scan(cs, source);
    forall r | r in gets
      ensures Touches(c, m, source, r, p) == (if Under(p, r.path) && source[r.path].File? then Becomes(None) else Keeps)
    {
      FetchedIsVisible(c, cs, source, tree, previous, r.path);
    }
    if !FileAbove(source, p) {
      forall r | r in gets ensures Touches(c, m, source, r, p) == Keeps {
        FetchedIsVisible(c, cs, source, tree, previous, r.path);
      }
      LastSettles(c, m, source, gets, p, R.Look(tree, p), R.Look(tree, p));
    } else {
      if p in tree {
        var q :| Under(p, q) && q in source && source[q].File?;
        VisibleAbove(c, tree, p, q);
        FetchFormula(c, cs, source, tree, previous, q);
        var r :| r in gets && r.path == q;
        assert Touches(c, m, source, r, p) == Becomes(None);
      }
      LastSettles(c, m, source, gets, p, R.Look(tree, p), None);
    }
  }

  /** Half a round, path by path: deletions take what lies below them, and so do files that replace directories. */
  lemma {:induction false} HalfRoundAt(c: Config, cs: Config, source: Tree, tree: Tree, previous: Manifest,
      result: Tree, p: string)
    requires Aligned(c, cs) && Proper(cs, source) && Proper(c, tree) && ProperManifest(c, previous)
    requires DeltaSafe(c, cs, source, tree, previous)
    requires HalfRound(c, cs, source, tree, previous, result) && Visible(c, p)
    ensures IsTree(result) && PlainDirectories(result)
    ensures R.Look(result, p) == AfterHalf(c, cs, source, tree, previous, p)
  {
    var order, previousOrder :| Carried(c, cs, source, tree, previous, order, previousOrder, result);
    var m, node := Scan(cs, source), R.Look(tree, p);
    ListServable(c, cs, source, tree, previous, order, previousOrder);
    var gets, drops := TwoParts(c, cs, source, tree, previous, order, previousOrder);
    FinalAt(c, m, source, tree, gets + drops, p);
    LastConcat(c, m, source, gets, drops, p, node);
    DropsSettle(c, cs, source, tree, previous, drops, p, Last(c, m, source, gets, p, node));
    if !Doomed(c, cs, source, tree, previous, p) {
      assert Covers(p, p);
      GetsSettle(c, cs, source, tree, previous, gets, p);
    }
  }
}
