/** What a round can lose: inputs where a natural rule fails, each with the exact condition. */
module Losses {
  import opened Wrappers
  import opened Text
  import opened Delta
  import opened Protocol
  import opened NeedList
  import opened Files
  import opened Decision
  import opened Transfer
  import opened HalfRounds
  import opened Convergence
  import R = Receiver

  // ---------------------------------------------------------------- a path is not judged by itself

  /** The rule one would expect: what becomes of a path depends on that path alone. */
  ghost function OwnOutcome(c: Config, w: World, p: string): Option<FileState> {
    if Gone(c, w, p) then None
    else if p in w.a then Some(StateOf(w.a[p]))
    else if p in w.b then Some(StateOf(w.b[p]))
    else None
  }

  /** Something lives at the path, but a directory above it is deleted or is a file on the initiator. */
  ghost predicate SweptAway(c: Config, w: World, p: string) {
    && OwnOutcome(c, w, p).Some?
    && ((exists q :: Under(p, q) && Gone(c, w, q)) || (p !in w.a && FileAbove(w.a, p)))
  }

  /** The expected rule holds at a path exactly when nothing above sweeps it away. */
  lemma {:induction false} OwnRuleIff(ca: Config, cb: Config, w: World, v: World, p: string)
    requires Ready(ca, cb, w) && Round(ca, cb, w, v) && Visible(ca, p)
    ensures StateAt(v.b, p) == OwnOutcome(ca, w, p) <==> !SweptAway(ca, w, p)
    ensures StateAt(v.a, p) == OwnOutcome(ca, w, p) <==> !SweptAway(ca, w, p)
  {
    RoundAt(ca, cb, w, v, p);
    assert Covers(p, p);
    if q :| Covers(q, p) && Gone(ca, w, q) && q != p {
      assert Under(p, q);
    }
  }

  // ---------------------------------------------------------------- a new file in a deleted directory

  const DIRECTORY := FileState(true, 0, 0, "")

  /** The initiator has put a file into a directory that the responder has meanwhile deleted. */
  function NewFileWorld(data: seq<byte>, mtime: nat): World {
    World(map["d" := Dir, "d/y" := File(data, mtime)], map[], map["d" := DIRECTORY], map["d" := DIRECTORY])
  }

  lemma {:induction false} ShortIsPlain(p: string)
    requires |FileName(p)| < 10
    ensures !Internal(p)
  {
  }

  lemma {:induction false} NamesOf()
    ensures FileName("d") == "d" && FileName("d/y") == "y"
  {
    assert "d"[..0] == "" && "d/y"[..2] == "d/";
    assert FileName("d/") == "";
    assert FileName("") == "";
  }

  lemma {:induction false} SafeNames()
    ensures SafePath("d") && SafePath("d/y")
  {
  }

  lemma {:induction false} PlacesOf()
    ensures Under("d/y", "d") && Above("d") == {} && Above("d/y") == {"d"}
  {
    assert "d/y"[..1] == "d";
    AboveIsUnder("d/y", "d");
    assert forall i :: 0 <= i < 3 && "d/y"[i] == '/' ==> i == 1;
  }

  lemma {:induction false} ShortNames()
    ensures !Internal("d") && !Internal("d/y") && SafePath("d") && SafePath("d/y")
    ensures Under("d/y", "d") && Above("d") == {} && Above("d/y") == {"d"}
  {
    NamesOf();
    ShortIsPlain("d");
    ShortIsPlain("d/y");
    SafeNames();
    PlacesOf();
  }

  lemma {:induction false} OnlyUnderD(p: string, q: string)
    requires p in {"d", "d/y"} && Under(p, q)
    ensures p == "d/y" && q == "d"
  {
    assert "d/y"[..1] == "d";
  }

  lemma {:induction false} NothingAboveD(q: string)
    ensures !Under("d", q)
  {
  }

  lemma {:induction false} NewFileProper(c: Config, data: seq<byte>, mtime: nat)
    requires 0 < mtime < TWO_64 && |data| < TWO_64
    ensures Proper(c, NewFileWorld(data, mtime).a) && Proper(c, map[])
  {
    var a := NewFileWorld(data, mtime).a;
    ShortNames();
    forall p, q | p in a && Under(p, q) ensures q in a && a[q].Dir? {
      OnlyUnderD(p, q);
    }
  }

  /** The world meets every hypothesis of convergence. */
  lemma {:induction false} NewFileReady(ca: Config, cb: Config, data: seq<byte>, mtime: nat)
    requires Aligned(ca, cb) && Aligned(cb, ca) && 0 < mtime < TWO_64 && |data| < TWO_64
    ensures Ready(ca, cb, NewFileWorld(data, mtime))
  {
    NewFileProper(ca, data, mtime);
    NewFileProper(cb, data, mtime);
    ShortNames();
    assert PlainAbove("d") by {
      forall q ensures !Under("d", q) {
        NothingAboveD(q);
      }
    }
  }

  /** The new file is on neither peer after the round: only the directory's own history decided. */
  lemma {:induction false} NewFileLost(ca: Config, cb: Config, data: seq<byte>, mtime: nat, v: World)
    requires Aligned(ca, cb) && Aligned(cb, ca) && ca.syncDeletes && 0 < mtime < TWO_64 && |data| < TWO_64
    requires !ca.excluded("d") && !ca.excluded("d/y")
    requires Round(ca, cb, NewFileWorld(data, mtime), v)
    ensures OwnOutcome(ca, NewFileWorld(data, mtime), "d/y") == Some(FileState(false, |data|, mtime, ""))
    ensures "d/y" !in v.a && "d/y" !in v.b && "d" !in v.a && "d" !in v.b
  {
    var w := NewFileWorld(data, mtime);
    NewFileReady(ca, cb, data, mtime);
    ShortNames();
    NewFileRule(ca, data, mtime);
    RoundAt(ca, cb, w, v, "d");
    RoundAt(ca, cb, w, v, "d/y");
  }

  lemma {:induction false} NewFileRule(c: Config, data: seq<byte>, mtime: nat)
    requires c.syncDeletes
    ensures var w := NewFileWorld(data, mtime);
            && OwnOutcome(c, w, "d/y") == Some(FileState(false, |data|, mtime, ""))
            && Outcome(c, w, "d/y") == None && Outcome(c, w, "d") == None
  {
    var w := NewFileWorld(data, mtime);
    ShortNames();
    assert Gone(c, w, "d");
    assert Covers("d", "d") && Covers("d", "d/y");
  }

  // ---------------------------------------------------------------- a decided deletion may be refused

  /**
   * A deletion that `send_need` has decided is accepted when it comes back exactly if the include
   * filters accept the path as a file, even where it is a directory, and no file stands above it.
   */
  lemma {:induction false} DeleteAccepted(c: Config, s: R.State, local: Manifest, previous: Manifest, remote: Manifest,
      p: string)
    requires s.kind == R.Idle && SafePath(p) && Drops(c, local, previous, remote, p)
    ensures R.ApplyWords(c, s, ["DELETE", Quote(p)]) ==
            if c.wanted(p) && !Blocked(s.tree, p)
            then Ok(s.(tree := Without(s.tree, p), completed := s.completed + 1)) else Err
  {
    UnquoteQuote(p);
    DeleteDispatched(c, s, Quote(p));
  }

  lemma {:induction false} DeleteDispatched(c: Config, s: R.State, token: string)
    requires s.kind == R.Idle
    ensures var path := R.EntryPath(c, ["DELETE", token], false);
            R.ApplyWords(c, s, ["DELETE", token]) ==
            if path.Ok? && !Blocked(s.tree, path.value)
            then Ok(s.(tree := Without(s.tree, path.value), completed := s.completed + 1)) else Err
  {
  }

  /** It happens: the saved directory "d" is gone on the peer, and the include filters want no file of that name. */
  lemma {:induction false} DeleteRefused(c: Config, tree: Tree)
    requires c.syncDeletes && !c.excluded("d") && !c.wanted("d")
    ensures var saved: Manifest := map["d" := DIRECTORY];
            && Drops(c, Scan(c, tree), saved, map[], "d")
            && R.ApplyWords(c, R.Initial(tree), ["DELETE", Quote("d")]) == Err
  {
    ShortNames();
    var saved: Manifest := map["d" := DIRECTORY];
    DeleteAccepted(c, R.Initial(tree), Scan(c, tree), saved, map[], "d");
  }

  // ---------------------------------------------------------------- deleting what is already gone

  /**
   * A decided deletion of a path that is already gone changes nothing but the count, and is
   * accepted exactly if the path is wanted and no file stands above it.
   */
  lemma {:induction false} AbsentDelete(c: Config, s: R.State, local: Manifest, previous: Manifest, remote: Manifest,
      p: string)
    requires s.kind == R.Idle && SafePath(p) && Drops(c, local, previous, remote, p)
    requires IsTree(s.tree) && p !in s.tree
    ensures R.ApplyWords(c, s, ["DELETE", Quote(p)]) ==
            if c.wanted(p) && !Blocked(s.tree, p) then Ok(s.(completed := s.completed + 1)) else Err
  {
    DeleteAccepted(c, s, local, previous, remote, p);
    assert Without(s.tree, p) == s.tree;
  }

  /** What was saved when there was still a directory "d" with a file "y" in it. */
  function SavedBefore(size: nat, mtime: nat): Manifest {
    map["d" := DIRECTORY, "d/y" := FileState(false, size, mtime, "")]
  }

  /** Both peers have deleted the directory: its saved file is asked for again, without harm. */
  lemma {:induction false} GoneWithDirectory(c: Config, size: nat, mtime: nat)
    requires c.syncDeletes && !c.excluded("d/y") && c.wanted("d/y")
    ensures var s := R.Initial(map[]);
            && Drops(c, Scan(c, s.tree), SavedBefore(size, mtime), map[], "d/y")
            && R.ApplyWords(c, s, ["DELETE", Quote("d/y")]) == Ok(s.(completed := 1))
  {
    var s := R.Initial(map[]);
    ShortNames();
    AbsentDelete(c, s, Scan(c, s.tree), SavedBefore(size, mtime), map[], "d/y");
  }

  /** Both peers have replaced the directory by a file: the same deletion is refused. */
  lemma {:induction false} GoneUnderFile(c: Config, size: nat, mtime: nat, file: Node, remote: Manifest)
    requires c.syncDeletes && !c.excluded("d/y") && c.wanted("d/y") && file.File? && remote.Keys == {"d"}
    ensures var s := R.Initial(map["d" := file]);
            && Drops(c, Scan(c, s.tree), SavedBefore(size, mtime), remote, "d/y")
            && R.ApplyWords(c, s, ["DELETE", Quote("d/y")]) == Err
  {
    var s := R.Initial(map["d" := file]);
    ShortNames();
    UnderFileIsTree(file);
    assert "d/y" !in remote;
    assert Blocked(s.tree, "d/y") by {
      assert "d" in Above("d/y");
    }
    AbsentDelete(c, s, Scan(c, s.tree), SavedBefore(size, mtime), remote, "d/y");
  }

  lemma {:induction false} UnderFileIsTree(file: Node)
    ensures IsTree(map["d" := file])
  {
    forall q ensures !Under("d", q) {
      NothingAboveD(q);
    }
  }

  // ---------------------------------------------------------------- a round that is cut short

  /**
   * The responder has caught up and saved; then the connection is lost after the initiator has
   * applied the first `k` of the requests it decided, any number of them.
   */
  ghost predicate CutRound(ca: Config, cb: Config, w: World, u: World)
    requires ca.chunkSize > 0 && cb.chunkSize > 0
  {
    && FirstHalf(ca, cb, w, u) && u.savedA == w.savedA
    && exists order, previousOrder, k: nat :: CutAt(ca, cb, w, u, order, previousOrder, k)
  }

  ghost predicate CutAt(ca: Config, cb: Config, w: World, u: World, order: seq<string>, previousOrder: seq<string>,
      k: nat)
    requires ca.chunkSize > 0 && cb.chunkSize > 0
  {
    var requests := Requests(ca, w.a, w.savedA, Remote(cb, u.b), order, previousOrder);
    && Enumerates(order, Remote(cb, u.b).Keys) && AncestorsFirst(order) && Enumerates(previousOrder, w.savedA.Keys)
    && k <= |requests| && AllServable(ca, Scan(cb, u.b), u.b, w.a, requests[..k])
    && u.a == EffectAll(ca, Scan(cb, u.b), u.b, w.a, requests[..k])
  }

  /** What one of the decided requests makes of a path: the responder's entry, or nothing. */
  lemma {:induction false} SecondTouches(ca: Config, cb: Config, w: World, u: World, order: seq<string>,
      previousOrder: seq<string>, r: NeedRequest, p: string)
    requires Ready(ca, cb, w) && FirstHalf(ca, cb, w, u) && Proper(cb, u.b) && Visible(ca, p)
    requires Enumerates(order, Remote(cb, u.b).Keys) && AncestorsFirst(order)
    requires Enumerates(previousOrder, w.savedA.Keys)
    requires r in Requests(ca, w.a, w.savedA, Remote(cb, u.b), order, previousOrder)
    ensures Touches(ca, Scan(cb, u.b), u.b, r, p) in {Keeps, Becomes(R.Look(u.b, p)), Becomes(None)}
  {
    var gets, drops := TwoParts(ca, cb, u.b, w.a, w.savedA, order, previousOrder);
    if r in gets {
      FetchedIsVisible(ca, cb, u.b, w.a, w.savedA, r.path);
      if r.path == p {
        TargetIsSource(ca, cb, u.b, w.a, w.savedA, r);
      } else if p in u.b {
        FetchesApart(ca, cb, u.b, w.a, w.savedA, r, p);
      } else if Under(r.path, p) {
        VisibleAbove(cb, u.b, r.path, p);
      }
    } else {
      assert r in drops;
    }
  }

  /** If every touch leads to one of two values or to nothing, so do all of them. */
  lemma {:induction false} LastWithin(c: Config, m: Manifest, source: Tree, requests: seq<NeedRequest>, p: string,
      node: Option<Node>, first: Option<Node>, second: Option<Node>)
    requires forall r :: r in requests ==> Touches(c, m, source, r, p) in {Keeps, Becomes(second), Becomes(None)}
    requires node in {first, second, None}
    ensures Last(c, m, source, requests, p, node) in {first, second, None}
    decreases |requests|
  {
    if requests != [] {
      assert requests[0] in requests;
      LastWithin(c, m, source, requests[1..], p, Moved(Touches(c, m, source, requests[0], p), node), first, second);
    }
  }

  /** At the cut the initiator has its own entry, the responder's, or none. */
  lemma {:induction false} CutLook(ca: Config, cb: Config, w: World, u: World, p: string)
    requires Ready(ca, cb, w) && CutRound(ca, cb, w, u) && Proper(cb, u.b) && Visible(ca, p)
    ensures R.Look(u.a, p) in {R.Look(w.a, p), R.Look(u.b, p), None}
  {
    var order, previousOrder, k: nat :| CutAt(ca, cb, w, u, order, previousOrder, k);
    var requests := Requests(ca, w.a, w.savedA, Remote(cb, u.b), order, previousOrder);
    FinalAt(ca, Scan(cb, u.b), u.b, w.a, requests[..k], p);
    forall r | r in requests[..k]
      ensures Touches(ca, Scan(cb, u.b), u.b, r, p) in {Keeps, Becomes(R.Look(u.b, p)), Becomes(None)}
    {
      SecondTouches(ca, cb, w, u, order, previousOrder, r, p);
    }
    LastWithin(ca, Scan(cb, u.b), u.b, requests[..k], p, R.Look(w.a, p), R.Look(w.a, p), R.Look(u.b, p));
  }

  lemma {:induction false} EffectAllPlain(c: Config, cs: Config, source: Tree, tree: Tree, requests: seq<NeedRequest>)
    requires Proper(cs, source) && IsTree(tree) && PlainDirectories(tree)
    requires AllServable(c, Scan(cs, source), source, tree, requests)
    ensures IsTree(EffectAll(c, Scan(cs, source), source, tree, requests))
    ensures PlainDirectories(EffectAll(c, Scan(cs, source), source, tree, requests))
    decreases |requests|
  {
    if requests != [] {
      EffectKeepsTree(c, Scan(cs, source), source, tree, requests[0]);
      EffectIsPlain(c, cs, source, tree, requests[0]);
      EffectAllPlain(c, cs, source, Effect(c, Scan(cs, source), source, tree, requests[0]), requests[1..]);
    }
  }

  lemma {:induction false} CutIsTree(ca: Config, cb: Config, w: World, u: World)
    requires Ready(ca, cb, w) && CutRound(ca, cb, w, u) && Proper(cb, u.b)
    ensures IsTree(u.a) && PlainDirectories(u.a)
  {
    var order, previousOrder, k: nat :| CutAt(ca, cb, w, u, order, previousOrder, k);
    var requests := Requests(ca, w.a, w.savedA, Remote(cb, u.b), order, previousOrder);
    EffectAllPlain(ca, cb, u.b, w.a, requests[..k]);
  }

  lemma {:induction false} CutProper(ca: Config, cb: Config, w: World, u: World)
    requires Ready(ca, cb, w) && CutRound(ca, cb, w, u)
    ensures Proper(cb, u.b) && Proper(ca, u.a)
  {
    ResponderProper(ca, cb, w, u);
    CutIsTree(ca, cb, w, u);
    forall p | p in u.a && Visible(ca, p)
      ensures SafePath(p) && (u.a[p].File? ==> 0 < u.a[p].mtime < TWO_64 && |u.a[p].data| < TWO_64)
    {
      CutLook(ca, cb, w, u, p);
      SameVisible(ca, cb, p);
    }
  }

  lemma {:induction false} CutSavedProper(ca: Config, cb: Config, w: World, u: World)
    requires Ready(ca, cb, w) && CutRound(ca, cb, w, u)
    ensures ProperManifest(cb, u.savedB)
  {
    CutProper(ca, cb, w, u);
    forall p | p in u.savedB ensures SafePath(p) && PlainAbove(p) {
      if cb.syncDeletes {
        assert Visible(cb, p);
        ScannedPlainAbove(cb, u.b, p);
      }
    }
  }

  /** Where both still have an entry after the cut, it is the same one. */
  lemma {:induction false} CutAgrees(ca: Config, cb: Config, w: World, u: World, p: string)
    requires Ready(ca, cb, w) && CutRound(ca, cb, w, u) && Visible(ca, p) && p in u.a && p in u.b
    ensures StateAt(u.b, p) == StateAt(u.a, p)
  {
    CutProper(ca, cb, w, u);
    CutLook(ca, cb, w, u, p);
    FirstHalfAt(ca, cb, w, u, p);
  }

  lemma {:induction false} CutDeltaSafe(ca: Config, cb: Config, w: World, u: World)
    requires Ready(ca, cb, w) && CutRound(ca, cb, w, u)
    ensures DeltaSafe(cb, ca, u.a, u.b, u.savedB)
  {
    forall p | FetchesFrom(cb, ca, u.a, u.b, u.savedB, p) ensures DeltaSafeAt(cb, u.a, u.b, p) {
      FetchedIsVisible(cb, ca, u.a, u.b, u.savedB, p);
      FetchFormula(cb, ca, u.a, u.b, u.savedB, p);
      if p in u.b {
        CutAgrees(ca, cb, w, u, p);
      }
    }
  }

  /** What the responder has lies below no file of the initiator. */
  lemma {:induction false} CutNoFileAbove(ca: Config, cb: Config, w: World, u: World, p: string)
    requires Ready(ca, cb, w) && CutRound(ca, cb, w, u) && Visible(ca, p) && p in u.b
    ensures !FileAbove(u.a, p)
  {
    CutProper(ca, cb, w, u);
    SameVisible(ca, cb, p);
    forall q | Under(p, q) && q in u.a ensures !u.a[q].File? {
      VisibleAbove(cb, u.b, p, q);
      SameVisible(ca, cb, q);
      CutAgrees(ca, cb, w, u, q);
    }
  }

  /**
   * After a cut the next complete round deletes what only the responder has, new files included,
   * exactly when deletions are propagated: the responder's saved state already lists them.
   */
  lemma {:induction false} CutRoundLoses(ca: Config, cb: Config, w: World, u: World, v: World, p: string)
    requires Ready(ca, cb, w) && CutRound(ca, cb, w, u) && Round(ca, cb, u, v)
    requires Visible(ca, p) && p in u.b && p !in u.a
    ensures p in v.b <==> !ca.syncDeletes
  {
    SameVisible(ca, cb, p);
    CutProper(ca, cb, w, u);
    CutSavedProper(ca, cb, w, u);
    CutDeltaSafe(ca, cb, w, u);
    CutNoFileAbove(ca, cb, w, u, p);
    HalfRoundAt(cb, ca, u.a, u.b, u.savedB, v.b, p);
    FetchFormula(cb, ca, u.a, u.b, u.savedB, p);
    assert Covers(p, p);
    if ca.syncDeletes {
      DropFormula(cb, ca, u.a, u.b, u.savedB, p);
    }
  }

  /**
   * A new file of the responder is such an entry exactly if the initiator had not fetched it before
   * the cut; then it is lost although nobody deleted it.
   */
  lemma {:induction false} NewFileAtCut(ca: Config, cb: Config, w: World, u: World, order: seq<string>,
      previousOrder: seq<string>, k: nat, p: string)
    requires Ready(ca, cb, w) && FirstHalf(ca, cb, w, u) && CutAt(ca, cb, w, u, order, previousOrder, k)
    requires Visible(ca, p) && p in w.b && w.b[p].File? && p !in w.a && !SweptAway(ca, w, p) && !Gone(ca, w, p)
    ensures p in u.b
    ensures p in u.a <==>
            exists r :: r in Requests(ca, w.a, w.savedA, Remote(cb, u.b), order, previousOrder)[..k] && r.path == p
  {
    var m, requests := Scan(cb, u.b), Requests(ca, w.a, w.savedA, Remote(cb, u.b), order, previousOrder)[..k];
    NewFileKept(ca, cb, w, u, p);
    ResponderProper(ca, cb, w, u);
    FinalAt(ca, m, u.b, w.a, requests, p);
    forall r | r in requests
      ensures Touches(ca, m, u.b, r, p) == if r.path == p then Becomes(R.Look(u.b, p)) else Keeps
    {
      NewFileTouched(ca, cb, w, u, order, previousOrder, r, p);
    }
    if r :| r in requests && r.path == p {
      LastSettles(ca, m, u.b, requests, p, None, R.Look(u.b, p));
    } else {
      LastSettles(ca, m, u.b, requests, p, None, None);
    }
  }

  lemma {:induction false} NewFileKept(ca: Config, cb: Config, w: World, u: World, p: string)
    requires Ready(ca, cb, w) && FirstHalf(ca, cb, w, u) && Visible(ca, p)
    requires p in w.b && p !in w.a && !SweptAway(ca, w, p) && !Gone(ca, w, p)
    ensures R.Look(u.b, p) == R.Look(w.b, p)
  {
    SameVisible(ca, cb, p);
    HalfRoundAt(cb, ca, w.a, w.b, w.savedB, u.b, p);
    FirstHalfRule(ca, cb, w, p);
    assert Covers(p, p);
  }

  lemma {:induction false} NewFileTouched(ca: Config, cb: Config, w: World, u: World, order: seq<string>,
      previousOrder: seq<string>, r: NeedRequest, p: string)
    requires Ready(ca, cb, w) && FirstHalf(ca, cb, w, u) && Proper(cb, u.b) && Visible(ca, p)
    requires Enumerates(order, Remote(cb, u.b).Keys) && AncestorsFirst(order)
    requires Enumerates(previousOrder, w.savedA.Keys)
    requires r in Requests(ca, w.a, w.savedA, Remote(cb, u.b), order, previousOrder)
    requires p in u.b && u.b[p].File? && p !in w.a && !Gone(ca, w, p)
    ensures Touches(ca, Scan(cb, u.b), u.b, r, p) == if r.path == p then Becomes(R.Look(u.b, p)) else Keeps
  {
    var gets, drops := TwoParts(ca, cb, u.b, w.a, w.savedA, order, previousOrder);
    if r in gets {
      if r.path == p {
        TargetIsSource(ca, cb, u.b, w.a, w.savedA, r);
      } else {
        FetchesApart(ca, cb, u.b, w.a, w.savedA, r, p);
      }
    } else {
      assert r in drops;
      if Covers(r.path, p) {
        SameVisible(ca, cb, p);
        if r.path != p {
          VisibleAbove(cb, u.b, p, r.path);
        }
        SameVisible(ca, cb, r.path);
        SavedNotLeft(ca, cb, w, u, r.path);
      }
    }
  }
}
