/** `send_need`: which entries of the peer's manifest to fetch, and which paths to delete. */
module Decision {
  import opened Wrappers
  import opened Text
  import opened Delta
  import opened Protocol
  import opened NeedList
  import opened Files
  import opened Sequences

  // ---------------------------------------------------------------- the decision, path by path

  predicate Unchanged(previous: Manifest, p: string, entry: FileState) {
    p in previous && SameMetadata(previous[p], entry)
  }

  predicate Differs(local: Manifest, p: string, entry: FileState) {
    || p !in local || local[p].isDirectory != entry.isDirectory
    || (!entry.isDirectory && (local[p].size != entry.size || local[p].mtime != entry.mtime))
  }

  /** Deleted here since the last round while the peer did not touch it. */
  predicate DeletedHere(c: Config, local: Manifest, previous: Manifest, p: string, entry: FileState) {
    c.syncDeletes && p !in local && Unchanged(previous, p, entry)
  }

  predicate Fetches(c: Config, local: Manifest, previous: Manifest, remote: Manifest, p: string) {
    && p in remote && Included(c, p, remote[p].isDirectory)
    && !DeletedHere(c, local, previous, p, remote[p]) && Differs(local, p, remote[p])
  }

  predicate Drops(c: Config, local: Manifest, previous: Manifest, remote: Manifest, p: string) {
    if p in remote then
      Included(c, p, remote[p].isDirectory) && DeletedHere(c, local, previous, p, remote[p])
    else c.syncDeletes && p in previous && Included(c, p, previous[p].isDirectory)
  }

  // ---------------------------------------------------------------- the request list

  function Select(order: seq<string>, keep: string -> bool): seq<string> {
    if order == [] then []
    else (if keep(order[0]) then [order[0]] else []) + Select(order[1..], keep)
  }

  function Fetched(c: Config, local: Manifest, previous: Manifest, remote: Manifest, order: seq<string>): seq<string> {
    Select(order, p => Fetches(c, local, previous, remote, p))
  }

  /** First the deletions met while walking the peer's manifest, then those found in the saved state. */
  function Dropped(c: Config, local: Manifest, previous: Manifest, remote: Manifest, order: seq<string>,
      previousOrder: seq<string>): seq<string> {
    Select(order, p => Drops(c, local, previous, remote, p))
    + Select(previousOrder, p => p !in remote && Drops(c, local, previous, remote, p))
  }

  /** A delta basis is offered for a file that is here and is a file on both sides. */
  function BasisFor(c: Config, tree: Tree, remote: Manifest, p: string): Option<FileSignature>
    requires c.chunkSize > 0
  {
    if p in Scan(c, tree) && tree[p].File? && p in remote && !remote[p].isDirectory
    then Some(Signature(c.h, tree[p].data, c.chunkSize)) else None
  }

  function FetchRequests(c: Config, tree: Tree, remote: Manifest, paths: seq<string>): seq<NeedRequest>
    requires c.chunkSize > 0
  {
    seq(|paths|, i requires 0 <= i < |paths| => NeedRequest(paths[i], BasisFor(c, tree, remote, paths[i]), false))
  }

  function DropRequests(paths: seq<string>): seq<NeedRequest> {
    seq(|paths|, i requires 0 <= i < |paths| => NeedRequest(paths[i], None, true))
  }

  function Requests(c: Config, tree: Tree, previous: Manifest, remote: Manifest, order: seq<string>,
      previousOrder: seq<string>): seq<NeedRequest>
    requires c.chunkSize > 0
  {
    var local := Scan(c, tree);
    FetchRequests(c, tree, remote, Fetched(c, local, previous, remote, order))
    + DropRequests(Dropped(c, local, previous, remote, order, previousOrder))
  }

  // ---------------------------------------------------------------- what the list contains

  ghost predicate Distinct(paths: seq<string>) {
    forall i, j :: 0 <= i < j < |paths| ==> paths[i] != paths[j]
  }

  lemma {:induction false} SelectMembers(order: seq<string>, keep: string -> bool)
    ensures forall p :: p in Select(order, keep) <==> p in order && keep(p)
    ensures Distinct(order) ==> Distinct(Select(order, keep))
    ensures |Select(order, keep)| <= |order|
  {
    if order != [] {
      SelectMembers(order[1..], keep);
      assert order == [order[0]] + order[1..];
      assert Distinct(order) ==> order[0] !in order[1..];
    }
  }

  /** Distinct, and none below a later one. */
  ghost predicate InOrder(paths: seq<string>) {
    forall i, j :: 0 <= i < j < |paths| ==> paths[i] != paths[j] && !Under(paths[i], paths[j])
  }

  lemma {:induction false} SelectInOrder(order: seq<string>, keep: string -> bool)
    requires AncestorsFirst(order) && Distinct(order)
    ensures InOrder(Select(order, keep))
  {
    if order != [] {
      var rest := order[1..];
      assert AncestorsFirst(rest) by {
        forall i, j | 0 <= i < |rest| && 0 <= j < |rest| && Under(rest[j], rest[i]) ensures i < j {
          assert Under(order[j + 1], order[i + 1]);
        }
      }
      SelectInOrder(rest, keep);
      SelectMembers(rest, keep);
      forall p | p in Select(rest, keep) ensures p != order[0] && !Under(order[0], p) {
        var k :| 0 <= k < |rest| && rest[k] == p;
        assert order[k + 1] == p;
      }
    }
  }

  lemma {:induction false} FetchedInOrder(c: Config, local: Manifest, previous: Manifest, remote: Manifest,
      order: seq<string>)
    requires AncestorsFirst(order) && Distinct(order)
    ensures InOrder(Fetched(c, local, previous, remote, order))
  {
    SelectInOrder(order, p => Fetches(c, local, previous, remote, p));
  }

  lemma {:induction false} DistinctConcat(a: seq<string>, b: seq<string>)
    requires Distinct(a) && Distinct(b) && forall p :: p in a ==> p !in b
    ensures Distinct(a + b)
  {
    forall i, j | 0 <= i < j < |a + b| ensures (a + b)[i] != (a + b)[j] {
      assert i < |a| ==> (a + b)[i] in a;
      assert j >= |a| ==> (a + b)[j] in b;
    }
  }

  lemma {:induction false} DroppedMembers(c: Config, local: Manifest, previous: Manifest, remote: Manifest,
      order: seq<string>, previousOrder: seq<string>)
    requires Enumerates(order, remote.Keys) && Enumerates(previousOrder, previous.Keys)
    ensures var paths := Dropped(c, local, previous, remote, order, previousOrder);
            Distinct(paths) && forall p :: p in paths <==> Drops(c, local, previous, remote, p)
  {
    var first := Select(order, p => Drops(c, local, previous, remote, p));
    var second := Select(previousOrder, p => p !in remote && Drops(c, local, previous, remote, p));
    SelectMembers(order, p => Drops(c, local, previous, remote, p));
    SelectMembers(previousOrder, p => p !in remote && Drops(c, local, previous, remote, p));
    DistinctConcat(first, second);
  }

  lemma {:induction false} FetchedMembers(c: Config, local: Manifest, previous: Manifest, remote: Manifest,
      order: seq<string>)
    requires Enumerates(order, remote.Keys)
    ensures var paths := Fetched(c, local, previous, remote, order);
            Distinct(paths) && forall p :: p in paths <==> Fetches(c, local, previous, remote, p)
  {
    SelectMembers(order, p => Fetches(c, local, previous, remote, p));
  }

  /** A fetch of this path, with this basis, is in the list. */
  ghost predicate HasFetch(requests: seq<NeedRequest>, p: string, basis: Option<FileSignature>) {
    NeedRequest(p, basis, false) in requests
  }

  ghost predicate HasDrop(requests: seq<NeedRequest>, p: string) {
    NeedRequest(p, None, true) in requests
  }

  /**
   * The list is exactly the decision: one request per path fetched, one per path dropped,
   * no path twice, and none both fetched and dropped.
   */
  lemma {:induction false} RequestsExact(c: Config, tree: Tree, previous: Manifest, remote: Manifest,
      order: seq<string>, previousOrder: seq<string>)
    requires c.chunkSize > 0 && Enumerates(order, remote.Keys) && Enumerates(previousOrder, previous.Keys)
    ensures var requests := Requests(c, tree, previous, remote, order, previousOrder);
            var local := Scan(c, tree);
            && DistinctPaths(requests)
            && (forall r :: r in requests ==>
                  if r.deletePath then r.basis == None && Drops(c, local, previous, remote, r.path)
                  else r.basis == BasisFor(c, tree, remote, r.path) && Fetches(c, local, previous, remote, r.path))
            && (forall p :: Fetches(c, local, previous, remote, p) ==>
                  HasFetch(requests, p, BasisFor(c, tree, remote, p)))
            && (forall p :: Drops(c, local, previous, remote, p) ==> HasDrop(requests, p))
  {
    var local := Scan(c, tree);
    var gets := Fetched(c, local, previous, remote, order);
    var drops := Dropped(c, local, previous, remote, order, previousOrder);
    FetchedMembers(c, local, previous, remote, order);
    DroppedMembers(c, local, previous, remote, order, previousOrder);
    ListExact(c, tree, remote, gets, drops);
  }

  lemma {:induction false} ListExact(c: Config, tree: Tree, remote: Manifest, gets: seq<string>, drops: seq<string>)
    requires c.chunkSize > 0 && Distinct(gets) && Distinct(drops) && forall p :: p in gets ==> p !in drops
    ensures var requests := FetchRequests(c, tree, remote, gets) + DropRequests(drops);
            && DistinctPaths(requests)
            && (forall r :: r in requests ==>
                  if r.deletePath then r.basis == None && r.path in drops
                  else r.basis == BasisFor(c, tree, remote, r.path) && r.path in gets)
            && (forall p :: p in gets ==> HasFetch(requests, p, BasisFor(c, tree, remote, p)))
            && (forall p :: p in drops ==> HasDrop(requests, p))
  {
    var fetch, drop := FetchRequests(c, tree, remote, gets), DropRequests(drops);
    var requests := fetch + drop;
    forall p | p in gets ensures HasFetch(requests, p, BasisFor(c, tree, remote, p)) {
      var i :| 0 <= i < |gets| && gets[i] == p;
      assert requests[i] == NeedRequest(p, BasisFor(c, tree, remote, p), false);
    }
    forall p | p in drops ensures HasDrop(requests, p) {
      var i :| 0 <= i < |drops| && drops[i] == p;
      assert requests[|fetch| + i] == NeedRequest(p, None, true);
    }
    forall i, j | 0 <= i < j < |requests| ensures requests[i].path != requests[j].path {
      assert i < |gets| ==> requests[i].path == gets[i] && gets[i] in gets;
      assert i >= |gets| ==> requests[i].path == drops[i - |gets|];
      assert j < |gets| ==> requests[j].path == gets[j];
      assert j >= |gets| ==> requests[j].path == drops[j - |gets|] && drops[j - |gets|] in drops;
    }
  }

  // ---------------------------------------------------------------- on the wire

  function BeginLine(count: nat): string {
    Join(["NEED_BEGIN", Decimal(count)])
  }

  /** The lines that `send_need` writes for a request list. */
  function NeedMessage(requests: seq<NeedRequest>): seq<string> {
    [BeginLine(|requests|)] + NeedLines(requests) + ["NEED_END"]
  }

  /** Walks the manifests and the saved state in their map orders and writes the need list. */
  method SendNeed(c: Config, tree: Tree, previous: Manifest, remote: Manifest, order: seq<string>,
      previousOrder: seq<string>)
    returns (out: string)
    requires c.chunkSize > 0 && Enumerates(order, remote.Keys) && Enumerates(previousOrder, previous.Keys)
    ensures out == Wire(NeedMessage(Requests(c, tree, previous, remote, order, previousOrder)))
  {
    var local := Scan(c, tree);
    var gets, drops := Decide(c, local, previous, remote, order, previousOrder);
    out := BeginLine(|gets| + |drops|) + "\n";
    var first := WriteFetches(c, tree, remote, gets);
    var second := WriteDrops(drops);
    out := out + first + second + "NEED_END\n";
    MessageWire(FetchRequests(c, tree, remote, gets), DropRequests(drops));
  }

  lemma {:induction false} MessageWire(a: seq<NeedRequest>, b: seq<NeedRequest>)
    ensures Wire(NeedMessage(a + b)) ==
            BeginLine(|a| + |b|) + "\n" + Wire(NeedLines(a)) + Wire(NeedLines(b)) + "NEED_END\n"
  {
    NeedLinesAppend(a, b);
    FramedWire(BeginLine(|a| + |b|), NeedLines(a), NeedLines(b), "NEED_END");
    assert "NEED_END" + "\n" == "NEED_END\n";
  }

  lemma {:induction false} FramedWire(head: string, a: seq<string>, b: seq<string>, last: string)
    ensures Wire([head] + (a + b) + [last]) == head + "\n" + Wire(a) + Wire(b) + (last + "\n")
  {
    WireSnoc([head] + (a + b), last);
    WireAppend([head], a + b);
    WireAppend(a, b);
    WireOne(head);
    Regroup(head + "\n", Wire(a), Wire(b), last);
  }

  lemma {:induction false} WireOne(line: string)
    ensures Wire([line]) == line + "\n"
  {
    WireSnoc([], line);
    EmptyConcat([line]);
    EmptyConcat(line);
  }

  lemma {:induction false} Regroup(a: string, b: string, c: string, d: string)
    ensures a + (b + c) + d + "\n" == a + b + c + (d + "\n")
  {
  }

  method WriteFetches(c: Config, tree: Tree, remote: Manifest, gets: seq<string>) returns (out: string)
    requires c.chunkSize > 0
    ensures out == Wire(NeedLines(FetchRequests(c, tree, remote, gets)))
  {
    out := "";
    for i := 0 to |gets|
      invariant out == Wire(NeedLines(FetchRequests(c, tree, remote, gets[..i])))
    {
      var request := NeedRequest(gets[i], BasisFor(c, tree, remote, gets[i]), false);
      out := out + Wire(RequestLines(request));
      OneMoreRequest(FetchRequests(c, tree, remote, gets[..i]), request);
      FetchOneMore(c, tree, remote, gets, i);
    }
    PrefixAll(gets);
  }

  lemma {:induction false} FetchOneMore(c: Config, tree: Tree, remote: Manifest, gets: seq<string>, i: nat)
    requires c.chunkSize > 0 && i < |gets|
    ensures FetchRequests(c, tree, remote, gets[..i + 1]) ==
            FetchRequests(c, tree, remote, gets[..i])
            + [NeedRequest(gets[i], BasisFor(c, tree, remote, gets[i]), false)]
  {
  }

  method WriteDrops(drops: seq<string>) returns (out: string)
    ensures out == Wire(NeedLines(DropRequests(drops)))
  {
    out := "";
    for i := 0 to |drops|
      invariant out == Wire(NeedLines(DropRequests(drops[..i])))
    {
      var request := NeedRequest(drops[i], None, true);
      out := out + Wire(RequestLines(request));
      OneMoreRequest(DropRequests(drops[..i]), request);
      assert DropRequests(drops[..i + 1]) == DropRequests(drops[..i]) + [request];
    }
    PrefixAll(drops);
  }

  lemma {:induction false} OneMoreRequest(written: seq<NeedRequest>, r: NeedRequest)
    ensures Wire(NeedLines(written + [r])) == Wire(NeedLines(written)) + Wire(RequestLines(r))
  {
    NeedLinesAppend(written, [r]);
    EmptyConcat(RequestLines(r));
    WireAppend(NeedLines(written), NeedLines([r]));
  }

  lemma {:induction false} NeedLinesAppend(a: seq<NeedRequest>, b: seq<NeedRequest>)
    ensures NeedLines(a + b) == NeedLines(a) + NeedLines(b)
  {
    if a == [] {
      EmptyConcat(b);
      EmptyConcat(NeedLines(b));
    } else {
      NeedLinesAppend(a[1..], b);
      TailConcat(a, b);
      Associate(RequestLines(a[0]), NeedLines(a[1..]), NeedLines(b));
    }
  }

  method Decide(c: Config, local: Manifest, previous: Manifest, remote: Manifest, order: seq<string>,
      previousOrder: seq<string>)
    returns (gets: seq<string>, drops: seq<string>)
    requires Enumerates(order, remote.Keys) && Enumerates(previousOrder, previous.Keys)
    ensures gets == Fetched(c, local, previous, remote, order)
    ensures drops == Dropped(c, local, previous, remote, order, previousOrder)
  {
    gets, drops := [], [];
    ghost var fetch := p => Fetches(c, local, previous, remote, p);
    ghost var drop := p => Drops(c, local, previous, remote, p);
    for i := 0 to |order|
      invariant gets == Select(order[..i], fetch) && drops == Select(order[..i], drop)
    {
      var p := order[i];
      SelectAppend(order[..i], p, fetch);
      SelectAppend(order[..i], p, drop);
      PrefixSnoc(order, i);
      var entry := remote[p];
      if !Included(c, p, entry.isDirectory) {
        continue;
      }
      var remoteUnchanged := p in previous && SameMetadata(previous[p], entry);
      if c.syncDeletes && p !in local && remoteUnchanged {
        drops := drops + [p];
        continue;
      }
      var needs := p !in local || local[p].isDirectory != entry.isDirectory
                   || (!entry.isDirectory && (local[p].size != entry.size || local[p].mtime != entry.mtime));
      if needs {
        gets := gets + [p];
      }
    }
    PrefixAll(order);
    var late := DecideLate(c, local, previous, remote, previousOrder);
    drops := drops + late;
  }

  method DecideLate(c: Config, local: Manifest, previous: Manifest, remote: Manifest, previousOrder: seq<string>)
    returns (drops: seq<string>)
    requires Enumerates(previousOrder, previous.Keys)
    ensures drops == Select(previousOrder, p => p !in remote && Drops(c, local, previous, remote, p))
  {
    ghost var late := p => p !in remote && Drops(c, local, previous, remote, p);
    drops := [];
    if !c.syncDeletes {
      SelectNone(previousOrder, late);
      return;
    }
    for i := 0 to |previousOrder|
      invariant drops == Select(previousOrder[..i], late)
    {
      var p := previousOrder[i];
      SelectAppend(previousOrder[..i], p, late);
      PrefixSnoc(previousOrder, i);
      if p in remote {
        continue;
      }
      if Included(c, p, previous[p].isDirectory) {
        drops := drops + [p];
      }
    }
    PrefixAll(previousOrder);
  }

  lemma {:induction false} SelectAppend(order: seq<string>, p: string, keep: string -> bool)
    ensures Select(order + [p], keep) == Select(order, keep) + if keep(p) then [p] else []
  {
    if order == [] {
      assert [] + [p] == [p];
    } else {
      SelectAppend(order[1..], p, keep);
      assert (order + [p])[1..] == order[1..] + [p];
    }
  }

  lemma {:induction false} SelectNone(order: seq<string>, keep: string -> bool)
    requires forall p :: p in order ==> !keep(p)
    ensures Select(order, keep) == []
  {
    if order != [] {
      SelectNone(order[1..], keep);
    }
  }

  // ---------------------------------------------------------------- round trip

  /** The header a peer rebuilds from the NEED_BEGIN line: what follows its eleven characters. */
  function Collected(message: seq<string>): seq<string>
    requires |message| >= 2 && |message[0]| >= 11
  {
    ["NEED " + message[0][11..]] + message[1..|message| - 1] + ["END"]
  }

  lemma {:induction false} CollectedMessage(requests: seq<NeedRequest>)
    ensures var message := NeedMessage(requests);
            && |message| >= 2 && |message[0]| >= 11
            && Collected(message) == [HeaderLine(|requests|)] + NeedLines(requests) + ["END"]
  {
    BeginLineText(|requests|);
    MiddleOf(BeginLine(|requests|), NeedLines(requests), "NEED_END");
  }

  lemma {:induction false} BeginLineText(n: nat)
    ensures |BeginLine(n)| >= 11 && "NEED " + BeginLine(n)[11..] == HeaderLine(n)
  {
    var digits := Decimal(n);
    JoinTwo("NEED_BEGIN", digits);
    JoinTwo("NEED", digits);
    assert BeginLine(n)[11..] == digits;
    assert "NEED" + " " == "NEED ";
  }

  lemma {:induction false} MiddleOf(head: string, body: seq<string>, last: string)
    ensures var lines := [head] + body + [last]; lines[0] == head && lines[1..|lines| - 1] == body
  {
  }

  lemma {:induction false} SignatureGood(c: Config, data: seq<byte>)
    requires c.Valid() && |data| < TWO_64 && BlockCount(|data|, c.chunkSize) <= MAX_MANIFEST_ENTRIES
    ensures GoodSignature(Signature(c.h, data, c.chunkSize))
  {
    var sig := Signature(c.h, data, c.chunkSize);
    SignatureTiles(c.h, data, c.chunkSize);
    forall b | b in sig.blocks ensures ValidHash(b.strong) {
      var i :| 0 <= i < |sig.blocks| && sig.blocks[i] == b;
      assert b == BlockRecord(c.h, data, c.chunkSize, i);
    }
  }

  /** The list and every signature in it stay within the protocol's limits. */
  ghost predicate WithinLimits(requests: seq<NeedRequest>) {
    && |requests| <= MAX_TRANSFER_ENTRIES
    && forall r :: r in requests && r.basis.Some? ==>
         r.basis.value.fileSize < TWO_64 && |r.basis.value.blocks| <= MAX_MANIFEST_ENTRIES
  }

  ghost predicate SafeKeys(m: Manifest) {
    forall p :: p in m ==> SafePath(p)
  }

  /** The peer's strict parser recovers the decided requests exactly when they are within the limits. */
  lemma {:induction false} NeedSurvivesWire(c: Config, tree: Tree, previous: Manifest, remote: Manifest,
      order: seq<string>, previousOrder: seq<string>)
    requires c.Valid() && SafeKeys(remote) && SafeKeys(previous)
    requires Enumerates(order, remote.Keys) && Enumerates(previousOrder, previous.Keys)
    ensures var requests := Requests(c, tree, previous, remote, order, previousOrder);
            var message := NeedMessage(requests);
            && |message| >= 2 && |message[0]| >= 11
            && (NeedFrom(Collected(message)) == Ok(requests) <==> WithinLimits(requests))
            && (WithinLimits(requests) ==> Frames(Wire(message)) == message)
  {
    var requests := Requests(c, tree, previous, remote, order, previousOrder);
    RequestsExact(c, tree, previous, remote, order, previousOrder);
    CollectedMessage(requests);
    if WithinLimits(requests) {
      forall i | 0 <= i < |requests| ensures GoodRequest(requests[i]) {
        RequestGood(c, tree, previous, remote, order, previousOrder, requests[i]);
      }
      NeedRoundTrip(requests);
      MessageFrames(requests);
    } else if NeedFrom(Collected(NeedMessage(requests))) == Ok(requests) {
      NeedAccepted(Collected(NeedMessage(requests)));
      GoodIsWithin(requests);
    }
  }

  lemma {:induction false} GoodIsWithin(requests: seq<NeedRequest>)
    requires |requests| <= MAX_TRANSFER_ENTRIES && forall i :: 0 <= i < |requests| ==> GoodRequest(requests[i])
    ensures WithinLimits(requests)
  {
  }

  lemma {:induction false} RequestGood(c: Config, tree: Tree, previous: Manifest, remote: Manifest,
      order: seq<string>, previousOrder: seq<string>, r: NeedRequest)
    requires c.Valid() && SafeKeys(remote) && SafeKeys(previous)
    requires Enumerates(order, remote.Keys) && Enumerates(previousOrder, previous.Keys)
    requires r in Requests(c, tree, previous, remote, order, previousOrder)
    requires WithinLimits(Requests(c, tree, previous, remote, order, previousOrder))
    ensures GoodRequest(r)
  {
    RequestsExact(c, tree, previous, remote, order, previousOrder);
    if r.basis.Some? {
      SignatureGood(c, tree[r.path].data);
    }
  }

  lemma {:induction false} MessageFrames(requests: seq<NeedRequest>)
    requires forall i :: 0 <= i < |requests| ==> GoodRequest(requests[i])
    ensures Frames(Wire(NeedMessage(requests))) == NeedMessage(requests)
    ensures Leftover(Wire(NeedMessage(requests))) == ""
  {
    NeedLinesAreLines(requests);
    BeginIsLine(|requests|);
    AllLines([BeginLine(|requests|)], NeedLines(requests), ["NEED_END"]);
    FramesOfWire(NeedMessage(requests), "");
    EmptyConcat(Wire(NeedMessage(requests)));
    EmptyConcat(NeedMessage(requests));
  }

  lemma {:induction false} AllLines(a: seq<string>, b: seq<string>, d: seq<string>)
    requires forall line :: line in a + b + d ==> OneLine(line)
    ensures forall i :: 0 <= i < |a + b + d| ==> OneLine((a + b + d)[i])
  {
  }

  lemma {:induction false} BeginIsLine(n: nat)
    ensures OneLine(BeginLine(n))
  {
    NumberDecimal(n);
    JoinIsOneLine(["NEED_BEGIN", Decimal(n)]);
  }

  lemma {:induction false} NeedLinesAreLines(requests: seq<NeedRequest>)
    requires forall i :: 0 <= i < |requests| ==> GoodRequest(requests[i])
    ensures forall line :: line in NeedLines(requests) ==> OneLine(line)
  {
    if requests != [] {
      NeedLinesAreLines(requests[1..]);
      var r := requests[0];
      HeadIsWords(r);
      JoinIsOneLine(HeadWords(r));
      if r.basis.Some? {
        BlockLinesAreLines(r.basis.value.blocks);
      }
    }
  }

  lemma {:induction false} BlockLinesAreLines(blocks: seq<BlockSignature>)
    requires forall b :: b in blocks ==> ValidHash(b.strong)
    ensures forall line :: line in BlockLines(blocks) ==> OneLine(line)
  {
    if blocks != [] {
      BlockLinesAreLines(blocks[1..]);
      var b := blocks[0];
      NumberDecimal(b.index);
      NumberDecimal(b.size);
      NumberDecimal(b.weak);
      HashIsWord(b.strong);
      JoinIsOneLine(BlockWords(b));
    }
  }
}
