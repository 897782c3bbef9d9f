/** A whole transfer: every requested target ends up as the source has it, and nothing else changes. */
module Transfer {
  import opened Sequences
  import opened Wrappers
  import opened Text
  import opened Delta
  import opened Protocol
  import opened NeedList
  import opened Files
  import opened Sender
  import opened Refinement
  import R = Receiver

  // ---------------------------------------------------------------- what a request does

  /** What the receiver's tree becomes when one request is served from the source tree. */
  function Effect(c: Config, manifest: Manifest, source: Tree, tree: Tree, r: NeedRequest): Tree {
    if r.deletePath then Without(tree, r.path)
    else if r.path in manifest && manifest[r.path].isDirectory then WithParents(tree, r.path)[r.path := Dir]
    else if r.path in source && source[r.path].File? then Put(c, tree, r.path, source[r.path])
    else tree
  }

  function EffectAll(c: Config, manifest: Manifest, source: Tree, tree: Tree, requests: seq<NeedRequest>): Tree
    decreases |requests|
  {
    if requests == [] then tree
    else EffectAll(c, manifest, source, Effect(c, manifest, source, tree, requests[0]), requests[1..])
  }

  /** A request that the sender can serve and the receiver, holding `tree`, must accept. */
  ghost predicate Servable(c: Config, manifest: Manifest, source: Tree, tree: Tree, r: NeedRequest) {
    && SafePath(r.path)
    && if r.deletePath then Included(c, r.path, false) && !Blocked(tree, r.path)
       else
         && r.path in manifest
         && if manifest[r.path].isDirectory then Included(c, r.path, true) && !Blocked(tree, r.path)
            else
              && r.path in source && Sendable(c, r.path, source[r.path]) && Placeable(c, tree, r.path, source[r.path])
              && (r.basis.Some? ==>
                    && CurrentBasis(c, tree, r.path, r.basis.value)
                    && NoCollision(c.h, tree[r.path].data, source[r.path].data))
  }

  /** Each request can be served in the tree that it meets. */
  ghost predicate AllServable(c: Config, manifest: Manifest, source: Tree, tree: Tree, requests: seq<NeedRequest>)
    decreases |requests|
  {
    requests == [] ||
    (&& Servable(c, manifest, source, tree, requests[0])
     && AllServable(c, manifest, source, Effect(c, manifest, source, tree, requests[0]), requests[1..]))
  }

  /** What must stand at a requested path afterwards. */
  function Target(c: Config, manifest: Manifest, source: Tree, r: NeedRequest): Option<Node> {
    if r.deletePath then None
    else if r.path in manifest && manifest[r.path].isDirectory then Some(Dir)
    else if r.path in source && source[r.path].File? then
      Some(if source[r.path].mtime != 0 then source[r.path] else File(source[r.path].data, c.writeTime(r.path)))
    else None
  }

  // ---------------------------------------------------------------- what a request does to one path

  datatype Touch = Keeps | Becomes(node: Option<Node>)

  /**
   * A request decides its own path, makes directories of the paths above a fetched one, and
   * leaves nothing below a deleted path or a file.
   */
  function Touches(c: Config, manifest: Manifest, source: Tree, r: NeedRequest, p: string): Touch {
    if p == r.path then Becomes(Target(c, manifest, source, r))
    else if r.deletePath then if Under(p, r.path) then Becomes(None) else Keeps
    else if Under(r.path, p) then Becomes(Some(Dir))
    else if Under(p, r.path) && !(r.path in manifest && manifest[r.path].isDirectory) then Becomes(None)
    else Keeps
  }

  function Moved(touch: Touch, node: Option<Node>): Option<Node> {
    if touch.Keeps? then node else touch.node
  }

  /** What all requests in turn make of a path that holds `node`. */
  function Last(c: Config, manifest: Manifest, source: Tree, requests: seq<NeedRequest>, p: string, node: Option<Node>)
    : Option<Node>
    decreases |requests|
  {
    if requests == [] then node
    else Last(c, manifest, source, requests[1..], p, Moved(Touches(c, manifest, source, requests[0], p), node))
  }

  lemma {:induction false} DeleteTouches(tree: Tree, path: string, p: string)
    ensures R.Look(Without(tree, path), p) == if Covers(path, p) then None else R.Look(tree, p)
  {
  }

  lemma {:induction false} DirTouches(tree: Tree, path: string, p: string)
    requires IsTree(tree) && !Blocked(tree, path)
    ensures R.Look(WithParents(tree, path)[path := Dir], p) ==
            if p == path || Under(path, p) then Some(Dir) else R.Look(tree, p)
  {
    AboveIsUnder(path, p);
  }

  lemma {:induction false} PutTouches(c: Config, tree: Tree, path: string, file: Node, p: string)
    requires IsTree(tree) && file.File? && !Blocked(tree, path) && !Internal(p)
    ensures R.Look(Put(c, tree, path, file), p) ==
            if p == path then Some(if file.mtime != 0 then file else File(file.data, c.writeTime(path)))
            else if Under(path, p) then Some(Dir)
            else if Under(p, path) then None
            else R.Look(tree, p)
  {
    AboveIsUnder(path, p);
    ConflictIsInternal(path, file.mtime);
  }

  /** The effect of a request, path by path. */
  lemma {:induction false} EffectTouches(c: Config, manifest: Manifest, source: Tree, tree: Tree, r: NeedRequest,
      p: string)
    requires IsTree(tree) && Servable(c, manifest, source, tree, r) && !Internal(p)
    ensures R.Look(Effect(c, manifest, source, tree, r), p) ==
            Moved(Touches(c, manifest, source, r, p), R.Look(tree, p))
  {
    if r.deletePath {
      DeleteTouches(tree, r.path, p);
    } else if manifest[r.path].isDirectory {
      DirTouches(tree, r.path, p);
    } else {
      PutTouches(c, tree, r.path, source[r.path], p);
    }
  }

  lemma {:induction false} PutKeepsTree(c: Config, tree: Tree, path: string, file: Node)
    requires IsTree(tree) && file.File? && Placeable(c, tree, path, file)
    ensures IsTree(Put(c, tree, path, file))
  {
    ParentsKeepTree(tree, path);
    ParentsHarmless(tree, path, file.mtime);
    R.ReplaceKeepsTree(c, WithParents(tree, path), path, file.data, file.mtime, c.h.strong(file.data));
  }

  lemma {:induction false} EffectKeepsTree(c: Config, manifest: Manifest, source: Tree, tree: Tree, r: NeedRequest)
    requires IsTree(tree) && Servable(c, manifest, source, tree, r)
    ensures IsTree(Effect(c, manifest, source, tree, r))
  {
    if r.deletePath {
      WithoutKeepsTree(tree, r.path);
    } else if manifest[r.path].isDirectory {
      R.DirKeepsTree(tree, r.path);
    } else {
      PutKeepsTree(c, tree, r.path, source[r.path]);
    }
  }

  // ---------------------------------------------------------------- one request on the wire

  lemma {:induction false} PlainRequestRefines(c: Config, s: R.State, path: string, directory: bool)
    requires Clean(s) && SafePath(path) && Included(c, path, directory)
    ensures directory && !Blocked(s.tree, path) ==>
              R.ApplyWords(c, s, ["DIR", Quote(path)]) == Ok(Advanced(s, WithParents(s.tree, path)[path := Dir]))
    ensures !directory ==>
              R.ApplyWords(c, s, ["DELETE", Quote(path)]) ==
              if Blocked(s.tree, path) then Err else Ok(Advanced(s, Without(s.tree, path)))
  {
    SafePathWord(path);
    UnquoteQuote(path);
  }

  lemma {:induction false} RequestRefines(cs: Config, c: Config, manifest: Manifest, source: Tree, s: R.State,
      r: NeedRequest)
    requires cs.Valid() && c.Valid() && cs.h == c.h && Clean(s)
    requires Servable(c, manifest, source, s.tree, r)
    ensures RequestScript(cs, manifest, source, r).Ok?
    ensures RunScript(c, s, RequestScript(cs, manifest, source, r).value) ==
            Ok(Advanced(s, Effect(c, manifest, source, s.tree, r)))
  {
    if r.deletePath {
      PlainRequestRefines(c, s, r.path, false);
      ScriptStep(c, s, ["DELETE", Quote(r.path)], Advanced(s, Without(s.tree, r.path)), []);
      EmptyConcat([["DELETE", Quote(r.path)]]);
    } else if manifest[r.path].isDirectory {
      PlainRequestRefines(c, s, r.path, true);
      ScriptStep(c, s, ["DIR", Quote(r.path)], Advanced(s, WithParents(s.tree, r.path)[r.path := Dir]), []);
      EmptyConcat([["DIR", Quote(r.path)]]);
    } else if r.basis.None? {
      FullRefines(cs, c, s, r.path, source[r.path]);
    } else {
      DeltaRefines(cs, c, s, r.path, source[r.path], r.basis.value);
    }
  }

  lemma {:induction false} ChunksSpoken(data: seq<byte>, chunk: nat)
    requires chunk > 0
    ensures AllSpoken(ChunkScript(data, chunk))
    decreases |data|
  {
    if data != [] {
      var n := Min(chunk, |data|);
      ChunksSpoken(data[n..], chunk);
      HexRoundTrip(data[..n]);
    }
  }

  lemma {:induction false} OperationsSpoken(ops: seq<Operation>)
    requires forall op :: op in ops && op.Data? ==> op.data != []
    ensures AllSpoken(OperationScript(ops))
    decreases |ops|
  {
    if ops != [] {
      OperationsSpoken(ops[1..]);
      assert ops[0] in ops;
      match ops[0]
      case Data(data) => HexRoundTrip(data);
      case Copy(offset, size) =>
        NumberDecimal(offset);
        NumberDecimal(size);
    }
  }

  lemma {:induction false} HeadersSpoken(path: string, file: Node, hash: string, basisHash: string)
    requires SafePath(path) && file.File? && ValidHash(hash) && ValidHash(basisHash)
    ensures Spoken(PutWords(path, file, hash)) && Spoken(DeltaWords(path, file, hash, basisHash))
  {
    SafePathWord(path);
    NumberDecimal(|file.data|);
    NumberDecimal(file.mtime);
    HashIsWord(hash);
    HashIsWord(basisHash);
    LineVerbsAreWords();
    FiveWords("PUT_BEGIN", Quote(path), Decimal(|file.data|), Decimal(file.mtime), hash);
    SixWords("DELTA_BEGIN", Quote(path), Decimal(|file.data|), Decimal(file.mtime), hash, basisHash);
  }

  lemma {:induction false} LineVerbsAreWords()
    ensures Word("PUT_BEGIN") && Word("DELTA_BEGIN")
  {
  }

  lemma {:induction false} FiveWords(a: string, b: string, c: string, d: string, e: string)
    requires Word(a) && Word(b) && Word(c) && Word(d) && Word(e)
    ensures Spoken([a, b, c, d, e])
  {
    assert |["END"]| == 1;
  }

  lemma {:induction false} SixWords(a: string, b: string, c: string, d: string, e: string, f: string)
    requires Word(a) && Word(b) && Word(c) && Word(d) && Word(e) && Word(f)
    ensures Spoken([a, b, c, d, e, f])
  {
    assert |["END"]| == 1;
  }

  lemma {:induction false} SandwichSpoken(first: seq<string>, middle: Script, last: seq<string>)
    requires Spoken(first) && AllSpoken(middle) && Spoken(last)
    ensures AllSpoken([first] + middle + [last])
  {
  }

  lemma {:induction false} RequestSpoken(cs: Config, c: Config, manifest: Manifest, source: Tree, tree: Tree,
      r: NeedRequest)
    requires cs.Valid() && cs.h == c.h && Servable(c, manifest, source, tree, r)
    requires RequestScript(cs, manifest, source, r).Ok?
    ensures AllSpoken(RequestScript(cs, manifest, source, r).value)
  {
    if r.deletePath || manifest[r.path].isDirectory {
      SafePathWord(r.path);
    } else if r.basis.None? {
      FullSpoken(cs, r.path, source[r.path]);
    } else {
      DeltaSpoken(cs, r.path, source[r.path], r.basis.value);
    }
  }

  lemma {:induction false} FullSpoken(cs: Config, path: string, file: Node)
    requires cs.Valid() && SafePath(path) && file.File?
    ensures AllSpoken(FullScript(cs, path, file))
  {
    var hash := cs.h.strong(file.data);
    HeadersSpoken(path, file, hash, hash);
    ChunksSpoken(file.data, cs.chunkSize);
    SandwichSpoken(PutWords(path, file, hash), ChunkScript(file.data, cs.chunkSize), ["PUT_END"]);
  }

  lemma {:induction false} DeltaSpoken(cs: Config, path: string, file: Node, sig: FileSignature)
    requires cs.Valid() && SafePath(path) && file.File? && sig.blockSize > 0 && ValidHash(sig.fileHash)
    ensures AllSpoken(DeltaScript(cs, path, file, sig))
  {
    var hash, ops := cs.h.strong(file.data), Operations(cs.h, sig, file.data, []);
    HeadersSpoken(path, file, hash, sig.fileHash);
    DataBounded(cs.h, sig, file.data, []);
    OperationsSpoken(ops);
    SandwichSpoken(DeltaWords(path, file, hash, sig.fileHash), OperationScript(ops), ["DELTA_END"]);
  }

  /**
   * Whatever basis a peer puts into an accepted NEED list, every COPY and every DATA line of the
   * delta made against it is accepted by a receiver whose file is at least as long as it claimed.
   */
  lemma {:induction false} AcceptedBasisCopies(lines: seq<string>, k: nat, c: Config, h: Sums, s: R.State,
      source: seq<byte>)
    requires NeedFrom(lines).Ok? && k < |NeedFrom(lines).value| && NeedFrom(lines).value[k].basis.Some?
    requires s.kind == R.Delta && s.path in s.tree && s.tree[s.path].File? && |s.tree[s.path].data| < TWO_64
    requires NeedFrom(lines).value[k].basis.value.fileSize <= |s.tree[s.path].data|
    requires s.received + |source| <= s.expected.size
    ensures var sig := NeedFrom(lines).value[k].basis.value;
            sig.blockSize > 0 && RunScript(c, s, OperationScript(Operations(h, sig, source, []))).Ok?
  {
    NeedAccepted(lines);
    assert GoodRequest(NeedFrom(lines).value[k]);
    EveryLineAccepted(c, s, h, NeedFrom(lines).value[k].basis.value, source);
  }

  // ---------------------------------------------------------------- all requests

  /** The words of every line between FILES and END. */
  function TransferScript(cs: Config, manifest: Manifest, source: Tree, requests: seq<NeedRequest>): Result<Script>
    requires cs.chunkSize > 0
  {
    if requests == [] then Ok([])
    else
      var first :- RequestScript(cs, manifest, source, requests[0]);
      After(first, TransferScript(cs, manifest, source, requests[1..]))
  }

  lemma {:induction false} EmissionOfScript(cs: Config, manifest: Manifest, source: Tree, requests: seq<NeedRequest>)
    requires cs.chunkSize > 0 && TransferScript(cs, manifest, source, requests).Ok?
    ensures EmissionFrom(cs, manifest, source, requests) ==
            Emission(Lines(TransferScript(cs, manifest, source, requests).value) + ["END"], true)
  {
    if requests != [] {
      var first := RequestScript(cs, manifest, source, requests[0]).value;
      var rest := TransferScript(cs, manifest, source, requests[1..]).value;
      EmissionOfScript(cs, manifest, source, requests[1..]);
      LinesAppend(first, rest);
      assert Lines(first) + (Lines(rest) + ["END"]) == Lines(first) + Lines(rest) + ["END"];
    }
  }

  lemma {:induction false} ScriptRefines(cs: Config, c: Config, manifest: Manifest, source: Tree, s: R.State,
      requests: seq<NeedRequest>)
    requires cs.Valid() && c.Valid() && cs.h == c.h && Clean(s)
    requires AllServable(c, manifest, source, s.tree, requests)
    ensures TransferScript(cs, manifest, source, requests).Ok?
    ensures var script := TransferScript(cs, manifest, source, requests).value;
            Serves(c, s, script, EffectAll(c, manifest, source, s.tree, requests), |requests|)
    decreases |requests|
  {
    if requests != [] {
      var r := requests[0];
      RequestRefines(cs, c, manifest, source, s, r);
      RequestSpoken(cs, c, manifest, source, s.tree, r);
      var next := Advanced(s, Effect(c, manifest, source, s.tree, r));
      ScriptRefines(cs, c, manifest, source, next, requests[1..]);
      ScriptGrows(c, s, RequestScript(cs, manifest, source, r).value, next,
                  TransferScript(cs, manifest, source, requests[1..]).value,
                  EffectAll(c, manifest, source, next.tree, requests[1..]), |requests| - 1);
    }
  }

  /** The script runs to the end and leaves this tree after `n` entries. */
  ghost predicate Serves(c: Config, s: R.State, script: Script, tree: Tree, n: nat) {
    AllSpoken(script) && RunScript(c, s, script) == Ok(AdvancedBy(s, tree, n))
  }

  lemma {:induction false} ScriptGrows(c: Config, s: R.State, first: Script, next: R.State, rest: Script, tree: Tree,
      n: nat)
    requires RunScript(c, s, first) == Ok(next) && next == Advanced(s, next.tree)
    requires AllSpoken(first) && Serves(c, next, rest, tree, n)
    ensures Serves(c, s, first + rest, tree, n + 1)
  {
    Compose(c, s, first, next, rest);
    OneMore(s, next.tree, tree, n);
  }

  /** The state after n entries have turned the tree into `tree`. */
  function AdvancedBy(s: R.State, tree: Tree, n: nat): R.State {
    s.(tree := tree, completed := s.completed + n)
  }

  lemma {:induction false} OneMore(s: R.State, first: Tree, last: Tree, n: nat)
    ensures AdvancedBy(Advanced(s, first), last, n) == AdvancedBy(s, last, n + 1)
  {
  }

  lemma {:induction false} Compose(c: Config, s: R.State, first: Script, next: R.State, rest: Script)
    requires RunScript(c, s, first) == Ok(next)
    requires AllSpoken(first) && AllSpoken(rest)
    ensures RunScript(c, s, first + rest) == RunScript(c, next, rest)
    ensures AllSpoken(first + rest)
  {
    RunScriptAppend(c, s, first, rest);
  }

  lemma {:induction false} FilesAccepted(c: Config, tree: Tree, n: nat)
    requires n <= MAX_TRANSFER_ENTRIES
    ensures Spoken(["FILES", Decimal(n)])
    ensures R.ApplyWords(c, R.Initial(tree), ["FILES", Decimal(n)]) ==
            Ok(R.Initial(tree).(expectedEntries := n, batchStarted := true))
  {
    NumberDecimal(n);
  }

  /**
   * Sender and receiver together: every line the sender emits is accepted, exactly the last
   * one reports completion, and the receiver's tree is the one the requests prescribe.
   */
  lemma {:induction false} TransferRefines(cs: Config, c: Config, manifest: Manifest, source: Tree, tree: Tree,
      requests: seq<NeedRequest>)
    requires cs.Valid() && c.Valid() && cs.h == c.h
    requires |requests| <= MAX_TRANSFER_ENTRIES
    requires AllServable(c, manifest, source, tree, requests)
    ensures var out := Emitted(cs, manifest, source, requests);
            && out.completes && out.lines != []
            && R.Run(c, R.Initial(tree), out.lines) ==
               Ok((R.Initial(EffectAll(c, manifest, source, tree, requests)).(completed := |requests|),
                   Quiet(|out.lines| - 1) + [true]))
  {
    StartedIsClean(tree, |requests|);
    ScriptRefines(cs, c, manifest, source, Started(tree, |requests|), requests);
    EmissionOfScript(cs, manifest, source, requests);
    WholeTransfer(c, tree, |requests|, TransferScript(cs, manifest, source, requests).value,
                  EffectAll(c, manifest, source, tree, requests));
  }

  /** The receiver once it has read the FILES line. */
  function Started(tree: Tree, n: nat): R.State {
    R.Initial(tree).(expectedEntries := n, batchStarted := true)
  }

  lemma {:induction false} StartedIsClean(tree: Tree, n: nat)
    ensures Clean(Started(tree, n)) && Started(tree, n).tree == tree
  {
  }

  /** A script that serves n entries, between its FILES line and END. */
  lemma {:induction false} WholeTransfer(c: Config, tree: Tree, n: nat, script: Script, result: Tree)
    requires n <= MAX_TRANSFER_ENTRIES && Serves(c, Started(tree, n), script, result, n)
    ensures var out := Emission(Lines(script) + ["END"], true).Prepend([FilesLine(n)]);
            && out.completes && out.lines != []
            && R.Run(c, R.Initial(tree), out.lines) ==
               Ok((R.Initial(result).(completed := n), Quiet(|out.lines| - 1) + [true]))
  {
    FilesAccepted(c, tree, n);
    RunWhole(c, R.Initial(tree), ["FILES", Decimal(n)], Started(tree, n), script);
  }

  lemma {:induction false} RunWhole(c: Config, s: R.State, first: seq<string>, started: R.State, script: Script)
    requires Spoken(first) && AllSpoken(script)
    requires R.ApplyWords(c, s, first) == Ok(started)
    requires RunScript(c, started, script).Ok?
    requires var t := RunScript(c, started, script).value;
             t.batchStarted && t.kind == R.Idle && t.completed == t.expectedEntries
    ensures var lines := [Join(first)] + (Lines(script) + ["END"]);
            var t := RunScript(c, started, script).value;
            R.Run(c, s, lines) == Ok((t.(expectedEntries := 0, batchStarted := false), Quiet(|lines| - 1) + [true]))
  {
    var body, t := [first] + script, RunScript(c, started, script).value;
    SpokenMore(first, script);
    ScriptStep(c, s, first, started, script);
    RunLines(c, s, [], s, [], body);
    EmptyConcat(Lines(body));
    EmptyConcat(Quiet(|body|));
    assert Lines(body) == [Join(first)] + Lines(script);
    Associate([Join(first)], Lines(script), ["END"]);
    LinesLength(body);
    EndAccepted(c, s, Lines(body), t, Quiet(|body|));
  }

  lemma {:induction false} SpokenMore(first: seq<string>, script: Script)
    requires Spoken(first) && AllSpoken(script)
    ensures AllSpoken([first] + script) && ([first] + script)[1..] == script
  {
  }

  lemma {:induction false} EndAccepted(c: Config, s: R.State, lines: seq<string>, t: R.State, flags: seq<bool>)
    requires R.Run(c, s, lines) == Ok((t, flags))
    requires t.batchStarted && t.kind == R.Idle && t.completed == t.expectedEntries
    ensures R.Run(c, s, lines + ["END"]) == Ok((t.(expectedEntries := 0, batchStarted := false), flags + [true]))
  {
    R.RunSnoc(c, s, lines, "END");
  }

  lemma {:induction false} LinesLength(script: Script)
    ensures |Lines(script)| == |script|
  {
    if script != [] {
      LinesLength(script[1..]);
    }
  }

  // ---------------------------------------------------------------- when a transfer is refused

  /** A deletion that the receiver refuses only because a file stands above the path. */
  ghost predicate Barred(c: Config, tree: Tree, r: NeedRequest) {
    r.deletePath && SafePath(r.path) && Included(c, r.path, false) && Blocked(tree, r.path)
  }

  /** Each request could be served in the tree that it meets, but for files above deletions. */
  ghost predicate Sound(c: Config, manifest: Manifest, source: Tree, tree: Tree, requests: seq<NeedRequest>)
    decreases |requests|
  {
    requests == [] ||
    (&& (Servable(c, manifest, source, tree, requests[0]) || Barred(c, tree, requests[0]))
     && Sound(c, manifest, source, Effect(c, manifest, source, tree, requests[0]), requests[1..]))
  }

  lemma {:induction false} ServableIsSound(c: Config, manifest: Manifest, source: Tree, tree: Tree,
      requests: seq<NeedRequest>)
    requires AllServable(c, manifest, source, tree, requests)
    ensures Sound(c, manifest, source, tree, requests)
    decreases |requests|
  {
    if requests != [] {
      ServableIsSound(c, manifest, source, Effect(c, manifest, source, tree, requests[0]), requests[1..]);
    }
  }

  /** The request at which a sound list is refused. */
  lemma {:induction false} FirstBarred(c: Config, manifest: Manifest, source: Tree, tree: Tree,
      requests: seq<NeedRequest>) returns (k: nat)
    requires Sound(c, manifest, source, tree, requests) && !AllServable(c, manifest, source, tree, requests)
    ensures StopsAt(c, manifest, source, tree, requests, k)
    decreases |requests|
  {
    if Servable(c, manifest, source, tree, requests[0]) {
      var j := FirstBarred(c, manifest, source, Effect(c, manifest, source, tree, requests[0]), requests[1..]);
      k := j + 1;
      assert requests[..k][0] == requests[0] && requests[..k][1..] == requests[1..][..j];
    } else {
      k := 0;
      assert requests[..0] == [];
    }
  }

  /** All requests before `k` are served, and the one at `k` is refused. */
  ghost predicate StopsAt(c: Config, manifest: Manifest, source: Tree, tree: Tree, requests: seq<NeedRequest>, k: nat) {
    && k < |requests| && AllServable(c, manifest, source, tree, requests[..k])
    && Barred(c, EffectAll(c, manifest, source, tree, requests[..k]), requests[k])
  }

  /** A list that can be served, followed by a sound one. */
  lemma {:induction false} SoundConcat(c: Config, manifest: Manifest, source: Tree, tree: Tree, a: seq<NeedRequest>,
      b: seq<NeedRequest>)
    requires AllServable(c, manifest, source, tree, a)
    requires Sound(c, manifest, source, EffectAll(c, manifest, source, tree, a), b)
    ensures Sound(c, manifest, source, tree, a + b)
    ensures AllServable(c, manifest, source, tree, a + b) <==>
            AllServable(c, manifest, source, EffectAll(c, manifest, source, tree, a), b)
    decreases |a|
  {
    if a == [] {
      EmptyConcat(b);
    } else {
      TailConcat(a, b);
      SoundConcat(c, manifest, source, Effect(c, manifest, source, tree, a[0]), a[1..], b);
    }
  }

  lemma {:induction false} BarredRefused(cs: Config, c: Config, manifest: Manifest, source: Tree, s: R.State,
      r: NeedRequest)
    requires cs.chunkSize > 0 && Clean(s) && Barred(c, s.tree, r)
    ensures RequestScript(cs, manifest, source, r) == Ok([["DELETE", Quote(r.path)]])
    ensures AllSpoken([["DELETE", Quote(r.path)]]) && RunScript(c, s, [["DELETE", Quote(r.path)]]) == Err
  {
    SafePathWord(r.path);
    PlainRequestRefines(c, s, r.path, false);
  }

  /** The sender speaks every line of a sound list. */
  lemma {:induction false} SoundSpoken(cs: Config, c: Config, manifest: Manifest, source: Tree, tree: Tree,
      requests: seq<NeedRequest>)
    requires cs.Valid() && c.Valid() && cs.h == c.h && Sound(c, manifest, source, tree, requests)
    ensures TransferScript(cs, manifest, source, requests).Ok?
    ensures AllSpoken(TransferScript(cs, manifest, source, requests).value)
    decreases |requests|
  {
    if requests != [] {
      var r := requests[0];
      if Servable(c, manifest, source, tree, r) {
        RequestRefines(cs, c, manifest, source, R.Initial(tree), r);
        RequestSpoken(cs, c, manifest, source, tree, r);
      } else {
        BarredRefused(cs, c, manifest, source, R.Initial(tree), r);
      }
      SoundSpoken(cs, c, manifest, source, Effect(c, manifest, source, tree, r), requests[1..]);
    }
  }

  lemma {:induction false} ScriptRefused(cs: Config, c: Config, manifest: Manifest, source: Tree, s: R.State,
      requests: seq<NeedRequest>)
    requires cs.Valid() && c.Valid() && cs.h == c.h && Clean(s)
    requires Sound(c, manifest, source, s.tree, requests) && !AllServable(c, manifest, source, s.tree, requests)
    requires TransferScript(cs, manifest, source, requests).Ok?
    ensures RunScript(c, s, TransferScript(cs, manifest, source, requests).value) == Err
    decreases |requests|
  {
    var r := requests[0];
    var first := RequestScript(cs, manifest, source, r).value;
    var rest := TransferScript(cs, manifest, source, requests[1..]).value;
    RunScriptAppend(c, s, first, rest);
    if Servable(c, manifest, source, s.tree, r) {
      RequestRefines(cs, c, manifest, source, s, r);
      ScriptRefused(cs, c, manifest, source, Advanced(s, Effect(c, manifest, source, s.tree, r)), requests[1..]);
    } else {
      BarredRefused(cs, c, manifest, source, s, r);
    }
  }

  /**
   * Exactly when a transfer goes through: a list that can be served but for files above deletions
   * is accepted if and only if no deletion meets a file above its path.
   */
  lemma {:induction false} TransferIff(cs: Config, c: Config, manifest: Manifest, source: Tree, tree: Tree,
      requests: seq<NeedRequest>)
    requires cs.Valid() && c.Valid() && cs.h == c.h && |requests| <= MAX_TRANSFER_ENTRIES
    requires Sound(c, manifest, source, tree, requests)
    ensures Emitted(cs, manifest, source, requests).completes && Emitted(cs, manifest, source, requests).lines != []
    ensures R.Run(c, R.Initial(tree), Emitted(cs, manifest, source, requests).lines).Ok? <==>
            AllServable(c, manifest, source, tree, requests)
    ensures Refuses(c, R.Initial(tree), Emitted(cs, manifest, source, requests).lines) <==>
            !AllServable(c, manifest, source, tree, requests)
  {
    SoundSpoken(cs, c, manifest, source, tree, requests);
    EmissionOfScript(cs, manifest, source, requests);
    if Refuses(c, R.Initial(tree), Emitted(cs, manifest, source, requests).lines) {
      RefusesIsErr(c, R.Initial(tree), Emitted(cs, manifest, source, requests).lines);
    }
    if AllServable(c, manifest, source, tree, requests) {
      TransferRefines(cs, c, manifest, source, tree, requests);
    } else {
      var script := TransferScript(cs, manifest, source, requests).value;
      ScriptRefused(cs, c, manifest, source, Started(tree, |requests|), requests);
      RefusedWhole(c, tree, |requests|, script);
    }
  }

  lemma {:induction false} RefusedWhole(c: Config, tree: Tree, n: nat, script: Script)
    requires n <= MAX_TRANSFER_ENTRIES && AllSpoken(script) && RunScript(c, Started(tree, n), script) == Err
    ensures Refuses(c, R.Initial(tree), [FilesLine(n)] + (Lines(script) + ["END"]))
    ensures R.Run(c, R.Initial(tree), [FilesLine(n)] + (Lines(script) + ["END"])) == Err
  {
    var first := ["FILES", Decimal(n)];
    FilesAccepted(c, tree, n);
    EmptyConcat([FilesLine(n)]);
    RunOneLine(c, R.Initial(tree), [], R.Initial(tree), [], first, Started(tree, n));
    assert [] + [false] == Quiet(1);
    RunRefused(c, R.Initial(tree), [FilesLine(n)], Started(tree, n), script, ["END"]);
    RefusesIsErr(c, R.Initial(tree), [FilesLine(n)] + (Lines(script) + ["END"]));
  }

  /** Every line of a sound transfer is one line. */
  lemma {:induction false} EmittedAreLines(cs: Config, c: Config, manifest: Manifest, source: Tree, tree: Tree,
      requests: seq<NeedRequest>)
    requires cs.Valid() && c.Valid() && cs.h == c.h
    requires Sound(c, manifest, source, tree, requests)
    ensures forall line :: line in Emitted(cs, manifest, source, requests).lines ==> OneLine(line)
  {
    SoundSpoken(cs, c, manifest, source, tree, requests);
    EmissionOfScript(cs, manifest, source, requests);
    LinesAreLines(TransferScript(cs, manifest, source, requests).value);
    FrameOfLines(|requests|, Lines(TransferScript(cs, manifest, source, requests).value));
  }

  lemma {:induction false} FrameOfLines(n: nat, lines: seq<string>)
    requires forall line :: line in lines ==> OneLine(line)
    ensures forall line :: line in Emission(lines + ["END"], true).Prepend([FilesLine(n)]).lines ==> OneLine(line)
  {
    FilesIsLine(n);
  }

  lemma {:induction false} FilesIsLine(n: nat)
    ensures OneLine(FilesLine(n)) && OneLine("END")
  {
    NumberDecimal(n);
    JoinIsOneLine(["FILES", Decimal(n)]);
  }

  lemma {:induction false} LinesAreLines(script: Script)
    requires AllSpoken(script)
    ensures forall line :: line in Lines(script) ==> OneLine(line)
  {
    if script != [] {
      assert Spoken(script[0]);
      JoinIsOneLine(script[0]);
      SpokenTail(script);
      LinesAreLines(script[1..]);
    }
  }

  // ---------------------------------------------------------------- what all requests do to one path

  /** The tree after a transfer, path by path: what the last request that touches a path makes of it. */
  lemma {:induction false} FinalAt(c: Config, manifest: Manifest, source: Tree, tree: Tree, requests: seq<NeedRequest>,
      p: string)
    requires IsTree(tree) && AllServable(c, manifest, source, tree, requests) && !Internal(p)
    ensures IsTree(EffectAll(c, manifest, source, tree, requests))
    ensures R.Look(EffectAll(c, manifest, source, tree, requests), p)
         == Last(c, manifest, source, requests, p, R.Look(tree, p))
    decreases |requests|
  {
    if requests != [] {
      EffectTouches(c, manifest, source, tree, requests[0], p);
      EffectKeepsTree(c, manifest, source, tree, requests[0]);
      FinalAt(c, manifest, source, Effect(c, manifest, source, tree, requests[0]), requests[1..], p);
    }
  }

  /** If every request that touches a path makes the same of it, that is what it ends as. */
  lemma {:induction false} LastSettles(c: Config, manifest: Manifest, source: Tree, requests: seq<NeedRequest>,
      p: string, node: Option<Node>, value: Option<Node>)
    requires forall r :: r in requests ==> Touches(c, manifest, source, r, p) in {Keeps, Becomes(value)}
    requires node == value || exists r :: r in requests && Touches(c, manifest, source, r, p) == Becomes(value)
    ensures Last(c, manifest, source, requests, p, node) == value
    decreases |requests|
  {
    if requests != [] {
      var r := requests[0];
      assert r in requests;
      if Touches(c, manifest, source, r, p) == Becomes(value) {
        LastSettles(c, manifest, source, requests[1..], p, value, value);
      } else {
        LastSettles(c, manifest, source, requests[1..], p, node, value);
      }
    }
  }

  lemma {:induction false} LastConcat(c: Config, manifest: Manifest, source: Tree, a: seq<NeedRequest>,
      b: seq<NeedRequest>, p: string, node: Option<Node>)
    ensures Last(c, manifest, source, a + b, p, node)
         == Last(c, manifest, source, b, p, Last(c, manifest, source, a, p, node))
    decreases |a|
  {
    if a == [] {
      EmptyConcat(b);
    } else {
      TailConcat(a, b);
      LastConcat(c, manifest, source, a[1..], b, p, Moved(Touches(c, manifest, source, a[0], p), node));
    }
  }

  /** Every path that a scan can see and that no request touches stays as it was. */
  lemma {:induction false} OthersUntouched(c: Config, manifest: Manifest, source: Tree, tree: Tree,
      requests: seq<NeedRequest>, p: string)
    requires IsTree(tree) && AllServable(c, manifest, source, tree, requests) && !Internal(p)
    requires forall r :: r in requests ==> Touches(c, manifest, source, r, p) == Keeps
    ensures R.Look(EffectAll(c, manifest, source, tree, requests), p) == R.Look(tree, p)
  {
    FinalAt(c, manifest, source, tree, requests, p);
    LastSettles(c, manifest, source, requests, p, R.Look(tree, p), R.Look(tree, p));
  }

  /** The request leaves nothing at `p`, which is not its own path. */
  ghost predicate Removes(c: Config, manifest: Manifest, source: Tree, r: NeedRequest, p: string) {
    p != r.path && Touches(c, manifest, source, r, p) == Becomes(None)
  }

  ghost predicate IsFile(node: Option<Node>) {
    node.Some? && node.value.File?
  }

  /** A path that holds no file and is not requested never holds one. */
  lemma {:induction false} NeverFileAgain(c: Config, manifest: Manifest, source: Tree, requests: seq<NeedRequest>,
      p: string, node: Option<Node>)
    requires !IsFile(node) && forall r :: r in requests ==> r.path != p
    ensures !IsFile(Last(c, manifest, source, requests, p, node))
    decreases |requests|
  {
    if requests != [] {
      assert requests[0] in requests;
      NeverFileAgain(c, manifest, source, requests[1..], p, Moved(Touches(c, manifest, source, requests[0], p), node));
    }
  }

  /** A file that is not requested survives exactly when no request removes a directory above it. */
  lemma {:induction false} FileSurvives(c: Config, manifest: Manifest, source: Tree, tree: Tree,
      requests: seq<NeedRequest>, p: string)
    requires IsTree(tree) && AllServable(c, manifest, source, tree, requests) && !Internal(p)
    requires IsFile(R.Look(tree, p)) && forall r :: r in requests ==> r.path != p
    ensures R.Look(EffectAll(c, manifest, source, tree, requests), p) == R.Look(tree, p) <==>
            forall r :: r in requests ==> !Removes(c, manifest, source, r, p)
    decreases |requests|
  {
    if requests != [] {
      var r := requests[0];
      assert r in requests;
      var next := Effect(c, manifest, source, tree, r);
      EffectTouches(c, manifest, source, tree, r, p);
      EffectKeepsTree(c, manifest, source, tree, r);
      AboveIsUnder(r.path, p);
      if Removes(c, manifest, source, r, p) {
        FinalAt(c, manifest, source, next, requests[1..], p);
        NeverFileAgain(c, manifest, source, requests[1..], p, None);
      } else {
        FileSurvives(c, manifest, source, next, requests[1..], p);
        assert requests == [r] + requests[1..];
      }
    }
  }

  /**
   * A requested file ends as the source has it exactly when no later request deletes, or puts a
   * file over, a directory above it.
   */
  lemma {:induction false} TargetsReached(c: Config, manifest: Manifest, source: Tree, tree: Tree,
      requests: seq<NeedRequest>, i: nat)
    requires IsTree(tree) && DistinctPaths(requests) && AllServable(c, manifest, source, tree, requests)
    requires i < |requests| && !requests[i].deletePath
    requires requests[i].path in manifest ==> !manifest[requests[i].path].isDirectory
    ensures R.Look(EffectAll(c, manifest, source, tree, requests), requests[i].path)
              == Target(c, manifest, source, requests[i]) <==>
            forall r :: r in requests[i + 1..] ==> !Removes(c, manifest, source, r, requests[i].path)
    decreases |requests|
  {
    var next, rest := Effect(c, manifest, source, tree, requests[0]), requests[1..];
    EffectKeepsTree(c, manifest, source, tree, requests[0]);
    if i == 0 {
      EffectTouches(c, manifest, source, tree, requests[0], requests[0].path);
      FileSurvives(c, manifest, source, next, rest, requests[0].path);
    } else {
      assert requests[i] == rest[i - 1] && requests[i + 1..] == rest[i..];
      TargetsReached(c, manifest, source, next, rest, i - 1);
    }
  }
}
