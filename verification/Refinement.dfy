/** Feeding a sender's lines to a receiver reproduces the sender's files. */
module Refinement {
  import opened Sequences
  import opened Wrappers
  import opened Text
  import opened Delta
  import opened Protocol
  import opened Files
  import opened Sender
  import R = Receiver

  // ---------------------------------------------------------------- scripts instead of lines

  /** The receiver on lines that are already split; none of them is END. */
  function RunScript(c: Config, s: R.State, script: Script): Result<R.State>
    decreases |script|
  {
    if script == [] then Ok(s)
    else
      var next :- R.ApplyWords(c, s, script[0]);
      RunScript(c, next, script[1..])
  }

  lemma {:induction false} RunScriptAppend(c: Config, s: R.State, a: Script, b: Script)
    ensures RunScript(c, s, a + b) ==
            match RunScript(c, s, a) { case Ok(t) => RunScript(c, t, b) case Err => Err }
    decreases |a|
  {
    if a == [] {
      assert a + b == b;
    } else {
      assert (a + b)[1..] == a[1..] + b;
      match R.ApplyWords(c, s, a[0])
      case Ok(t) => RunScriptAppend(c, t, a[1..], b);
      case Err =>
    }
  }

  /** Every line of the script is made of proper words and is not the terminator. */
  ghost predicate Spoken(words: seq<string>) {
    words != ["END"] && forall i :: 0 <= i < |words| ==> Word(words[i])
  }

  ghost predicate AllSpoken(script: Script) {
    forall k :: 0 <= k < |script| ==> Spoken(script[k])
  }

  lemma {:induction false} ApplyJoined(c: Config, s: R.State, words: seq<string>)
    requires Spoken(words)
    ensures R.Apply(c, s, Join(words)) ==
            match R.ApplyWords(c, s, words) { case Ok(t) => Ok((t, false)) case Err => Err }
  {
    SplitJoin(words);
    R.EndIsOneWord();
  }

  function Quiet(n: nat): seq<bool> {
    seq(n, i => false)
  }

  /** Running the printed lines is running the words, and no line but END reports completion. */
  lemma {:induction false} RunLines(c: Config, s: R.State, done: seq<string>, t: R.State, flags: seq<bool>,
      script: Script)
    requires AllSpoken(script)
    requires R.Run(c, s, done) == Ok((t, flags))
    requires RunScript(c, t, script).Ok?
    ensures R.Run(c, s, done + Lines(script)) == Ok((RunScript(c, t, script).value, flags + Quiet(|script|)))
    decreases |script|
  {
    if script == [] {
      EmptyConcat(done);
      assert Quiet(0) == [];
      EmptyConcat(flags);
    } else {
      assert Spoken(script[0]);
      var next := R.ApplyWords(c, t, script[0]).value;
      RunOneLine(c, s, done, t, flags, script[0], next);
      SpokenTail(script);
      RunLines(c, s, done + [Join(script[0])], next, flags + [false], script[1..]);
      Regroup(done, Join(script[0]), Lines(script[1..]), flags, |script| - 1);
    }
  }

  /** The receiver takes the lines before `k`, none of which reports completion, and refuses the one at `k`. */
  ghost predicate RefusedAt(c: Config, s: R.State, lines: seq<string>, k: nat) {
    && k < |lines| && R.Run(c, s, lines[..k]).Ok? && R.Run(c, s, lines[..k]).value.1 == Quiet(k)
    && R.Apply(c, R.Run(c, s, lines[..k]).value.0, lines[k]) == Err
  }

  ghost predicate Refuses(c: Config, s: R.State, lines: seq<string>) {
    exists k: nat :: RefusedAt(c, s, lines, k)
  }

  lemma {:induction false} RefusesIsErr(c: Config, s: R.State, lines: seq<string>)
    requires Refuses(c, s, lines)
    ensures R.Run(c, s, lines) == Err
  {
    var k: nat :| RefusedAt(c, s, lines, k);
    R.RunSnoc(c, s, lines[..k], lines[k]);
    R.RunStops(c, s, lines[..k] + [lines[k]], lines[k + 1..]);
    assert lines[..k] + [lines[k]] + lines[k + 1..] == lines;
  }

  /** Running the printed lines fails where running the words does, whatever follows. */
  lemma {:induction false} RunRefused(c: Config, s: R.State, done: seq<string>, t: R.State, script: Script,
      more: seq<string>)
    requires AllSpoken(script)
    requires R.Run(c, s, done) == Ok((t, Quiet(|done|)))
    requires RunScript(c, t, script) == Err
    ensures Refuses(c, s, done + (Lines(script) + more))
    decreases |script|
  {
    var line, rest := Join(script[0]), Lines(script[1..]) + more;
    assert Spoken(script[0]);
    Regroup(done, line, rest, Quiet(|done|), 0);
    assert Lines(script) + more == [line] + rest;
    match R.ApplyWords(c, t, script[0])
    case Ok(next) =>
      RunOneLine(c, s, done, t, Quiet(|done|), script[0], next);
      assert Quiet(|done|) + [false] == Quiet(|done| + 1);
      SpokenTail(script);
      RunRefused(c, s, done + [line], next, script[1..], more);
    case Err =>
      ApplyJoined(c, t, script[0]);
      HereRefused(c, s, done, t, line, rest);
  }

  lemma {:induction false} HereRefused(c: Config, s: R.State, done: seq<string>, t: R.State, line: string,
      rest: seq<string>)
    requires R.Run(c, s, done) == Ok((t, Quiet(|done|))) && R.Apply(c, t, line) == Err
    ensures Refuses(c, s, done + [line] + rest)
  {
    var lines := done + [line] + rest;
    assert lines[..|done|] == done && lines[|done|] == line;
    assert RefusedAt(c, s, lines, |done|);
  }

  lemma {:induction false} SpokenTail(script: Script)
    requires AllSpoken(script) && script != []
    ensures AllSpoken(script[1..])
  {
    assert forall k :: 0 <= k < |script[1..]| ==> script[1..][k] == script[k + 1];
  }

  lemma {:induction false} RunOneLine(c: Config, s: R.State, done: seq<string>, t: R.State, flags: seq<bool>,
      words: seq<string>, next: R.State)
    requires Spoken(words)
    requires R.Run(c, s, done) == Ok((t, flags))
    requires R.ApplyWords(c, t, words) == Ok(next)
    ensures R.Run(c, s, done + [Join(words)]) == Ok((next, flags + [false]))
  {
    ApplyJoined(c, t, words);
    R.RunSnoc(c, s, done, Join(words));
  }

  lemma {:induction false} Regroup(done: seq<string>, line: string, rest: seq<string>, flags: seq<bool>, n: nat)
    ensures done + ([line] + rest) == done + [line] + rest
    ensures flags + Quiet(n + 1) == flags + [false] + Quiet(n)
  {
  }

  // ---------------------------------------------------------------- one file

  lemma {:induction false} ChunksWrite(c: Config, s: R.State, data: seq<byte>, chunk: nat)
    requires chunk > 0 && s.kind == R.Full && s.received + |data| <= s.expected.size
    ensures RunScript(c, s, ChunkScript(data, chunk)) == Ok(R.Write(s, data))
    decreases |data|
  {
    if data == [] {
      WriteNothing(s);
    } else {
      var n := Min(chunk, |data|);
      var now, later := data[..n], data[n..];
      HexRoundTrip(now);
      ChunkAccepted(c, s, HexEncode(now), now);
      ChunksWrite(c, R.Write(s, now), later, chunk);
      WriteTwice(s, now, later);
      SplitAt(data, n);
      ScriptStep(c, s, ["CHUNK", HexEncode(now)], R.Write(s, now), ChunkScript(later, chunk));
    }
  }

  lemma {:induction false} ChunkAccepted(c: Config, s: R.State, text: string, data: seq<byte>)
    requires s.kind == R.Full && HexDecode(text) == Ok(data) && s.received + |data| <= s.expected.size
    ensures R.ApplyWords(c, s, ["CHUNK", text]) == Ok(R.Write(s, data))
  {
    assert R.ApplyWords(c, s, ["CHUNK", text]) == R.Append(s, ["CHUNK", text], false);
  }

  lemma {:induction false} WriteTwice(s: R.State, a: seq<byte>, b: seq<byte>)
    ensures R.Write(R.Write(s, a), b) == R.Write(s, a + b)
  {
    assert s.temp + a + b == s.temp + (a + b);
  }

  lemma {:induction false} WriteNothing(s: R.State)
    ensures R.Write(s, []) == s
  {
    assert s.temp + [] == s.temp;
  }

  lemma {:induction false} ScriptStep(c: Config, s: R.State, words: seq<string>, next: R.State, rest: Script)
    requires R.ApplyWords(c, s, words) == Ok(next)
    ensures RunScript(c, s, [words] + rest) == RunScript(c, next, rest)
  {
    assert ([words] + rest)[1..] == rest;
  }

  /** Operations that rebuild some bytes from the basis make the receiver write exactly those bytes. */
  lemma {:induction false} OperationsWrite(c: Config, s: R.State, ops: seq<Operation>, bytes: seq<byte>)
    requires s.kind == R.Delta && s.path in s.tree && s.tree[s.path].File? && |s.tree[s.path].data| < TWO_64
    requires Rebuild(s.tree[s.path].data, ops) == Ok(bytes)
    requires forall op :: op in ops && op.Data? ==> |op.data| <= MAX_DELTA_DATA
    requires s.received + |bytes| <= s.expected.size
    ensures RunScript(c, s, OperationScript(ops)) == Ok(R.Write(s, bytes))
    decreases |ops|
  {
    if ops == [] {
      WriteNothing(s);
    } else {
      var basis := s.tree[s.path].data;
      var rest := Rebuild(basis, ops[1..]).value;
      var piece := if ops[0].Data? then ops[0].data else basis[ops[0].offset..ops[0].offset + ops[0].size];
      assert bytes == piece + rest;
      OperationAccepted(c, s, ops[0], piece);
      OperationsWrite(c, R.Write(s, piece), ops[1..], rest);
      WriteTwice(s, piece, rest);
      ScriptStep(c, s, OperationWords(ops[0]), R.Write(s, piece), OperationScript(ops[1..]));
    }
  }

  /**
   * Whatever tiling the delta was made against, honest or not, a receiver whose basis is at least
   * as long as the tiled file accepts every COPY and every DATA line, and is left with as many
   * bytes as the source has.
   */
  lemma {:induction false} EveryLineAccepted(c: Config, s: R.State, h: Sums, sig: FileSignature, source: seq<byte>)
    requires s.kind == R.Delta && s.path in s.tree && s.tree[s.path].File? && |s.tree[s.path].data| < TWO_64
    requires Tiles(sig) && sig.fileSize <= |s.tree[s.path].data|
    requires s.received + |source| <= s.expected.size
    ensures var ops := Operations(h, sig, source, []);
            && RunScript(c, s, OperationScript(ops)).Ok?
            && RunScript(c, s, OperationScript(ops)).value.received == s.received + |source|
  {
    var ops, basis := Operations(h, sig, source, []), s.tree[s.path].data;
    CopiesBounded(h, sig, source, []);
    DataBounded(h, sig, source, []);
    WrittenIsLength(h, sig, source, []);
    RebuildDefined(basis, ops);
    OperationsWrite(c, s, ops, Rebuild(basis, ops).value);
  }

  lemma {:induction false} OperationAccepted(c: Config, s: R.State, op: Operation, piece: seq<byte>)
    requires s.kind == R.Delta && s.path in s.tree && s.tree[s.path].File? && |s.tree[s.path].data| < TWO_64
    requires op.Data? ==> piece == op.data && |op.data| <= MAX_DELTA_DATA
    requires op.Copy? ==> PieceAt(s.tree[s.path].data, op.offset, op.size, piece)
    requires s.received + |piece| <= s.expected.size
    ensures R.ApplyWords(c, s, OperationWords(op)) == Ok(R.Write(s, piece))
  {
    match op
    case Data(data) =>
      HexRoundTrip(data);
      DataAccepted(c, s, HexEncode(data), data);
    case Copy(offset, size) =>
      NumberDecimal(offset);
      NumberDecimal(size);
      CopyAccepted(c, s, Decimal(offset), Decimal(size), offset, size);
  }

  lemma {:induction false} DataAccepted(c: Config, s: R.State, text: string, data: seq<byte>)
    requires s.kind == R.Delta && HexDecode(text) == Ok(data)
    requires |data| <= MAX_DELTA_DATA && s.received + |data| <= s.expected.size
    ensures R.ApplyWords(c, s, ["DATA", text]) == Ok(R.Write(s, data))
  {
    assert R.ApplyWords(c, s, ["DATA", text]) == R.Append(s, ["DATA", text], true);
  }

  lemma {:induction false} CopyAccepted(c: Config, s: R.State, from: string, count: string, offset: nat, size: nat)
    requires s.kind == R.Delta && s.path in s.tree && s.tree[s.path].File?
    requires Number(from) == Ok(offset) && Number(count) == Ok(size)
    requires offset + size <= |s.tree[s.path].data| && s.received + size <= s.expected.size
    ensures R.ApplyWords(c, s, ["COPY", from, count]) == Ok(R.Write(s, s.tree[s.path].data[offset..offset + size]))
  {
    assert R.ApplyWords(c, s, ["COPY", from, count]) == R.CopyBlock(s, ["COPY", from, count]);
  }

  /** Nothing of an earlier file is left over. */
  ghost predicate Clean(s: R.State) {
    s == R.ClearFile(s)
  }

  function Opened(s: R.State, kind: R.Kind, path: string, file: Node, hash: string, basisHash: string, basis: seq<byte>)
    : R.State
    requires file.File?
  {
    s.(tree := WithParents(s.tree, path), kind := kind, path := path,
       expected := FileState(false, |file.data|, file.mtime, hash), basisHash := basisHash, basis := basis)
  }

  /** A file that can be announced: its integers fit the wire and its path passes the receiver's checks. */
  ghost predicate Sendable(c: Config, path: string, file: Node) {
    SafePath(path) && Included(c, path, false) && file.File? && |file.data| < TWO_64 && file.mtime < TWO_64
  }

  lemma {:induction false} PutOpens(c: Config, s: R.State, path: string, file: Node, hash: string)
    requires Clean(s) && Sendable(c, path, file) && ValidHash(hash) && !Blocked(s.tree, path)
    ensures R.ApplyWords(c, s, PutWords(path, file, hash)) == Ok(Opened(s, R.Full, path, file, hash, "", []))
  {
    SafePathWord(path);
    UnquoteQuote(path);
    NumberDecimal(|file.data|);
    NumberDecimal(file.mtime);
    PutBegins(c, s, Quote(path), Decimal(|file.data|), Decimal(file.mtime), path, file, hash);
  }

  lemma {:induction false} PutBegins(c: Config, s: R.State, token: string, size: string, mtime: string, path: string,
      file: Node, hash: string)
    requires Clean(s) && Sendable(c, path, file) && ValidHash(hash) && !Blocked(s.tree, path)
    requires Unquote(token) == Ok(path) && Number(size) == Ok(|file.data|) && Number(mtime) == Ok(file.mtime)
    ensures R.ApplyWords(c, s, ["PUT_BEGIN", token, size, mtime, hash]) ==
            Ok(Opened(s, R.Full, path, file, hash, "", []))
  {
    var parts := ["PUT_BEGIN", token, size, mtime, hash];
    assert R.ApplyWords(c, s, parts) == R.Begin(c, s, parts, false);
  }

  lemma {:induction false} DeltaOpens(c: Config, s: R.State, path: string, file: Node, hash: string, basisHash: string)
    requires Clean(s) && Sendable(c, path, file) && ValidHash(hash) && ValidHash(basisHash) && !Blocked(s.tree, path)
    requires path in s.tree && s.tree[path].File? && c.h.strong(s.tree[path].data) == basisHash
    ensures R.ApplyWords(c, s, DeltaWords(path, file, hash, basisHash)) ==
            Ok(Opened(s, R.Delta, path, file, hash, basisHash, s.tree[path].data))
  {
    SafePathWord(path);
    UnquoteQuote(path);
    NumberDecimal(|file.data|);
    NumberDecimal(file.mtime);
    DeltaBegins(c, s, Quote(path), Decimal(|file.data|), Decimal(file.mtime), path, file, hash, basisHash);
  }

  lemma {:induction false} DeltaBegins(c: Config, s: R.State, token: string, size: string, mtime: string, path: string,
      file: Node, hash: string, basisHash: string)
    requires Clean(s) && Sendable(c, path, file) && ValidHash(hash) && ValidHash(basisHash) && !Blocked(s.tree, path)
    requires path in s.tree && s.tree[path].File? && c.h.strong(s.tree[path].data) == basisHash
    requires Unquote(token) == Ok(path) && Number(size) == Ok(|file.data|) && Number(mtime) == Ok(file.mtime)
    ensures R.ApplyWords(c, s, ["DELTA_BEGIN", token, size, mtime, hash, basisHash]) ==
            Ok(Opened(s, R.Delta, path, file, hash, basisHash, s.tree[path].data))
  {
    var parts := ["DELTA_BEGIN", token, size, mtime, hash, basisHash];
    assert R.ApplyWords(c, s, parts) == R.Begin(c, s, parts, true);
  }

  /** The state after one more entry has been applied to the tree. */
  function Advanced(s: R.State, tree: Tree): R.State {
    s.(tree := tree, completed := s.completed + 1)
  }

  /** The tree with this file in place, the directories that lead to it made and all below it gone. */
  function Put(c: Config, tree: Tree, path: string, file: Node): Tree
    requires file.File?
  {
    R.Replace(c, WithParents(tree, path), path, file.data, file.mtime, c.h.strong(file.data))
  }

  /** Nothing prevents the file from being put in place. */
  predicate Placeable(c: Config, tree: Tree, path: string, file: Node)
    requires file.File?
  {
    && !Blocked(tree, path)
    && (R.Displaces(c, tree, path, c.h.strong(file.data)) ==> R.CanDisplace(tree, path, file.mtime))
  }

  lemma {:induction false} ParentsHarmless(tree: Tree, path: string, mtime: nat)
    ensures R.Look(WithParents(tree, path), path) == R.Look(tree, path)
    ensures R.Look(WithParents(tree, path), ConflictName(path, mtime)) == R.Look(tree, ConflictName(path, mtime))
  {
    AboveIsUnder(path, path);
    AboveIsUnder(path, ConflictName(path, mtime));
  }

  lemma {:induction false} FileCloses(c: Config, s: R.State, kind: R.Kind, path: string, file: Node, basisHash: string,
      basis: seq<byte>)
    requires Clean(s) && file.File? && Placeable(c, s.tree, path, file)
    ensures var open := R.Write(Opened(s, kind, path, file, c.h.strong(file.data), basisHash, basis), file.data);
            R.Finish(c, open) == Ok(Advanced(s, Put(c, s.tree, path, file)))
  {
    assert [] + file.data == file.data;
    ParentsHarmless(s.tree, path, file.mtime);
  }

  lemma {:induction false} Sandwich(c: Config, s: R.State, first: seq<string>, begun: R.State, middle: Script,
      written: R.State, last: seq<string>, final: R.State)
    requires R.ApplyWords(c, s, first) == Ok(begun)
    requires RunScript(c, begun, middle) == Ok(written)
    requires R.ApplyWords(c, written, last) == Ok(final)
    ensures RunScript(c, s, [first] + middle + [last]) == Ok(final)
  {
    ScriptStep(c, s, first, begun, middle + [last]);
    assert [first] + middle + [last] == [first] + (middle + [last]);
    RunScriptAppend(c, begun, middle, [last]);
    ScriptStep(c, written, last, final, []);
    assert [last] + [] == [last];
  }

  lemma {:induction false} FullRefines(cs: Config, c: Config, s: R.State, path: string, file: Node)
    requires cs.chunkSize > 0 && cs.h == c.h && Clean(s) && Sendable(c, path, file) && ValidHash(c.h.strong(file.data))
    requires Placeable(c, s.tree, path, file)
    ensures RunScript(c, s, FullScript(cs, path, file)) == Ok(Advanced(s, Put(c, s.tree, path, file)))
  {
    var hash := c.h.strong(file.data);
    var begun := Opened(s, R.Full, path, file, hash, "", []);
    PutOpens(c, s, path, file, hash);
    ChunksWrite(c, begun, file.data, cs.chunkSize);
    FileCloses(c, s, R.Full, path, file, "", []);
    Sandwich(c, s, PutWords(path, file, hash), begun, ChunkScript(file.data, cs.chunkSize),
             R.Write(begun, file.data), ["PUT_END"], Advanced(s, Put(c, s.tree, path, file)));
  }

  /** The signature was taken from the file that the receiver holds now. */
  ghost predicate CurrentBasis(c: Config, tree: Tree, path: string, sig: FileSignature) {
    && path in tree && tree[path].File? && |tree[path].data| < TWO_64
    && 0 < sig.blockSize && WrapsHome(tree[path].data, sig.blockSize)
    && sig == Signature(c.h, tree[path].data, sig.blockSize)
  }

  lemma {:induction false} DeltaRefines(cs: Config, c: Config, s: R.State, path: string, file: Node, sig: FileSignature)
    requires cs.h == c.h && Clean(s) && Sendable(c, path, file) && ValidHash(c.h.strong(file.data))
    requires CurrentBasis(c, s.tree, path, sig) && ValidHash(sig.fileHash) && Placeable(c, s.tree, path, file)
    requires NoCollision(c.h, s.tree[path].data, file.data)
    ensures RunScript(c, s, DeltaScript(cs, path, file, sig)) == Ok(Advanced(s, Put(c, s.tree, path, file)))
  {
    var hash, basis := c.h.strong(file.data), s.tree[path].data;
    var ops := Operations(c.h, sig, file.data, []);
    var begun := Opened(s, R.Delta, path, file, hash, sig.fileHash, basis);
    DeltaOpens(c, s, path, file, hash, sig.fileHash);
    assert Rebuild(basis, ops) == Ok(file.data) by {
      OperationsRebuild(c.h, basis, sig.blockSize, file.data, 0, []);
      assert file.data[0..] == file.data && [] + file.data == file.data;
    }
    DataBounded(c.h, sig, file.data, []);
    ParentsHarmless(s.tree, path, file.mtime);
    OperationsWrite(c, begun, ops, file.data);
    FileCloses(c, s, R.Delta, path, file, sig.fileHash, basis);
    Sandwich(c, s, DeltaWords(path, file, hash, sig.fileHash), begun, OperationScript(ops),
             R.Write(begun, file.data), ["DELTA_END"], Advanced(s, Put(c, s.tree, path, file)));
  }
}
