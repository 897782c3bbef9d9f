/** The need list: which paths a peer asks for, with block signatures for the deltas it can take. */
module NeedList {
  import opened Wrappers
  import opened Sequences
  import opened Text
  import opened Delta
  import opened Protocol

  // ---------------------------------------------------------------- printing

  function BlockWords(b: BlockSignature): seq<string> {
    ["SIG", Decimal(b.index), Decimal(b.size), Decimal(b.weak), b.strong]
  }

  function BlockLines(blocks: seq<BlockSignature>): seq<string> {
    if blocks == [] then [] else [Join(BlockWords(blocks[0]))] + BlockLines(blocks[1..])
  }

  function BasisWords(path: string, sig: FileSignature): seq<string> {
    ["GET", Quote(path), Decimal(sig.blockSize), Decimal(sig.fileSize), sig.fileHash, Decimal(|sig.blocks|)]
  }

  function HeadWords(r: NeedRequest): seq<string> {
    if r.deletePath then ["DELETE", Quote(r.path)]
    else if r.basis.None? then ["GET", Quote(r.path)]
    else BasisWords(r.path, r.basis.value)
  }

  function RequestLines(r: NeedRequest): seq<string> {
    [Join(HeadWords(r))] + if !r.deletePath && r.basis.Some? then BlockLines(r.basis.value.blocks) else []
  }

  function NeedLines(requests: seq<NeedRequest>): seq<string> {
    if requests == [] then [] else RequestLines(requests[0]) + NeedLines(requests[1..])
  }

  function HeaderLine(count: nat): string {
    Join(["NEED", Decimal(count)])
  }

  // ---------------------------------------------------------------- parsing

  /** One SIG line: the subtraction in `BlockSize` is where the source must not underflow. */
  function ParseBlock(parts: seq<string>, n: nat, block: nat, fileSize: nat): Result<BlockSignature>
    requires Offset(n, block) <= fileSize
  {
    var _ :- Need(|parts| == 5 && parts[0] == "SIG" && Number(parts[1]) == Ok(n) && ValidHash(parts[4]));
    var size :- Number(parts[2]);
    var weak :- Number(parts[3]);
    var _ :- Need(size == BlockSize(fileSize, block, n) && weak < TWO_32);
    Ok(BlockSignature(n, weak, parts[4], size))
  }

  /** The SIG lines of blocks n, n + 1, ... of a file, taken from the front of `lines`. */
  function ParseBlocks(lines: seq<string>, n: nat, block: nat, fileSize: nat): Result<seq<BlockSignature>>
    requires block > 0 && n <= BlockCount(fileSize, block)
    decreases BlockCount(fileSize, block) - n
  {
    if n == BlockCount(fileSize, block) then Ok([])
    else
      BlockStarts(fileSize, block, n);
      var _ :- Need(lines != []);
      var b :- ParseBlock(Split(lines[0]), n, block, fileSize);
      After([b], ParseBlocks(lines[1..], n + 1, block, fileSize))
  }

  function ParseBasis(parts: seq<string>, lines: seq<string>): Result<FileSignature>
    requires |parts| == 6
  {
    var block :- Number(parts[2]);
    var _ :- Need(0 < block <= MAX_SIGNATURE_BLOCK && ValidHash(parts[4]));
    var fileSize :- Number(parts[3]);
    var count :- Number(parts[5]);
    var _ :- Need(count == BlockCount(fileSize, block) && count <= MAX_MANIFEST_ENTRIES);
    var blocks :- ParseBlocks(lines, 0, block, fileSize);
    Ok(FileSignature(block, fileSize, parts[4], blocks))
  }

  /** The request that starts on the line split into `parts`; `lines` follow it. */
  function ParseRequest(parts: seq<string>, lines: seq<string>): Result<NeedRequest> {
    var _ :- Need(|parts| >= 2 && (parts[0] == "GET" || parts[0] == "DELETE"));
    var path :- CheckedPath(parts[1]);
    if parts[0] == "DELETE" then
      var _ :- Need(|parts| == 2);
      Ok(NeedRequest(path, None, true))
    else if |parts| == 6 then
      var sig :- ParseBasis(parts, lines);
      Ok(NeedRequest(path, Some(sig), false))
    else
      var _ :- Need(|parts| == 2);
      Ok(NeedRequest(path, None, false))
  }

  /** How many SIG lines belong to a request. */
  function Followers(r: NeedRequest): nat {
    if r.basis.Some? then |r.basis.value.blocks| else 0
  }

  function ParseBody(lines: seq<string>, seen: set<string>): Result<seq<NeedRequest>>
    decreases |lines|
  {
    if lines == [] then Ok([])
    else
      var r :- ParseRequest(Split(lines[0]), lines[1..]);
      var _ :- Need(r.path !in seen && Followers(r) < |lines|);
      After([r], ParseBody(lines[1 + Followers(r)..], seen + {r.path}))
  }

  function NeedFrom(lines: seq<string>): Result<seq<NeedRequest>> {
    var _ :- Need(|lines| >= 2 && lines[|lines| - 1] == "END");
    var header := Split(lines[0]);
    var _ :- Need(|header| == 2 && header[0] == "NEED");
    var declared :- Number(header[1]);
    var _ :- Need(declared <= MAX_TRANSFER_ENTRIES);
    var requests :- ParseBody(lines[1..|lines| - 1], {});
    var _ :- Need(|requests| == declared);
    Ok(requests)
  }

  // ---------------------------------------------------------------- what is accepted

  /** A signature within the protocol's limits whose blocks tile the file. */
  ghost predicate GoodSignature(sig: FileSignature) {
    && Tiles(sig) && sig.blockSize <= MAX_SIGNATURE_BLOCK && sig.fileSize < TWO_64
    && |sig.blocks| <= MAX_MANIFEST_ENTRIES && ValidHash(sig.fileHash)
    && forall b :: b in sig.blocks ==> ValidHash(b.strong)
  }

  ghost predicate GoodRequest(r: NeedRequest) {
    && SafePath(r.path)
    && (r.basis.Some? ==> !r.deletePath && GoodSignature(r.basis.value))
  }

  ghost predicate DistinctPaths(requests: seq<NeedRequest>) {
    forall i, j :: 0 <= i < j < |requests| ==> requests[i].path != requests[j].path
  }

  ghost predicate GoodBlock(b: BlockSignature, n: nat, block: nat, fileSize: nat) {
    && b.index == n && b.weak < TWO_32 && ValidHash(b.strong)
    && Offset(n, block) < fileSize && b.size == BlockSize(fileSize, block, n)
  }

  /** A run of good blocks, the first of them block `n` of the file. */
  ghost predicate GoodRun(blocks: seq<BlockSignature>, n: nat, block: nat, fileSize: nat) {
    forall i :: 0 <= i < |blocks| ==> GoodBlock(blocks[i], n + i, block, fileSize)
  }

  lemma {:induction false} GoodRunCons(b: BlockSignature, rest: seq<BlockSignature>, n: nat, block: nat, fileSize: nat)
    ensures GoodRun([b] + rest, n, block, fileSize) <==>
            GoodBlock(b, n, block, fileSize) && GoodRun(rest, n + 1, block, fileSize)
  {
    var blocks := [b] + rest;
    if GoodRun(blocks, n, block, fileSize) {
      assert GoodBlock(blocks[0], n + 0, block, fileSize);
      forall i | 0 <= i < |rest| ensures GoodBlock(rest[i], n + 1 + i, block, fileSize) {
        assert GoodBlock(blocks[i + 1], n + (i + 1), block, fileSize);
      }
    }
    if GoodBlock(b, n, block, fileSize) && GoodRun(rest, n + 1, block, fileSize) {
      forall i | 0 <= i < |blocks| ensures GoodBlock(blocks[i], n + i, block, fileSize) {
        assert i > 0 ==> blocks[i] == rest[i - 1] && GoodBlock(rest[i - 1], n + 1 + (i - 1), block, fileSize);
      }
    }
  }

  lemma {:induction false} BlocksAccepted(lines: seq<string>, n: nat, block: nat, fileSize: nat)
    requires block > 0 && n <= BlockCount(fileSize, block)
    requires ParseBlocks(lines, n, block, fileSize).Ok?
    ensures var blocks := ParseBlocks(lines, n, block, fileSize).value;
            |blocks| == BlockCount(fileSize, block) - n <= |lines| && GoodRun(blocks, n, block, fileSize)
    decreases BlockCount(fileSize, block) - n
  {
    if n < BlockCount(fileSize, block) {
      var b, rest := FirstBlockAccepted(lines, n, block, fileSize);
      BlocksAccepted(lines[1..], n + 1, block, fileSize);
      GoodRunCons(b, rest, n, block, fileSize);
    }
  }

  lemma {:induction false} FirstBlockAccepted(lines: seq<string>, n: nat, block: nat, fileSize: nat)
    returns (b: BlockSignature, rest: seq<BlockSignature>)
    requires block > 0 && n < BlockCount(fileSize, block)
    requires ParseBlocks(lines, n, block, fileSize).Ok?
    ensures lines != [] && GoodBlock(b, n, block, fileSize)
    ensures ParseBlocks(lines[1..], n + 1, block, fileSize) == Ok(rest)
    ensures ParseBlocks(lines, n, block, fileSize).value == [b] + rest
  {
    BlockStarts(fileSize, block, n);
    b := ParseBlock(Split(lines[0]), n, block, fileSize).value;
    rest := ParseBlocks(lines[1..], n + 1, block, fileSize).value;
  }

  lemma {:induction false} BasisAccepted(parts: seq<string>, lines: seq<string>)
    requires |parts| == 6 && ParseBasis(parts, lines).Ok?
    ensures GoodSignature(ParseBasis(parts, lines).value)
    ensures |ParseBasis(parts, lines).value.blocks| <= |lines|
  {
    var sig := ParseBasis(parts, lines).value;
    BlockCountIsQuotient(sig.fileSize, sig.blockSize);
    BlocksAccepted(lines, 0, sig.blockSize, sig.fileSize);
    assert forall i :: 0 <= i < |sig.blocks| ==> GoodBlock(sig.blocks[i], i, sig.blockSize, sig.fileSize);
  }

  /**
   * Whatever the parser lets through is well formed: safe distinct paths, the declared
   * number of requests, and every signature a tiling within the limits.
   */
  lemma {:induction false} BodyAccepted(lines: seq<string>, seen: set<string>)
    requires ParseBody(lines, seen).Ok?
    ensures var requests := ParseBody(lines, seen).value;
            && (forall i :: 0 <= i < |requests| ==> GoodRequest(requests[i]) && requests[i].path !in seen)
            && DistinctPaths(requests)
    decreases |lines|
  {
    if lines != [] {
      var parts := Split(lines[0]);
      var r := ParseRequest(parts, lines[1..]).value;
      if |parts| == 6 && parts[0] == "GET" {
        BasisAccepted(parts, lines[1..]);
      }
      BodyAccepted(lines[1 + Followers(r)..], seen + {r.path});
      var requests := ParseBody(lines, seen).value;
      var rest := ParseBody(lines[1 + Followers(r)..], seen + {r.path}).value;
      assert requests == [r] + rest;
      assert forall i :: 0 < i < |requests| ==> requests[i] == rest[i - 1];
    }
  }

  lemma {:induction false} NeedAccepted(lines: seq<string>)
    requires NeedFrom(lines).Ok?
    ensures var requests := NeedFrom(lines).value;
            && |requests| <= MAX_TRANSFER_ENTRIES && DistinctPaths(requests)
            && forall i :: 0 <= i < |requests| ==> GoodRequest(requests[i])
  {
    BodyAccepted(lines[1..|lines| - 1], {});
  }

  // ---------------------------------------------------------------- round trip

  lemma {:induction false} BlockRoundTrip(b: BlockSignature, n: nat, block: nat, fileSize: nat)
    requires GoodBlock(b, n, block, fileSize) && fileSize < TWO_64 && n < TWO_64
    ensures ParseBlock(Split(Join(BlockWords(b))), n, block, fileSize) == Ok(b)
  {
    NumberDecimal(b.index);
    NumberDecimal(b.size);
    NumberDecimal(b.weak);
    HashIsWord(b.strong);
    SplitJoin(BlockWords(b));
  }

  lemma {:induction false} BlocksRoundTrip(blocks: seq<BlockSignature>, n: nat, block: nat, fileSize: nat,
      rest: seq<string>)
    requires block > 0 && fileSize < TWO_64 && BlockCount(fileSize, block) < TWO_64
    requires n + |blocks| == BlockCount(fileSize, block)
    requires GoodRun(blocks, n, block, fileSize)
    ensures |BlockLines(blocks)| == |blocks|
    ensures ParseBlocks(BlockLines(blocks) + rest, n, block, fileSize) == Ok(blocks)
  {
    if blocks != [] {
      assert [blocks[0]] + blocks[1..] == blocks;
      GoodRunCons(blocks[0], blocks[1..], n, block, fileSize);
      BlockStarts(fileSize, block, n);
      BlocksRoundTrip(blocks[1..], n + 1, block, fileSize, rest);
      BlockRoundTrip(blocks[0], n, block, fileSize);
      BlocksStep(Join(BlockWords(blocks[0])), BlockLines(blocks[1..]), rest, blocks[0], n, block, fileSize);
    }
  }

  lemma {:induction false} BlocksStep(line: string, more: seq<string>, rest: seq<string>, b: BlockSignature, n: nat,
      block: nat, fileSize: nat)
    requires block > 0 && n < BlockCount(fileSize, block) && Offset(n, block) <= fileSize
    requires ParseBlock(Split(line), n, block, fileSize) == Ok(b)
    ensures ParseBlocks([line] + more + rest, n, block, fileSize) ==
            After([b], ParseBlocks(more + rest, n + 1, block, fileSize))
  {
    assert ([line] + more + rest)[1..] == more + rest;
  }

  lemma {:induction false} SignatureRoundTrip(path: string, sig: FileSignature, rest: seq<string>)
    requires SafePath(path) && GoodSignature(sig)
    ensures ParseBasis(BasisWords(path, sig), BlockLines(sig.blocks) + rest) == Ok(sig)
    ensures |BlockLines(sig.blocks)| == |sig.blocks|
  {
    NumberDecimal(sig.blockSize);
    NumberDecimal(sig.fileSize);
    NumberDecimal(|sig.blocks|);
    BlockCountIsQuotient(sig.fileSize, sig.blockSize);
    assert GoodRun(sig.blocks, 0, sig.blockSize, sig.fileSize);
    BlocksRoundTrip(sig.blocks, 0, sig.blockSize, sig.fileSize, rest);
  }

  lemma {:induction false} HeadIsWords(r: NeedRequest)
    requires GoodRequest(r)
    ensures forall i :: 0 <= i < |HeadWords(r)| ==> Word(HeadWords(r)[i])
  {
    SafePathWord(r.path);
    VerbsAreWords();
    if r.basis.Some? {
      var sig := r.basis.value;
      NumberDecimal(sig.blockSize);
      NumberDecimal(sig.fileSize);
      NumberDecimal(|sig.blocks|);
      HashIsWord(sig.fileHash);
      SixAreWords("GET", Quote(r.path), Decimal(sig.blockSize), Decimal(sig.fileSize), sig.fileHash,
                  Decimal(|sig.blocks|));
    }
  }

  lemma {:induction false} VerbsAreWords()
    ensures Word("GET") && Word("DELETE")
  {
  }

  lemma {:induction false} SixAreWords(a: string, b: string, c: string, d: string, e: string, f: string)
    requires Word(a) && Word(b) && Word(c) && Word(d) && Word(e) && Word(f)
    ensures var words := [a, b, c, d, e, f]; forall i :: 0 <= i < |words| ==> Word(words[i])
  {
  }

  lemma {:induction false} RequestRoundTrip(r: NeedRequest, rest: seq<string>)
    requires GoodRequest(r)
    ensures |RequestLines(r)| == 1 + Followers(r)
    ensures ParseRequest(Split(RequestLines(r)[0]), RequestLines(r)[1..] + rest) == Ok(r)
  {
    HeadIsWords(r);
    SplitJoin(HeadWords(r));
    SafePathWord(r.path);
    if r.basis.Some? {
      SignatureRoundTrip(r.path, r.basis.value, rest);
      assert RequestLines(r)[1..] == BlockLines(r.basis.value.blocks);
    }
  }

  lemma {:induction false} BodyRoundTrip(requests: seq<NeedRequest>, seen: set<string>)
    requires forall i :: 0 <= i < |requests| ==> GoodRequest(requests[i]) && requests[i].path !in seen
    requires DistinctPaths(requests)
    ensures ParseBody(NeedLines(requests), seen) == Ok(requests)
  {
    if requests != [] {
      var r, tail := requests[0], NeedLines(requests[1..]);
      BodyRoundTrip(requests[1..], seen + {r.path});
      RequestRoundTrip(r, tail);
      BodyStep(RequestLines(r), tail, r, seen);
      assert [r] + requests[1..] == requests;
    }
  }

  lemma {:induction false} BodyStep(head: seq<string>, tail: seq<string>, r: NeedRequest, seen: set<string>)
    requires |head| == 1 + Followers(r) && r.path !in seen
    requires ParseRequest(Split(head[0]), head[1..] + tail) == Ok(r)
    ensures ParseBody(head + tail, seen) == After([r], ParseBody(tail, seen + {r.path}))
  {
    var lines := head + tail;
    assert lines[0] == head[0] && lines[1..] == head[1..] + tail && lines[1 + Followers(r)..] == tail;
  }

  /** The whole list: what is printed is what is parsed, request for request. */
  lemma {:induction false} NeedRoundTrip(requests: seq<NeedRequest>)
    requires |requests| <= MAX_TRANSFER_ENTRIES && DistinctPaths(requests)
    requires forall i :: 0 <= i < |requests| ==> GoodRequest(requests[i])
    ensures NeedFrom([HeaderLine(|requests|)] + NeedLines(requests) + ["END"]) == Ok(requests)
  {
    HeaderRead(|requests|);
    BodyRoundTrip(requests, {});
    FramedBody(HeaderLine(|requests|), |requests|, NeedLines(requests));
  }

  lemma {:induction false} HeaderRead(n: nat)
    requires n < TWO_64
    ensures Split(HeaderLine(n)) == ["NEED", Decimal(n)] && Number(Decimal(n)) == Ok(n)
  {
    NumberDecimal(n);
    SplitJoin(["NEED", Decimal(n)]);
  }

  lemma {:induction false} FramedBody(header: string, n: nat, body: seq<string>)
    requires |Split(header)| == 2 && Split(header)[0] == "NEED" && Number(Split(header)[1]) == Ok(n)
    requires n <= MAX_TRANSFER_ENTRIES
    requires ParseBody(body, {}).Ok? && |ParseBody(body, {}).value| == n
    ensures NeedFrom([header] + body + ["END"]) == ParseBody(body, {})
  {
    var lines := [header] + body + ["END"];
    assert lines[1..|lines| - 1] == body;
  }

  // ---------------------------------------------------------------- the parser as it runs

  /** Reads the SIG lines after line `i`; `end` is where the terminator stands. */
  method ReadSignature(lines: seq<string>, i: nat, end: nat, parts: seq<string>) returns (r: Result<FileSignature>,
      last: nat)
    requires i < end <= |lines| && |parts| == 6
    ensures r == ParseBasis(parts, lines[i + 1..end])
    ensures r.Ok? ==> last == i + |r.value.blocks| < end
  {
    last := i;
    var block := Number(parts[2]);
    if block.Err? || block.value == 0 || block.value > MAX_SIGNATURE_BLOCK || !ValidHash(parts[4]) {
      return Err, i;
    }
    var fileSize, count := Number(parts[3]), Number(parts[5]);
    if fileSize.Err? || count.Err? {
      return Err, i;
    }
    var size, b := fileSize.value, block.value;
    BlockCountIsQuotient(size, b);
    if count.value != size / b + (if size % b != 0 then 1 else 0) || count.value > MAX_MANIFEST_ENTRIES {
      return Err, i;
    }
    var blocks;
    blocks, last := ReadBlocks(lines, i, end, b, size, count.value);
    if blocks.Err? {
      return Err, i;
    }
    return Ok(FileSignature(b, size, parts[4], blocks.value)), last;
  }

  method ReadBlocks(lines: seq<string>, i: nat, end: nat, b: nat, size: nat, count: nat)
    returns (r: Result<seq<BlockSignature>>, last: nat)
    requires i < end <= |lines| && b > 0 && count == BlockCount(size, b)
    ensures r == ParseBlocks(lines[i + 1..end], 0, b, size)
    ensures r.Ok? ==> last == i + |r.value| < end
  {
    var blocks: seq<BlockSignature> := [];
    var n := 0;
    last := i;
    BlocksStart(lines, i + 1, end, b, size);
    while n < count
      invariant 0 <= n <= count
      invariant last == i + n < end && |blocks| == n
      invariant BlocksFrom(lines, i + 1, end, 0, b, size, []) == BlocksFrom(lines, last + 1, end, n, b, size, blocks)
    {
      BlockStarts(size, b, n);
      last := last + 1;
      if last >= end {
        BlocksMissing(lines, end, n, b, size, blocks);
        return Err, i;
      }
      var record := ParseBlock(Split(lines[last]), n, b, size);
      if record.Err? {
        BlocksAt(lines, last, end, n, b, size);
        return Err, i;
      }
      BlocksOnward(lines, last, end, n, b, size, blocks, record.value);
      blocks := blocks + [record.value];
      n := n + 1;
    }
    BlocksDone(lines, last + 1, end, b, size, blocks);
    return Ok(blocks), last;
  }

  lemma {:induction false} BlocksStart(lines: seq<string>, at: nat, end: nat, b: nat, size: nat)
    requires at <= end <= |lines| && b > 0
    ensures BlocksFrom(lines, at, end, 0, b, size, []) == ParseBlocks(lines[at..end], 0, b, size)
  {
    AfterAssociates<BlockSignature>([], [], ParseBlocks(lines[at..end], 0, b, size));
  }

  lemma {:induction false} BlocksMissing(lines: seq<string>, end: nat, n: nat, b: nat, size: nat,
      done: seq<BlockSignature>)
    requires end <= |lines| && b > 0 && n < BlockCount(size, b)
    ensures BlocksFrom(lines, end, end, n, b, size, done) == Err
  {
    assert lines[end..end] == [];
  }

  lemma {:induction false} BlocksDone(lines: seq<string>, at: nat, end: nat, b: nat, size: nat,
      done: seq<BlockSignature>)
    requires at <= end <= |lines| && b > 0
    ensures BlocksFrom(lines, at, end, BlockCount(size, b), b, size, done) == Ok(done)
  {
    EmptyConcat(done);
  }

  /** What reading records on from line `at` will return when `done` has been read. */
  ghost function BlocksFrom(lines: seq<string>, at: nat, end: nat, n: nat, b: nat, size: nat, done: seq<BlockSignature>)
    : Result<seq<BlockSignature>>
    requires at <= end <= |lines| && b > 0 && n <= BlockCount(size, b)
  {
    After(done, ParseBlocks(lines[at..end], n, b, size))
  }

  lemma {:induction false} BlocksOnward(lines: seq<string>, at: nat, end: nat, n: nat, b: nat, size: nat,
      done: seq<BlockSignature>, record: BlockSignature)
    requires at < end <= |lines| && b > 0 && n < BlockCount(size, b) && BlocksEnd(size, b, n) < size
    requires ParseBlock(Split(lines[at]), n, b, size) == Ok(record)
    ensures BlocksFrom(lines, at, end, n, b, size, done) ==
            BlocksFrom(lines, at + 1, end, n + 1, b, size, done + [record])
  {
    BlocksAt(lines, at, end, n, b, size);
    AfterAssociates(done, [record], ParseBlocks(lines[at + 1..end], n + 1, b, size));
  }

  /** One block record off the front of the lines still to be read. */
  lemma {:induction false} BlocksAt(lines: seq<string>, at: nat, end: nat, n: nat, b: nat, size: nat)
    requires at < end <= |lines| && b > 0 && n < BlockCount(size, b)
    requires BlocksEnd(size, b, n) < size
    ensures ParseBlocks(lines[at..end], n, b, size) ==
            match ParseBlock(Split(lines[at]), n, b, size)
            case Err => Err
            case Ok(record) => After([record], ParseBlocks(lines[at + 1..end], n + 1, b, size))
  {
    var rest := lines[at..end];
    assert rest[0] == lines[at] && rest[1..] == lines[at + 1..end];
  }

  method ReadRequest(lines: seq<string>, i: nat, end: nat) returns (r: Result<NeedRequest>, last: nat)
    requires i < end <= |lines|
    ensures r == ParseRequest(Split(lines[i]), lines[i + 1..end])
    ensures r.Ok? ==> last == i + Followers(r.value) < end
  {
    last := i;
    var parts := SplitLine(lines[i]);
    if |parts| < 2 || (parts[0] != "GET" && parts[0] != "DELETE") {
      return Err, i;
    }
    var path := CheckedPath(parts[1]);
    if path.Err? {
      return Err, i;
    }
    if parts[0] == "DELETE" {
      if |parts| != 2 {
        return Err, i;
      }
      return Ok(NeedRequest(path.value, None, true)), i;
    }
    if |parts| != 2 && |parts| != 6 {
      return Err, i;
    }
    if |parts| == 6 {
      var basis;
      basis, last := ReadSignature(lines, i, end, parts);
      if basis.Err? {
        return Err, i;
      }
      return Ok(NeedRequest(path.value, Some(basis.value), false)), last;
    }
    return Ok(NeedRequest(path.value, None, false)), i;
  }

  method ParseNeed(lines: seq<string>) returns (r: Result<seq<NeedRequest>>)
    ensures r == NeedFrom(lines)
  {
    if |lines| < 2 || lines[|lines| - 1] != "END" {
      return Err;
    }
    var header := SplitLine(lines[0]);
    if |header| != 2 || header[0] != "NEED" {
      return Err;
    }
    var declared := Number(header[1]);
    if declared.Err? || declared.value > MAX_TRANSFER_ENTRIES {
      return Err;
    }
    var body := ReadBody(lines, |lines| - 1);
    if body.Err? || |body.value| != declared.value {
      return Err;
    }
    return body;
  }

  method ReadBody(lines: seq<string>, end: nat) returns (r: Result<seq<NeedRequest>>)
    requires 1 <= end <= |lines|
    ensures r == ParseBody(lines[1..end], {})
  {
    var seen: set<string> := {};
    var result: seq<NeedRequest> := [];
    var i := 1;
    ghost var goal := ParseBody(lines[1..end], {});
    BodyBegins(lines, end);
    while i < end
      invariant 1 <= i <= end
      invariant goal == BodyFrom(lines, i, end, seen, result)
    {
      var request, next := ReadNext(lines, i, end, seen, result);
      if request.Err? {
        return Err;
      }
      seen := seen + {request.value.path};
      result := result + [request.value];
      i := next;
    }
    BodyDone(lines, end, seen, result);
    return Ok(result);
  }

  /** One request that was not seen before, and the line after it. */
  method ReadNext(lines: seq<string>, i: nat, end: nat, seen: set<string>, ghost done: seq<NeedRequest>)
    returns (r: Result<NeedRequest>, next: nat)
    requires i < end <= |lines|
    ensures r.Err? ==> BodyFrom(lines, i, end, seen, done) == Err
    ensures r.Ok? ==>
              i < next <= end &&
              BodyFrom(lines, i, end, seen, done) == BodyFrom(lines, next, end, seen + {r.value.path}, done + [r.value])
  {
    var request, last := ReadRequest(lines, i, end);
    if request.Err? || request.value.path in seen {
      BodyFails(lines, i, last, end, seen, done, request);
      return Err, i;
    }
    BodyOnward(lines, i, last, end, seen, done, request.value);
    return request, last + 1;
  }

  /** What reading on from line `i` will return when `done` has been read. */
  ghost function BodyFrom(lines: seq<string>, i: nat, end: nat, seen: set<string>, done: seq<NeedRequest>)
    : Result<seq<NeedRequest>>
    requires i <= end <= |lines|
  {
    After(done, ParseBody(lines[i..end], seen))
  }

  lemma {:induction false} BodyBegins(lines: seq<string>, end: nat)
    requires 1 <= end <= |lines|
    ensures BodyFrom(lines, 1, end, {}, []) == ParseBody(lines[1..end], {})
  {
    AfterAssociates<NeedRequest>([], [], ParseBody(lines[1..end], {}));
  }

  lemma {:induction false} BodyFails(lines: seq<string>, i: nat, last: nat, end: nat, seen: set<string>,
      done: seq<NeedRequest>, r: Result<NeedRequest>)
    requires i < end <= |lines| && r == ParseRequest(Split(lines[i]), lines[i + 1..end])
    requires r.Ok? ==> last == i + Followers(r.value) < end
    requires r.Err? || r.value.path in seen
    ensures BodyFrom(lines, i, end, seen, done) == Err
  {
    BodyAt(lines, i, last, end, seen, r);
  }

  lemma {:induction false} BodyDone(lines: seq<string>, end: nat, seen: set<string>, done: seq<NeedRequest>)
    requires end <= |lines|
    ensures BodyFrom(lines, end, end, seen, done) == Ok(done)
  {
    assert lines[end..end] == [];
    EmptyConcat(done);
  }

  lemma {:induction false} BodyOnward(lines: seq<string>, i: nat, last: nat, end: nat, seen: set<string>,
      done: seq<NeedRequest>, r: NeedRequest)
    requires i <= last < end <= |lines| && last == i + Followers(r) && r.path !in seen
    requires Ok(r) == ParseRequest(Split(lines[i]), lines[i + 1..end])
    ensures BodyFrom(lines, i, end, seen, done) == BodyFrom(lines, last + 1, end, seen + {r.path}, done + [r])
  {
    BodyAt(lines, i, last, end, seen, Ok(r));
    AfterAssociates(done, [r], ParseBody(lines[last + 1..end], seen + {r.path}));
  }

  /** One request off the front of the lines still to be read. */
  lemma {:induction false} BodyAt(lines: seq<string>, i: nat, last: nat, end: nat, seen: set<string>,
      r: Result<NeedRequest>)
    requires i < end <= |lines| && r == ParseRequest(Split(lines[i]), lines[i + 1..end])
    requires r.Ok? ==> last == i + Followers(r.value) < end
    ensures r.Err? || r.value.path in seen ==> ParseBody(lines[i..end], seen) == Err
    ensures r.Ok? && r.value.path !in seen ==>
              ParseBody(lines[i..end], seen) == After([r.value], ParseBody(lines[last + 1..end], seen + {r.value.path}))
  {
    var rest := lines[i..end];
    assert rest[0] == lines[i] && rest[1..] == lines[i + 1..end];
    if r.Ok? {
      assert rest[1 + Followers(r.value)..] == lines[last + 1..end];
    }
  }
}
