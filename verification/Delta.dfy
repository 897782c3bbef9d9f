/** Block signatures and the rolling delta between a source file and a basis file. */
module Delta {
  import opened Sequences
  import opened Wrappers
  import opened Text
  import opened Checksum
  import opened Arithmetic

  const MAX_DELTA_DATA: nat := 64 * 1024

  /**
   * The two sums of a block. The engine is verified for every 32-bit weak sum and every
   * strong digest; `Adler` is the pairing that the program uses.
   */
  datatype Sums = Sums(weak: seq<byte> -> nat, strong: seq<byte> -> string) {
    ghost predicate Fits() {
      forall data :: weak(data) < TWO_32
    }
  }

  function Adler(sha256: seq<byte> -> string): Sums {
    Sums(Weak, sha256)
  }

  lemma {:induction false} AdlerFits(sha256: seq<byte> -> string)
    ensures Adler(sha256).Fits()
  {
    forall data ensures Adler(sha256).weak(data) < TWO_32 {
      HalvesRecoverable(data);
    }
  }

  datatype BlockSignature = BlockSignature(index: nat, weak: nat, strong: string, size: nat)

  datatype FileSignature = FileSignature(blockSize: nat, fileSize: nat, fileHash: string, blocks: seq<BlockSignature>)

  datatype Operation = Copy(offset: nat, size: nat) | Data(data: seq<byte>)

  function Min(a: nat, b: nat): nat {
    if a <= b then a else b
  }

  // ---------------------------------------------------------------- signatures

  /** The number of blocks a file of `size` bytes is cut into. */
  function BlockCount(size: nat, blockSize: nat): nat
    requires blockSize > 0
  {
    if size == 0 then 0 else if size <= blockSize then 1 else 1 + BlockCount(size - blockSize, blockSize)
  }

  /** Where block `i` starts. */
  function Offset(i: nat, blockSize: nat): nat {
    if i == 0 then 0 else Offset(i - 1, blockSize) + blockSize
  }

  /** The length of block `i`. */
  function BlockSize(size: nat, blockSize: nat, i: nat): nat
    requires Offset(i, blockSize) <= size
  {
    Min(blockSize, size - Offset(i, blockSize))
  }

  /** The source's own arithmetic for both: a multiplication and a rounded-up division. */
  lemma {:induction false} OffsetIsProduct(i: nat, blockSize: nat)
    ensures Offset(i, blockSize) == i * blockSize
  {
    if i > 0 {
      OffsetIsProduct(i - 1, blockSize);
      assert i * blockSize == (i - 1) * blockSize + blockSize;
    }
  }

  lemma {:induction false} BlockCountIsQuotient(size: nat, blockSize: nat)
    requires blockSize > 0
    ensures BlockCount(size, blockSize) == size / blockSize + if size % blockSize != 0 then 1 else 0
  {
    if size > blockSize {
      BlockCountIsQuotient(size - blockSize, blockSize);
      DivisionStep(size, blockSize);
    } else if size == blockSize {
      DivisionStep(size, blockSize);
    }
  }

  lemma {:induction false} BlockStarts(size: nat, blockSize: nat, i: nat)
    requires blockSize > 0
    ensures i < BlockCount(size, blockSize) <==> Offset(i, blockSize) < size
  {
    if i > 0 && size > blockSize {
      BlockStarts(size - blockSize, blockSize, i - 1);
      OffsetShift(i, blockSize);
    } else if i > 0 {
      OffsetShift(i, blockSize);
    }
  }

  lemma {:induction false} OffsetShift(i: nat, blockSize: nat)
    requires i > 0
    ensures Offset(i, blockSize) == blockSize + Offset(i - 1, blockSize)
  {
  }

  function BlockAt(data: seq<byte>, blockSize: nat, i: nat): (block: seq<byte>)
    requires blockSize > 0 && i < BlockCount(|data|, blockSize)
    ensures 0 < |block| <= blockSize
  {
    BlockStarts(|data|, blockSize, i);
    data[Offset(i, blockSize)..Offset(i, blockSize) + BlockSize(|data|, blockSize, i)]
  }

  /** The signature of a file: one record per block, the index kept in 32 bits. */
  function Signature(h: Sums, data: seq<byte>, blockSize: nat): FileSignature
    requires blockSize > 0
  {
    var n := BlockCount(|data|, blockSize);
    FileSignature(blockSize, |data|, h.strong(data),
                  seq(n, i requires 0 <= i < n => BlockRecord(h, data, blockSize, i)))
  }

  function BlockRecord(h: Sums, data: seq<byte>, blockSize: nat, i: nat): BlockSignature
    requires blockSize > 0 && i < BlockCount(|data|, blockSize)
  {
    RecordOf(h, Wrap32(i), BlockAt(data, blockSize, i))
  }

  /** Conversion to a 32-bit unsigned integer. */
  function Wrap32(n: nat): nat {
    if n < TWO_32 then n else n % TWO_32
  }

  /** Unsigned 64-bit arithmetic. */
  function Wrap64(n: int): nat {
    n % TWO_64
  }

  /** A parser that computes where block n starts, and how long it is, in 64 bits never wraps. */
  lemma {:induction false} ParserArithmetic(fileSize: nat, block: nat, n: nat)
    requires 0 < block && fileSize < TWO_64
    requires n < fileSize / block + if fileSize % block != 0 then 1 else 0
    ensures Wrap64(n * block) == Offset(n, block) < fileSize
    ensures Min(block, Wrap64(fileSize - Wrap64(n * block))) == BlockSize(fileSize, block, n)
  {
    BlockCountIsQuotient(fileSize, block);
    BlockStarts(fileSize, block, n);
    OffsetIsProduct(n, block);
    SmallStays(Offset(n, block));
    SmallStays(fileSize - Offset(n, block));
  }

  lemma {:induction false} SmallStays(n: nat)
    requires n < TWO_64
    ensures Wrap64(n) == n
  {
  }

  function RecordOf(h: Sums, index: nat, block: seq<byte>): BlockSignature {
    BlockSignature(index, h.weak(block), h.strong(block), |block|)
  }

  /** Where the first n blocks of a file end. */
  function BlocksEnd(size: nat, blockSize: nat, n: nat): nat {
    Min(Offset(n, blockSize), size)
  }

  lemma {:induction false} NextBlock(h: Sums, data: seq<byte>, blockSize: nat, n: nat)
    requires blockSize > 0
    requires n <= BlockCount(|data|, blockSize) && BlocksEnd(|data|, blockSize, n) < |data|
    ensures n < BlockCount(|data|, blockSize)
    ensures var start := BlocksEnd(|data|, blockSize, n);
            var size := Min(blockSize, |data| - start);
            && BlocksEnd(|data|, blockSize, n + 1) == start + size
            && BlockRecord(h, data, blockSize, n) == RecordOf(h, Wrap32(n), data[start..start + size])
            && (size != blockSize ==> start + size == |data|)
  {
    BlockStarts(|data|, blockSize, n);
  }

  lemma {:induction false} BlocksEndWhole(size: nat, blockSize: nat, n: nat)
    requires blockSize > 0 && n <= BlockCount(size, blockSize)
    ensures BlocksEnd(size, blockSize, n) == size <==> n == BlockCount(size, blockSize)
  {
    BlockStarts(size, blockSize, n);
  }

  lemma {:induction false} IndexWraps(n: nat)
    ensures Wrap32(Wrap32(n) + 1) == Wrap32(n + 1)
  {
  }

  /** Reads the file block by block; a zero block size is refused. */
  method CreateSignature(h: Sums, data: seq<byte>, blockSize: nat) returns (r: Result<FileSignature>)
    ensures r == if blockSize == 0 then Err else Ok(Signature(h, data, blockSize))
  {
    if blockSize == 0 {
      return Err;
    }
    var blocks: seq<BlockSignature> := [];
    var fileSize, index := 0, 0;
    ghost var n := 0;
    while fileSize < |data|
      invariant 0 <= n <= BlockCount(|data|, blockSize)
      invariant fileSize == BlocksEnd(|data|, blockSize, n)
      invariant index == Wrap32(n)
      invariant |blocks| == n
      invariant forall i :: 0 <= i < n ==> blocks[i] == BlockRecord(h, data, blockSize, i)
    {
      NextBlock(h, data, blockSize, n);
      var size := Min(blockSize, |data| - fileSize);
      var block := data[fileSize..fileSize + size];
      blocks := blocks + [BlockSignature(index, h.weak(block), h.strong(block), size)];
      IndexWraps(n);
      index := Wrap32(index + 1);
      n := n + 1;
      fileSize := fileSize + size;
      if size != blockSize {
        break;
      }
    }
    BlocksEndWhole(|data|, blockSize, n);
    assert blocks == Signature(h, data, blockSize).blocks;
    return Ok(FileSignature(blockSize, fileSize, h.strong(data), blocks));
  }

  // ---------------------------------------------------------------- tiling

  /**
   * The blocks of a signature are consecutive, disjoint and non-empty pieces of
   * [0, fileSize): block i starts at i * blockSize and only the last may be short.
   */
  ghost predicate Tiles(sig: FileSignature) {
    && 0 < sig.blockSize < TWO_32
    && |sig.blocks| == BlockCount(sig.fileSize, sig.blockSize)
    && forall i :: 0 <= i < |sig.blocks| ==>
         && sig.blocks[i].index == i
         && sig.blocks[i].weak < TWO_32
         && Offset(i, sig.blockSize) < sig.fileSize
         && sig.blocks[i].size == BlockSize(sig.fileSize, sig.blockSize, i)
  }

  /** A signature tiles its file exactly when every block index fits the 32 bits it is kept in. */
  lemma {:induction false} SignatureTiles(h: Sums, data: seq<byte>, blockSize: nat)
    requires h.Fits()
    requires 0 < blockSize < TWO_32
    ensures Tiles(Signature(h, data, blockSize)) <==> BlockCount(|data|, blockSize) <= TWO_32
  {
    var sig := Signature(h, data, blockSize);
    if BlockCount(|data|, blockSize) <= TWO_32 {
      forall i | 0 <= i < |sig.blocks|
        ensures sig.blocks[i].index == i && sig.blocks[i].weak < TWO_32
        ensures Offset(i, blockSize) < |data| && sig.blocks[i].size == BlockSize(|data|, blockSize, i)
      {
        BlockStarts(|data|, blockSize, i);
        assert sig.blocks[i] == BlockRecord(h, data, blockSize, i);
      }
    } else {
      assert sig.blocks[TWO_32] == BlockRecord(h, data, blockSize, TWO_32);
      assert sig.blocks[TWO_32].index == 0;
    }
  }

  /** Every block of a tiling passes the receiver's bounds check on a COPY of that block. */
  lemma {:induction false} TileBounds(sig: FileSignature, b: BlockSignature)
    requires Tiles(sig) && b in sig.blocks
    ensures 0 < b.size <= sig.blockSize
    ensures Offset(b.index, sig.blockSize) + b.size <= sig.fileSize
  {
    var i :| 0 <= i < |sig.blocks| && sig.blocks[i] == b;
    assert sig.blocks[i].index == i;
  }

  /** The offset of a COPY, a 64-bit product of the index and the block size, never wraps either. */
  lemma {:induction false} CopyArithmetic(sig: FileSignature, b: BlockSignature)
    requires Tiles(sig) && sig.fileSize < TWO_64 && b in sig.blocks
    ensures Wrap64(b.index * sig.blockSize) == Offset(b.index, sig.blockSize)
  {
    TileBounds(sig, b);
    OffsetIsProduct(b.index, sig.blockSize);
    SmallStays(Offset(b.index, sig.blockSize));
  }

  // ---------------------------------------------------------------- block lookup

  predicate Matches(b: BlockSignature, weak: nat, size: nat, strong: string) {
    b.weak == weak && b.size == size && b.strong == strong
  }

  /** The first block, in file order, whose size, weak and strong sums all agree. */
  function FirstMatch(blocks: seq<BlockSignature>, weak: nat, size: nat, strong: string): (r: Option<BlockSignature>)
    ensures r.Some? ==> r.value in blocks && Matches(r.value, weak, size, strong)
    ensures r.None? ==> forall b :: b in blocks ==> !Matches(b, weak, size, strong)
  {
    if blocks == [] then None
    else if Matches(blocks[0], weak, size, strong) then Some(blocks[0])
    else FirstMatch(blocks[1..], weak, size, strong)
  }

  function Lookup(h: Sums, sig: FileSignature, window: seq<byte>): Option<BlockSignature> {
    FirstMatch(sig.blocks, h.weak(window), |window|, h.strong(window))
  }

  /** The packed 64-bit hash key: the weak sum above 32 bits of size. */
  function Key(weak: nat, size: nat): nat {
    weak * TWO_32 + size
  }

  function WithKey(blocks: seq<BlockSignature>, key: nat): seq<BlockSignature> {
    if blocks == [] then []
    else if Key(blocks[0].weak, blocks[0].size) == key then [blocks[0]] + WithKey(blocks[1..], key)
    else WithKey(blocks[1..], key)
  }

  function FirstStrong(blocks: seq<BlockSignature>, strong: string): Option<BlockSignature> {
    if blocks == [] then None
    else if blocks[0].strong == strong then Some(blocks[0])
    else FirstStrong(blocks[1..], strong)
  }

  lemma {:induction false} WithKeyAppend(blocks: seq<BlockSignature>, b: BlockSignature, key: nat)
    ensures WithKey(blocks + [b], key) ==
            WithKey(blocks, key) + if Key(b.weak, b.size) == key then [b] else []
  {
    if blocks == [] {
      assert blocks + [b] == [b];
    } else {
      WithKeyAppend(blocks[1..], b, key);
      assert (blocks + [b])[1..] == blocks[1..] + [b];
    }
  }

  /** Looking only at the blocks under the window's key loses no match and keeps the order. */
  lemma {:induction false} KeyedLookup(blocks: seq<BlockSignature>, weak: nat, size: nat, strong: string)
    requires size < TWO_32
    requires forall b :: b in blocks ==> b.size < TWO_32
    ensures FirstStrong(WithKey(blocks, Key(weak, size)), strong) == FirstMatch(blocks, weak, size, strong)
  {
    if blocks != [] {
      KeyedLookup(blocks[1..], weak, size, strong);
      assert blocks[0].size < TWO_32;
      var rest := WithKey(blocks[1..], Key(weak, size));
      assert ([blocks[0]] + rest)[1..] == rest;
    }
  }

  // ---------------------------------------------------------------- the operations of a delta

  function Window(sig: FileSignature, rest: seq<byte>): seq<byte> {
    rest[..Min(sig.blockSize, |rest|)]
  }

  function Flush(pending: seq<byte>): seq<Operation> {
    if pending == [] then [] else [Data(pending)]
  }

  /** The operations still to come when `rest` is unread and `pending` is collected but not sent. */
  function Operations(h: Sums, sig: FileSignature, rest: seq<byte>, pending: seq<byte>): seq<Operation>
    requires sig.blockSize > 0
    decreases |rest|
  {
    if rest == [] then Flush(pending)
    else
      match Lookup(h, sig, Window(sig, rest))
      case Some(b) =>
        Flush(pending) + [Copy(Offset(b.index, sig.blockSize), b.size)]
        + Operations(h, sig, rest[|Window(sig, rest)|..], [])
      case None =>
        var collected := pending + [rest[0]];
        if |collected| == MAX_DELTA_DATA then [Data(collected)] + Operations(h, sig, rest[1..], [])
        else Operations(h, sig, rest[1..], collected)
  }

  /** Before a match, what is pending goes out first. */
  lemma {:induction false} FlushFirst(h: Sums, sig: FileSignature, rest: seq<byte>, pending: seq<byte>)
    requires sig.blockSize > 0 && rest != [] && Lookup(h, sig, Window(sig, rest)).Some?
    ensures Operations(h, sig, rest, pending) == Flush(pending) + Operations(h, sig, rest, [])
  {
    var b := Lookup(h, sig, Window(sig, rest)).value;
    var copy, tail := [Copy(Offset(b.index, sig.blockSize), b.size)],
                      Operations(h, sig, rest[|Window(sig, rest)|..], []);
    EmptyConcat(copy);
    Associate(Flush(pending), copy, tail);
  }

  lemma {:induction false} CopyNext(h: Sums, sig: FileSignature, rest: seq<byte>, b: BlockSignature)
    requires sig.blockSize > 0 && rest != [] && Lookup(h, sig, Window(sig, rest)) == Some(b)
    ensures Operations(h, sig, rest, [])
         == [Copy(Offset(b.index, sig.blockSize), b.size)] + Operations(h, sig, rest[|Window(sig, rest)|..], [])
  {
    EmptyConcat([Copy(Offset(b.index, sig.blockSize), b.size)]);
  }

  lemma {:induction false} CollectNext(h: Sums, sig: FileSignature, rest: seq<byte>, pending: seq<byte>)
    requires sig.blockSize > 0 && rest != [] && Lookup(h, sig, Window(sig, rest)) == None
    ensures var collected := pending + [rest[0]];
            Operations(h, sig, rest, pending) ==
            if |collected| == MAX_DELTA_DATA then [Data(collected)] + Operations(h, sig, rest[1..], [])
            else Operations(h, sig, rest[1..], collected)
  {
  }

  /** What a consumer holding the basis makes of a list of operations. */
  function Rebuild(basis: seq<byte>, ops: seq<Operation>): Result<seq<byte>> {
    if ops == [] then Ok([])
    else
      match ops[0]
      case Data(data) => After(data, Rebuild(basis, ops[1..]))
      case Copy(offset, size) =>
        if offset + size > |basis| then Err
        else After(basis[offset..offset + size], Rebuild(basis, ops[1..]))
  }

  /** No piece of one file has the digest of a different piece of the other. */
  ghost predicate NoCollision(h: Sums, basis: seq<byte>, source: seq<byte>) {
    forall i, j, m, n ::
      0 <= i <= j <= |basis| && 0 <= m <= n <= |source| && h.strong(basis[i..j]) == h.strong(source[m..n]) ==>
        basis[i..j] == source[m..n]
  }

  lemma {:induction false} RebuildAppend(basis: seq<byte>, a: seq<Operation>, b: seq<Operation>)
    ensures Rebuild(basis, a + b) ==
            match Rebuild(basis, a) { case Ok(done) => After(done, Rebuild(basis, b)) case Err => Err }
  {
    if a == [] {
      assert a + b == b;
      AfterAssociates<byte>([], [], Rebuild(basis, b));
    } else {
      RebuildAppend(basis, a[1..], b);
      assert (a + b)[1..] == a[1..] + b;
      if Rebuild(basis, a).Ok? {
        var piece := if a[0].Data? then a[0].data else basis[a[0].offset..a[0].offset + a[0].size];
        AfterAssociates(piece, Rebuild(basis, a[1..]).value, Rebuild(basis, b));
      }
    }
  }

  lemma {:induction false} RebuildOne(basis: seq<byte>, op: Operation)
    ensures op.Data? ==> Rebuild(basis, [op]) == Ok(op.data)
    ensures op.Copy? && op.offset + op.size <= |basis| ==>
              Rebuild(basis, [op]) == Ok(basis[op.offset..op.offset + op.size])
  {
    assert forall s: seq<byte> :: s + [] == s;
  }

  ghost predicate PieceAt(basis: seq<byte>, offset: nat, size: nat, piece: seq<byte>) {
    offset + size <= |basis| && basis[offset..offset + size] == piece
  }

  /** No earlier block of the file has the bytes of block `i`. */
  ghost predicate FirstOfItsBytes(data: seq<byte>, blockSize: nat, i: nat)
    requires blockSize > 0 && i < BlockCount(|data|, blockSize)
  {
    forall j :: 0 <= j < i ==> BlockAt(data, blockSize, j) != BlockAt(data, blockSize, i)
  }

  /** The bytes of block `i` stand where its 32-bit index says that the block starts. */
  ghost predicate Home(data: seq<byte>, blockSize: nat, i: nat)
    requires blockSize > 0 && i < BlockCount(|data|, blockSize)
  {
    PieceAt(data, Offset(Wrap32(i), blockSize), |BlockAt(data, blockSize, i)|, BlockAt(data, blockSize, i))
  }

  /** The condition under which a file serves as the basis of every delta. */
  ghost predicate WrapsHome(data: seq<byte>, blockSize: nat)
    requires blockSize > 0
  {
    forall i :: TWO_32 <= i < BlockCount(|data|, blockSize) && FirstOfItsBytes(data, blockSize, i) ==>
      Home(data, blockSize, i)
  }

  lemma {:induction false} FewBlocksWrapHome(data: seq<byte>, blockSize: nat)
    requires blockSize > 0 && BlockCount(|data|, blockSize) <= TWO_32
    ensures WrapsHome(data, blockSize)
  {
  }

  lemma {:induction false} SmallIndexHome(data: seq<byte>, blockSize: nat, i: nat)
    requires blockSize > 0 && i < BlockCount(|data|, blockSize) && i < TWO_32
    ensures Home(data, blockSize, i)
  {
    BlockStarts(|data|, blockSize, i);
  }

  /** Past 2^32 only the short last block can be at home, as a prefix of the block it wraps to. */
  lemma {:induction false} OnlyLastWraps(data: seq<byte>, blockSize: nat, i: nat)
    requires blockSize > 0 && TWO_32 <= i < BlockCount(|data|, blockSize) && FirstOfItsBytes(data, blockSize, i)
    ensures Home(data, blockSize, i) <==>
            |BlockAt(data, blockSize, i)| < blockSize
            && BlockAt(data, blockSize, i) <= BlockAt(data, blockSize, Wrap32(i))
  {
    var block, j := BlockAt(data, blockSize, i), Wrap32(i);
    BlockStarts(|data|, blockSize, i);
    OffsetOrder(j, i, blockSize);
    BlockStarts(|data|, blockSize, j);
    var other := BlockAt(data, blockSize, j);
    assert |other| == blockSize && other != block;
    assert data[Offset(j, blockSize)..Offset(j, blockSize) + |block|] == other[..|block|];
    assert other[..|other|] == other;
  }

  lemma {:induction false} OffsetOrder(j: nat, i: nat, blockSize: nat)
    requires j < i
    ensures Offset(j, blockSize) + blockSize <= Offset(i, blockSize)
  {
    if j + 1 < i {
      OffsetOrder(j, i - 1, blockSize);
    }
  }

  /** Where in the list the found record stands: nothing before it matches. */
  lemma {:induction false} FirstMatchAt(blocks: seq<BlockSignature>, weak: nat, size: nat, strong: string)
      returns (i: nat)
    requires FirstMatch(blocks, weak, size, strong).Some?
    ensures i < |blocks| && blocks[i] == FirstMatch(blocks, weak, size, strong).value
    ensures forall j :: 0 <= j < i ==> !Matches(blocks[j], weak, size, strong)
  {
    if Matches(blocks[0], weak, size, strong) {
      i := 0;
    } else {
      var k := FirstMatchAt(blocks[1..], weak, size, strong);
      i := k + 1;
      forall j | 0 <= j < i ensures !Matches(blocks[j], weak, size, strong) {
        assert j > 0 ==> blocks[j] == blocks[1..][j - 1];
      }
    }
  }

  /** A found window is, byte for byte, some block of the basis, and the first with those bytes. */
  lemma {:induction false} FoundBlock(h: Sums, basis: seq<byte>, blockSize: nat, source: seq<byte>, k: nat, n: nat)
      returns (i: nat)
    requires 0 < blockSize && NoCollision(h, basis, source) && k <= n <= |source|
    requires Lookup(h, Signature(h, basis, blockSize), source[k..n]).Some?
    ensures i < BlockCount(|basis|, blockSize)
    ensures Lookup(h, Signature(h, basis, blockSize), source[k..n]).value == BlockRecord(h, basis, blockSize, i)
    ensures BlockAt(basis, blockSize, i) == source[k..n] && FirstOfItsBytes(basis, blockSize, i)
  {
    i := FoundRecord(h, basis, blockSize, source[k..n]);
    BlockIsPiece(h, basis, blockSize, i, source, k, n);
  }

  lemma {:induction false} BlockIsPiece(h: Sums, basis: seq<byte>, blockSize: nat, i: nat, source: seq<byte>, k: nat,
      n: nat)
    requires 0 < blockSize && NoCollision(h, basis, source) && k <= n <= |source|
    requires i < BlockCount(|basis|, blockSize) && h.strong(BlockAt(basis, blockSize, i)) == h.strong(source[k..n])
    ensures BlockAt(basis, blockSize, i) == source[k..n]
  {
    BlockBytes(basis, blockSize, i);
    SameDigest(h, basis, Offset(i, blockSize), Offset(i, blockSize) + |BlockAt(basis, blockSize, i)|, source, k, n);
  }

  /** The found record is that of the first block whose three sums agree with the window. */
  lemma {:induction false} FoundRecord(h: Sums, basis: seq<byte>, blockSize: nat, w: seq<byte>) returns (i: nat)
    requires 0 < blockSize && Lookup(h, Signature(h, basis, blockSize), w).Some?
    ensures i < BlockCount(|basis|, blockSize)
    ensures Lookup(h, Signature(h, basis, blockSize), w).value == BlockRecord(h, basis, blockSize, i)
    ensures |BlockAt(basis, blockSize, i)| == |w| && h.strong(BlockAt(basis, blockSize, i)) == h.strong(w)
    ensures FirstOfItsBytes(basis, blockSize, i)
  {
    var blocks := Signature(h, basis, blockSize).blocks;
    i := FirstMatchAt(blocks, h.weak(w), |w|, h.strong(w));
    assert blocks[i] == BlockRecord(h, basis, blockSize, i);
    forall j | 0 <= j < i ensures BlockAt(basis, blockSize, j) != BlockAt(basis, blockSize, i) {
      assert blocks[j] == BlockRecord(h, basis, blockSize, j);
    }
  }

  /** A matched window is, byte for byte, the basis block that the COPY names. */
  lemma {:induction false} MatchIsBlock(h: Sums, basis: seq<byte>, blockSize: nat, source: seq<byte>, k: nat, n: nat)
    requires 0 < blockSize && WrapsHome(basis, blockSize)
    requires NoCollision(h, basis, source)
    requires k <= n <= |source|
    requires Lookup(h, Signature(h, basis, blockSize), source[k..n]).Some?
    ensures var b := Lookup(h, Signature(h, basis, blockSize), source[k..n]).value;
            PieceAt(basis, Offset(b.index, blockSize), b.size, source[k..n])
  {
    var i := FoundBlock(h, basis, blockSize, source, k, n);
    if i < TWO_32 {
      SmallIndexHome(basis, blockSize, i);
    }
    assert Home(basis, blockSize, i);
  }

  lemma {:induction false} SameDigest(h: Sums, basis: seq<byte>, i: nat, j: nat, source: seq<byte>, m: nat, n: nat)
    requires NoCollision(h, basis, source)
    requires i <= j <= |basis| && m <= n <= |source| && h.strong(basis[i..j]) == h.strong(source[m..n])
    ensures basis[i..j] == source[m..n]
  {
  }

  /**
   * The delta round trip: applying the operations to the basis gives exactly the bytes
   * that had been collected followed by the bytes that had not been read.
   */
  lemma {:induction false} OperationsRebuild(h: Sums, basis: seq<byte>, blockSize: nat, source: seq<byte>, k: nat,
      pending: seq<byte>)
    requires 0 < blockSize && WrapsHome(basis, blockSize)
    requires NoCollision(h, basis, source)
    requires k <= |source|
    ensures Rebuild(basis, Operations(h, Signature(h, basis, blockSize), source[k..], pending)) ==
            Ok(pending + source[k..])
    decreases |source| - k
  {
    var sig, rest := Signature(h, basis, blockSize), source[k..];
    if rest == [] {
      RebuildFlush(basis, pending);
      EmptyConcat(pending);
    } else {
      var w := Window(sig, rest);
      match Lookup(h, sig, w)
      case Some(b) =>
        WindowIs(sig, source, k);
        MatchIsBlock(h, basis, blockSize, source, k, k + |w|);
        OperationsRebuild(h, basis, blockSize, source, k + |w|, []);
        RebuildMatch(h, basis, sig, source, k, pending, b, w);
      case None =>
        assert rest[1..] == source[k + 1..];
        RebuildCollect(h, basis, sig, source, k, pending);
        if |pending| + 1 == MAX_DELTA_DATA {
          OperationsRebuild(h, basis, blockSize, source, k + 1, []);
        } else {
          OperationsRebuild(h, basis, blockSize, source, k + 1, pending + [rest[0]]);
        }
    }
  }

  lemma {:induction false} RebuildMatch(h: Sums, basis: seq<byte>, sig: FileSignature, source: seq<byte>, k: nat,
      pending: seq<byte>, b: BlockSignature, w: seq<byte>)
    requires sig.blockSize > 0 && k < |source| && w == Window(sig, source[k..]) && k + |w| <= |source|
    requires Lookup(h, sig, w) == Some(b) && PieceAt(basis, Offset(b.index, sig.blockSize), b.size, w)
    requires w == source[k..k + |w|]
    requires Rebuild(basis, Operations(h, sig, source[k + |w|..], [])) == Ok([] + source[k + |w|..])
    ensures Rebuild(basis, Operations(h, sig, source[k..], pending)) == Ok(pending + source[k..])
  {
    WindowSplits(source, k, |w|);
    OperationsMatch(h, sig, source[k..], pending, b);
    RebuildCopy(basis, pending, Copy(Offset(b.index, sig.blockSize), b.size), w,
                Operations(h, sig, source[k + |w|..], []), source[k + |w|..]);
  }

  /** The delta of `source` against `basis` brings the source back. */
  ghost predicate RoundTrips(h: Sums, basis: seq<byte>, blockSize: nat, source: seq<byte>)
    requires blockSize > 0
  {
    Rebuild(basis, Operations(h, Signature(h, basis, blockSize), source, [])) == Ok(source)
  }

  ghost predicate AlwaysRoundTrips(h: Sums, basis: seq<byte>, blockSize: nat)
    requires blockSize > 0
  {
    forall source :: NoCollision(h, basis, source) ==> RoundTrips(h, basis, blockSize, source)
  }

  /**
   * Exactly when the round trip works: for every source, if and only if each block that is the
   * first of its bytes at an index past 32 bits also stands at the offset of its wrapped index.
   */
  lemma {:induction false} RoundTripsIff(h: Sums, basis: seq<byte>, blockSize: nat)
    requires 0 < blockSize && NoCollision(h, basis, basis)
    ensures AlwaysRoundTrips(h, basis, blockSize) <==> WrapsHome(basis, blockSize)
  {
    if WrapsHome(basis, blockSize) {
      forall source | NoCollision(h, basis, source) ensures RoundTrips(h, basis, blockSize, source) {
        WholeSource(h, basis, blockSize, source);
      }
    }
    if AlwaysRoundTrips(h, basis, blockSize) {
      forall i | TWO_32 <= i < BlockCount(|basis|, blockSize) && FirstOfItsBytes(basis, blockSize, i)
        ensures Home(basis, blockSize, i)
      {
        BlockComesHome(h, basis, blockSize, i);
      }
    }
  }

  lemma {:induction false} WholeSource(h: Sums, basis: seq<byte>, blockSize: nat, source: seq<byte>)
    requires 0 < blockSize && WrapsHome(basis, blockSize) && NoCollision(h, basis, source)
    ensures RoundTrips(h, basis, blockSize, source)
  {
    OperationsRebuild(h, basis, blockSize, source, 0, []);
    assert source[0..] == source && [] + source == source;
  }

  lemma {:induction false} BlockComesHome(h: Sums, basis: seq<byte>, blockSize: nat, i: nat)
    requires 0 < blockSize && NoCollision(h, basis, basis) && AlwaysRoundTrips(h, basis, blockSize)
    requires i < BlockCount(|basis|, blockSize) && FirstOfItsBytes(basis, blockSize, i)
    ensures Home(basis, blockSize, i)
  {
    BlockNoCollision(h, basis, blockSize, i);
    ThisRoundTrips(h, basis, blockSize, BlockAt(basis, blockSize, i));
    BlockDelta(h, basis, blockSize, i);
  }

  lemma {:induction false} BlockNoCollision(h: Sums, basis: seq<byte>, blockSize: nat, i: nat)
    requires 0 < blockSize && NoCollision(h, basis, basis) && i < BlockCount(|basis|, blockSize)
    ensures NoCollision(h, basis, BlockAt(basis, blockSize, i))
  {
    BlockBytes(basis, blockSize, i);
    PieceNoCollision(h, basis, Offset(i, blockSize), |BlockAt(basis, blockSize, i)|);
  }

  lemma {:induction false} ThisRoundTrips(h: Sums, basis: seq<byte>, blockSize: nat, source: seq<byte>)
    requires 0 < blockSize && AlwaysRoundTrips(h, basis, blockSize) && NoCollision(h, basis, source)
    ensures RoundTrips(h, basis, blockSize, source)
  {
  }

  lemma {:induction false} BlockBytes(data: seq<byte>, blockSize: nat, i: nat)
    requires blockSize > 0 && i < BlockCount(|data|, blockSize)
    ensures PieceAt(data, Offset(i, blockSize), |BlockAt(data, blockSize, i)|, BlockAt(data, blockSize, i))
  {
    BlockStarts(|data|, blockSize, i);
  }

  lemma {:induction false} PieceNoCollision(h: Sums, basis: seq<byte>, offset: nat, size: nat)
    requires NoCollision(h, basis, basis) && offset + size <= |basis|
    ensures NoCollision(h, basis, basis[offset..offset + size])
  {
    var piece := basis[offset..offset + size];
    forall i, j, m, n | 0 <= i <= j <= |basis| && 0 <= m <= n <= |piece|
                        && h.strong(basis[i..j]) == h.strong(piece[m..n])
      ensures basis[i..j] == piece[m..n]
    {
      SliceOfSlice(basis, offset, size, m, n);
      SameDigest(h, basis, i, j, basis, offset + m, offset + n);
    }
  }

  lemma {:induction false} SliceOfSlice(s: seq<byte>, offset: nat, size: nat, m: nat, n: nat)
    requires offset + size <= |s| && m <= n <= size
    ensures s[offset..offset + size][m..n] == s[offset + m..offset + n]
  {
    var a, b := s[offset..offset + size][m..n], s[offset + m..offset + n];
    assert |a| == |b|;
    forall k | 0 <= k < |a| ensures a[k] == b[k] {
      assert a[k] == s[offset..offset + size][m + k];
    }
  }

  /** The delta of a block that is the first of its bytes copies from the wrapped index. */
  lemma {:induction false} BlockDelta(h: Sums, basis: seq<byte>, blockSize: nat, i: nat)
    requires 0 < blockSize && i < BlockCount(|basis|, blockSize) && FirstOfItsBytes(basis, blockSize, i)
    requires NoCollision(h, basis, BlockAt(basis, blockSize, i))
    ensures var block := BlockAt(basis, blockSize, i);
            && Operations(h, Signature(h, basis, blockSize), block, []) ==
               [Copy(Offset(Wrap32(i), blockSize), |block|)]
            && (RoundTrips(h, basis, blockSize, block) <==> Home(basis, blockSize, i))
  {
    var block, sig := BlockAt(basis, blockSize, i), Signature(h, basis, blockSize);
    BlockFound(h, basis, blockSize, i);
    OneCopy(h, sig, block, BlockRecord(h, basis, blockSize, i));
    RebuildsIff(basis, Offset(Wrap32(i), blockSize), block);
  }

  lemma {:induction false} BlockFound(h: Sums, basis: seq<byte>, blockSize: nat, i: nat)
    requires 0 < blockSize && i < BlockCount(|basis|, blockSize) && FirstOfItsBytes(basis, blockSize, i)
    requires NoCollision(h, basis, BlockAt(basis, blockSize, i))
    ensures Lookup(h, Signature(h, basis, blockSize), BlockAt(basis, blockSize, i)) ==
            Some(BlockRecord(h, basis, blockSize, i))
  {
    var block := BlockAt(basis, blockSize, i);
    assert block[0..|block|] == block;
    BlockAlwaysFound(h, basis, blockSize, i);
    var k := FoundBlock(h, basis, blockSize, block, 0, |block|);
    assert k == i;
  }

  lemma {:induction false} OneCopy(h: Sums, sig: FileSignature, block: seq<byte>, b: BlockSignature)
    requires 0 < |block| <= sig.blockSize && Lookup(h, sig, block) == Some(b)
    ensures Operations(h, sig, block, []) == [Copy(Offset(b.index, sig.blockSize), b.size)]
  {
    assert Window(sig, block) == block && block[|block|..] == [];
    CopyNext(h, sig, block, b);
    EmptyConcat([Copy(Offset(b.index, sig.blockSize), b.size)]);
  }

  lemma {:induction false} RebuildsIff(basis: seq<byte>, offset: nat, piece: seq<byte>)
    ensures Rebuild(basis, [Copy(offset, |piece|)]) == Ok(piece) <==> PieceAt(basis, offset, |piece|, piece)
  {
    RebuildOne(basis, Copy(offset, |piece|));
  }

  /** A file of one byte more than 2^32, its last byte found nowhere else in it. */
  function WideFile(): (data: seq<byte>)
    ensures |data| == TWO_32 + 1 && data[TWO_32] == 1
    ensures forall i :: 0 <= i < TWO_32 ==> data[i] == 0
  {
    seq(TWO_32, i => 0) + [1]
  }

  lemma {:induction false} UnitBlock(data: seq<byte>, i: nat)
    requires i < |data|
    ensures Offset(i, 1) == i && BlockCount(|data|, 1) == |data| && BlockAt(data, 1, i) == [data[i]]
  {
    OffsetIsProduct(i, 1);
    BlockCountIsQuotient(|data|, 1);
  }

  /** In blocks of one byte that last byte is block 2^32: its delta copies the first byte instead. */
  lemma {:induction false} WideFileFails(h: Sums)
    requires NoCollision(h, WideFile(), WideFile())
    ensures Rebuild(WideFile(), Operations(h, Signature(h, WideFile(), 1), [1], [])) == Ok([0])
    ensures !WrapsHome(WideFile(), 1) && !RoundTrips(h, WideFile(), 1, [1])
  {
    var data := WideFile();
    UnitBlock(data, TWO_32);
    forall j | 0 <= j < TWO_32 ensures BlockAt(data, 1, j) != BlockAt(data, 1, TWO_32) {
      UnitBlock(data, j);
    }
    PieceNoCollision(h, data, TWO_32, 1);
    assert data[TWO_32..TWO_32 + 1] == [data[TWO_32]];
    BlockDelta(h, data, 1, TWO_32);
    RebuildOne(data, Copy(0, 1));
    assert data[0..1] == [data[0]];
  }

  lemma {:induction false} WindowIs(sig: FileSignature, source: seq<byte>, k: nat)
    requires k <= |source|
    ensures var w := Window(sig, source[k..]); k + |w| <= |source| && w == source[k..k + |w|]
  {
  }

  lemma {:induction false} OperationsMatch(h: Sums, sig: FileSignature, rest: seq<byte>, pending: seq<byte>,
      b: BlockSignature)
    requires sig.blockSize > 0 && rest != [] && Lookup(h, sig, Window(sig, rest)) == Some(b)
    ensures Operations(h, sig, rest, pending)
         == Flush(pending) + [Copy(Offset(b.index, sig.blockSize), b.size)]
            + Operations(h, sig, rest[|Window(sig, rest)|..], [])
  {
  }

  lemma {:induction false} WindowSplits(source: seq<byte>, k: nat, n: nat)
    requires k + n <= |source|
    ensures source[k..][n..] == source[k + n..] && source[k..k + n] + source[k + n..] == source[k..]
  {
  }

  lemma {:induction false} RebuildCopy(basis: seq<byte>, pending: seq<byte>, copy: Operation, w: seq<byte>,
      ops: seq<Operation>, rest: seq<byte>)
    requires copy.Copy? && PieceAt(basis, copy.offset, copy.size, w)
    requires Rebuild(basis, ops) == Ok([] + rest)
    ensures Rebuild(basis, Flush(pending) + [copy] + ops) == Ok(pending + (w + rest))
  {
    assert Rebuild(basis, [copy] + ops) == Ok(w + rest) by {
      assert ([copy] + ops)[1..] == ops;
      assert [] + rest == rest;
    }
    RebuildFlush(basis, pending);
    RebuildAppend(basis, Flush(pending), [copy] + ops);
    assert Flush(pending) + [copy] + ops == Flush(pending) + ([copy] + ops);
  }

  lemma {:induction false} RebuildCollect(h: Sums, basis: seq<byte>, sig: FileSignature, source: seq<byte>, k: nat,
      pending: seq<byte>)
    requires sig.blockSize > 0 && k < |source|
    requires Lookup(h, sig, Window(sig, source[k..])).None?
    ensures var ops := Operations(h, sig, source[k..], pending);
            var collected := pending + [source[k]];
            && (|collected| != MAX_DELTA_DATA ==> ops == Operations(h, sig, source[k + 1..], collected))
            && (|collected| == MAX_DELTA_DATA ==>
                  Rebuild(basis, ops) == After(collected, Rebuild(basis, Operations(h, sig, source[k + 1..], []))))
            && collected + source[k + 1..] == pending + source[k..]
            && collected + ([] + source[k + 1..]) == pending + source[k..]
  {
    var rest, collected := source[k..], pending + [source[k]];
    assert rest[1..] == source[k + 1..] && rest == [source[k]] + source[k + 1..];
    if |collected| == MAX_DELTA_DATA {
      RebuildOne(basis, Data(collected));
      RebuildAppend(basis, [Data(collected)], Operations(h, sig, source[k + 1..], []));
    }
  }

  lemma {:induction false} RebuildFlush(basis: seq<byte>, pending: seq<byte>)
    ensures Rebuild(basis, Flush(pending)) == Ok(pending)
  {
    if pending != [] {
      RebuildOne(basis, Data(pending));
    }
  }

  /** Every DATA operation is non-empty and within the limit that the receiver enforces. */
  lemma {:induction false} DataBounded(h: Sums, sig: FileSignature, rest: seq<byte>, pending: seq<byte>)
    requires sig.blockSize > 0 && |pending| < MAX_DELTA_DATA
    ensures forall op :: op in Operations(h, sig, rest, pending) && op.Data? ==> 0 < |op.data| <= MAX_DELTA_DATA
    decreases |rest|
  {
    if rest != [] {
      match Lookup(h, sig, Window(sig, rest))
      case Some(b) => DataBounded(h, sig, rest[|Window(sig, rest)|..], []);
      case None =>
        DataBounded(h, sig, rest[1..], []);
        if |pending| + 1 < MAX_DELTA_DATA {
          DataBounded(h, sig, rest[1..], pending + [rest[0]]);
        }
    }
  }

  /** Every COPY derived from a tiling is non-empty and inside the file that was tiled. */
  ghost predicate CopiesInside(ops: seq<Operation>, fileSize: nat) {
    forall op :: op in ops && op.Copy? ==> 0 < op.size && op.offset + op.size <= fileSize
  }

  lemma {:induction false} CopiesBounded(h: Sums, sig: FileSignature, rest: seq<byte>, pending: seq<byte>)
    requires Tiles(sig)
    ensures CopiesInside(Operations(h, sig, rest, pending), sig.fileSize)
    decreases |rest|
  {
    if rest != [] {
      match Lookup(h, sig, Window(sig, rest))
      case Some(b) =>
        TileBounds(sig, b);
        CopiesBounded(h, sig, rest[|Window(sig, rest)|..], []);
      case None =>
        CopiesBounded(h, sig, rest[1..], []);
        CopiesBounded(h, sig, rest[1..], pending + [rest[0]]);
    }
  }

  /** The number of bytes that a list of operations writes. */
  function Written(ops: seq<Operation>): nat {
    if ops == [] then 0
    else (if ops[0].Copy? then ops[0].size else |ops[0].data|) + Written(ops[1..])
  }

  lemma {:induction false} WrittenAppend(a: seq<Operation>, b: seq<Operation>)
    ensures Written(a + b) == Written(a) + Written(b)
  {
    if a == [] {
      assert a + b == b;
    } else {
      assert (a + b)[1..] == a[1..] + b;
      WrittenAppend(a[1..], b);
    }
  }

  /** Whatever the signature, the operations write as many bytes as the source has. */
  lemma {:induction false} WrittenIsLength(h: Sums, sig: FileSignature, rest: seq<byte>, pending: seq<byte>)
    requires sig.blockSize > 0
    ensures Written(Operations(h, sig, rest, pending)) == |pending| + |rest|
    decreases |rest|
  {
    if rest != [] {
      match Lookup(h, sig, Window(sig, rest))
      case Some(b) =>
        var copy, ops := Copy(Offset(b.index, sig.blockSize), b.size),
                         Operations(h, sig, rest[|Window(sig, rest)|..], []);
        WrittenIsLength(h, sig, rest[|Window(sig, rest)|..], []);
        WrittenAppend(Flush(pending) + [copy], ops);
        WrittenAppend(Flush(pending), [copy]);
      case None =>
        WrittenIsLength(h, sig, rest[1..], []);
        WrittenIsLength(h, sig, rest[1..], pending + [rest[0]]);
        WrittenAppend([Data(pending + [rest[0]])], Operations(h, sig, rest[1..], []));
    }
  }

  /** Operations that copy from inside the basis can always be carried out. */
  lemma {:induction false} RebuildDefined(basis: seq<byte>, ops: seq<Operation>)
    requires CopiesInside(ops, |basis|)
    ensures Rebuild(basis, ops).Ok? && |Rebuild(basis, ops).value| == Written(ops)
  {
    if ops != [] {
      assert ops[0] in ops;
      RebuildDefined(basis, ops[1..]);
    }
  }

  /** A window equal to some basis block is always found. */
  lemma {:induction false} BlockAlwaysFound(h: Sums, data: seq<byte>, blockSize: nat, i: nat)
    requires blockSize > 0 && i < BlockCount(|data|, blockSize)
    ensures var block := BlockAt(data, blockSize, i);
            var found := Lookup(h, Signature(h, data, blockSize), block);
            found.Some? && found.value.size == |block|
  {
    var sig := Signature(h, data, blockSize);
    assert sig.blocks[i] == BlockRecord(h, data, blockSize, i);
    assert sig.blocks[i] in sig.blocks;
  }

  /** A file diffed against its own signature is one COPY per block and nothing else. */
  lemma {:induction false} SelfDelta(h: Sums, data: seq<byte>, blockSize: nat, i: nat)
    requires blockSize > 0 && i <= BlockCount(|data|, blockSize)
    ensures OnlyCopies(Operations(h, Signature(h, data, blockSize), data[BlocksEnd(|data|, blockSize, i)..], []),
                       BlockCount(|data|, blockSize) - i)
    decreases BlockCount(|data|, blockSize) - i
  {
    BlocksEndWhole(|data|, blockSize, i);
    if i < BlockCount(|data|, blockSize) {
      SelfDelta(h, data, blockSize, i + 1);
      SelfDeltaGrows(h, data, blockSize, i);
    } else {
      assert data[BlocksEnd(|data|, blockSize, i)..] == [];
    }
  }

  lemma {:induction false} SelfDeltaGrows(h: Sums, data: seq<byte>, blockSize: nat, i: nat)
    requires blockSize > 0 && i < BlockCount(|data|, blockSize)
    requires OnlyCopies(Operations(h, Signature(h, data, blockSize), data[BlocksEnd(|data|, blockSize, i + 1)..], []),
                        BlockCount(|data|, blockSize) - i - 1)
    ensures OnlyCopies(Operations(h, Signature(h, data, blockSize), data[BlocksEnd(|data|, blockSize, i)..], []),
                       BlockCount(|data|, blockSize) - i)
  {
    SelfDeltaStep(h, data, blockSize, i);
    var sig := Signature(h, data, blockSize);
    CopiesGrow(Operations(h, sig, data[BlocksEnd(|data|, blockSize, i)..], []),
               Operations(h, sig, data[BlocksEnd(|data|, blockSize, i + 1)..], []),
               BlockCount(|data|, blockSize) - i - 1);
  }

  ghost predicate OnlyCopies(ops: seq<Operation>, n: nat) {
    |ops| == n && forall op :: op in ops ==> op.Copy?
  }

  lemma {:induction false} CopiesGrow(ops: seq<Operation>, rest: seq<Operation>, n: nat)
    requires ops != [] && ops[0].Copy? && ops[1..] == rest && OnlyCopies(rest, n)
    ensures OnlyCopies(ops, n + 1)
  {
    assert ops == [ops[0]] + rest;
  }

  lemma {:induction false} SelfDeltaStep(h: Sums, data: seq<byte>, blockSize: nat, i: nat)
    requires blockSize > 0 && i < BlockCount(|data|, blockSize)
    ensures var sig := Signature(h, data, blockSize);
            var ops := Operations(h, sig, data[BlocksEnd(|data|, blockSize, i)..], []);
            && ops != [] && ops[0].Copy? && ops[0].size == |BlockAt(data, blockSize, i)|
            && ops[1..] == Operations(h, sig, data[BlocksEnd(|data|, blockSize, i + 1)..], [])
  {
    var sig := Signature(h, data, blockSize);
    BlockStarts(|data|, blockSize, i);
    var rest := data[BlocksEnd(|data|, blockSize, i)..];
    var w := Window(sig, rest);
    assert w == BlockAt(data, blockSize, i);
    BlockAlwaysFound(h, data, blockSize, i);
    assert rest[|w|..] == data[BlocksEnd(|data|, blockSize, i + 1)..];
  }
}
