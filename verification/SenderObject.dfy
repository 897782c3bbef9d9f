/** The sender as the object it is: a phase machine that hands out one line per call. */
module SenderObject {
  import opened Wrappers
  import opened Text
  import opened Sequences
  import opened Delta
  import opened DeltaStream
  import opened Protocol
  import opened Files
  import opened Sender

  datatype Phase = Next | FullData | FullEnd | DeltaData | DeltaEnd

  /** What follows when the file has been sent up to `position`. */
  function ChunksLeft(input: seq<byte>, position: nat, chunk: nat, rest: Emission): Emission
    requires position <= |input| && chunk > 0
  {
    rest.Prepend(Lines(ChunkScript(input[position..], chunk)) + ["PUT_END"])
  }

  function OperationsLeft(ops: seq<Operation>, rest: Emission): Emission {
    rest.Prepend(Lines(OperationScript(ops)) + ["DELTA_END"])
  }

  class FileSender {
    const config: Config
    const manifest: Manifest
    const source: Tree
    const requests: seq<NeedRequest>
    var requestIndex: nat
    var fullCount: nat
    var deltaCount: nat
    var headerSent: bool
    var endSent: bool
    var phase: Phase
    var input: seq<byte>
    var position: nat
    var stream: OperationStream?
    ghost var Repr: set<object>

    /** Block sizes are 32-bit integers in the source. */
    static ghost predicate Typed(r: NeedRequest) {
      r.basis.Some? ==> r.basis.value.blockSize < TWO_32 && forall b :: b in r.basis.value.blocks ==> b.size < TWO_32
    }

    ghost predicate Valid()
      reads this, Repr
    {
      && this in Repr && config.chunkSize > 0 && requestIndex <= |requests|
      && (forall i :: 0 <= i < |requests| ==> Typed(requests[i]))
      && (!headerSent ==> phase == Next && requestIndex == 0 && !endSent)
      && (endSent ==> phase == Next && requestIndex == |requests|)
      && position <= |input|
      && (stream != null ==> stream in Repr && stream.window in Repr)
      && (phase == DeltaData ==> stream != null && stream.Valid())
    }

    ghost function Rest(): Emission
      reads this, Repr
      requires Valid()
    {
      EmissionFrom(config, manifest, source, requests[requestIndex..])
    }

    /** Every line still to come, and whether the sender will get to the end. */
    ghost function Remaining(): Emission
      reads this, Repr
      requires Valid()
    {
      if !headerSent then Rest().Prepend([FilesLine(|requests|)])
      else if endSent then Emission([], true)
      else
        match phase
        case Next => Rest()
        case FullData => ChunksLeft(input, position, config.chunkSize, Rest())
        case FullEnd => Rest().Prepend(["PUT_END"])
        case DeltaData => OperationsLeft(stream.Remaining(), Rest())
        case DeltaEnd => Rest().Prepend(["DELTA_END"])
    }

    constructor (config: Config, manifest: Manifest, source: Tree, requests: seq<NeedRequest>)
      requires config.chunkSize > 0 && forall i :: 0 <= i < |requests| ==> Typed(requests[i])
      ensures Valid() && fresh(Repr)
      ensures Remaining() == Emitted(config, manifest, source, requests)
    {
      this.config, this.manifest, this.source, this.requests := config, manifest, source, requests;
      requestIndex, fullCount, deltaCount := 0, 0, 0;
      headerSent, endSent, phase := false, false, Next;
      input, position, stream := [], 0, null;
      Repr := {this};
      new;
      assert requests[0..] == requests;
    }

    /** One more line, or none when the transfer has been emitted, or an error where the sender throws. */
    method NextLine() returns (r: Result<Option<string>>)
      requires Valid()
      modifies Repr
      ensures Valid() && fresh(Repr - old(Repr))
      ensures match r
              case Ok(Some(line)) => old(Remaining()) == Remaining().Prepend([line])
              case Ok(None) => old(Remaining()) == Emission([], true)
              case Err => old(Remaining()) == Emission([], false)
      decreases if phase == FullData || phase == DeltaData then 2 else 0
    {
      if !headerSent {
        headerSent := true;
        return Ok(Some(FilesLine(|requests|)));
      }
      if phase == FullData {
        r := NextFull();
        return;
      }
      if phase == DeltaData {
        r := NextDelta();
        return;
      }
      if phase == FullEnd {
        phase := Next;
        return Ok(Some("PUT_END"));
      }
      if phase == DeltaEnd {
        phase := Next;
        return Ok(Some("DELTA_END"));
      }
      if requestIndex < |requests| {
        r := NextRequest();
        return;
      }
      if !endSent {
        endSent := true;
        assert ["END"] + [] == ["END"];
        return Ok(Some("END"));
      }
      return Ok(None);
    }

    /** Starts the next request. */
    method NextRequest() returns (r: Result<Option<string>>)
      requires Valid() && headerSent && !endSent && phase == Next && requestIndex < |requests|
      modifies Repr
      ensures Valid() && fresh(Repr - old(Repr))
      ensures match r
              case Ok(Some(line)) => old(Remaining()) == Remaining().Prepend([line])
              case Ok(None) => false
              case Err => old(Remaining()) == Emission([], false)
    {
      var request := requests[requestIndex];
      ghost var before := Rest();
      assert requests[requestIndex..][1..] == requests[requestIndex + 1..];
      requestIndex := requestIndex + 1;
      if request.deletePath {
        OneLineScript(["DELETE", Quote(request.path)]);
        return Ok(Some(Join(["DELETE", Quote(request.path)])));
      }
      if request.path !in manifest {
        return Err;
      }
      if manifest[request.path].isDirectory {
        OneLineScript(["DIR", Quote(request.path)]);
        return Ok(Some(Join(["DIR", Quote(request.path)])));
      }
      if request.path !in source || !source[request.path].File? {
        return Err;
      }
      if request.basis.Some? {
        if request.basis.value.blockSize == 0 {
          return Err;
        }
        assert Typed(request);
        var line := StartDelta(request.path, source[request.path], request.basis.value);
        return Ok(Some(line));
      }
      var line := StartFull(request.path, source[request.path]);
      return Ok(Some(line));
    }

    method StartDelta(path: string, file: Node, basis: FileSignature) returns (line: string)
      requires Valid() && headerSent && !endSent && phase == Next && file.File?
      requires 0 < basis.blockSize < TWO_32 && forall b :: b in basis.blocks ==> b.size < TWO_32
      modifies this
      ensures Valid() && fresh(Repr - old(Repr))
      ensures old(Rest()).Prepend(Lines(DeltaScript(config, path, file, basis))) == Remaining().Prepend([line])
    {
      OpenStream(file.data, basis);
      var words := DeltaWords(path, file, config.h.strong(file.data), basis.fileHash);
      DeltaFramed(words, Operations(config.h, basis, file.data, []), Rest());
      line := Join(words);
    }

    method OpenStream(data: seq<byte>, basis: FileSignature)
      requires Valid() && headerSent && !endSent && phase == Next
      requires 0 < basis.blockSize < TWO_32 && forall b :: b in basis.blocks ==> b.size < TWO_32
      modifies this
      ensures Valid() && fresh(Repr - old(Repr)) && Rest() == old(Rest())
      ensures Remaining() == OperationsLeft(Operations(config.h, basis, data, []), Rest())
    {
      deltaCount := deltaCount + 1;
      stream := new OperationStream(config.h, data, basis);
      Repr := Repr + {stream, stream.window};
      phase := DeltaData;
    }

    method StartFull(path: string, file: Node) returns (line: string)
      requires Valid() && headerSent && !endSent && phase == Next && file.File?
      modifies this
      ensures Valid() && Repr == old(Repr)
      ensures old(Rest()).Prepend(Lines(FullScript(config, path, file))) == Remaining().Prepend([line])
    {
      fullCount := fullCount + 1;
      input, position := file.data, 0;
      assert input[0..] == file.data;
      phase := FullData;
      var words := PutWords(path, file, config.h.strong(file.data));
      FramedScript(words, ChunkScript(file.data, config.chunkSize), "PUT_END", Rest());
      return Join(words);
    }

    method NextFull() returns (r: Result<Option<string>>)
      requires Valid() && headerSent && phase == FullData
      modifies Repr
      ensures Valid() && fresh(Repr - old(Repr))
      ensures match r
              case Ok(Some(line)) => old(Remaining()) == Remaining().Prepend([line])
              case Ok(None) => old(Remaining()) == Emission([], true)
              case Err => old(Remaining()) == Emission([], false)
      decreases 1
    {
      var count := Min(config.chunkSize, |input| - position);
      if count > 0 {
        var line := SendChunk(count);
        return Ok(Some(line));
      }
      FinishChunks();
      r := NextLine();
    }

    method SendChunk(count: nat) returns (line: string)
      requires Valid() && headerSent && phase == FullData && 0 < count == Min(config.chunkSize, |input| - position)
      modifies this`position
      ensures Valid() && old(Remaining()) == Remaining().Prepend([line])
    {
      ChunkSent(input, position, config.chunkSize, Rest());
      line := Join(["CHUNK", HexEncode(input[position..position + count])]);
      position := position + count;
      assert Valid() && Rest() == old(Rest());
    }

    method FinishChunks()
      requires Valid() && headerSent && phase == FullData && position == |input|
      modifies this`phase
      ensures Valid() && phase == FullEnd && Remaining() == old(Remaining())
    {
      ChunksDone(input, config.chunkSize, Rest());
      phase := FullEnd;
    }

    method NextDelta() returns (r: Result<Option<string>>)
      requires Valid() && headerSent && phase == DeltaData
      modifies Repr
      ensures Valid() && fresh(Repr - old(Repr))
      ensures match r
              case Ok(Some(line)) => old(Remaining()) == Remaining().Prepend([line])
              case Ok(None) => old(Remaining()) == Emission([], true)
              case Err => old(Remaining()) == Emission([], false)
      decreases 1
    {
      var op := stream.Next();
      if op.Some? {
        OperationSent(op.value, stream.Remaining(), Rest());
        return Ok(Some(Join(OperationWords(op.value))));
      }
      OperationsDone(Rest());
      phase := DeltaEnd;
      r := NextLine();
    }
  }

  lemma {:induction false} OneLineScript(words: seq<string>)
    ensures Lines([words]) == [Join(words)]
  {
    assert [words][1..] == [];
  }

  lemma {:induction false} FirstChunk(input: seq<byte>, position: nat, chunk: nat)
    requires position <= |input| && chunk > 0
    ensures var count := Min(chunk, |input| - position);
            ChunkScript(input[position..], chunk) ==
            if count == 0 then []
            else [["CHUNK", HexEncode(input[position..position + count])]]
                 + ChunkScript(input[position + count..], chunk)
  {
    var rest, count := input[position..], Min(chunk, |input| - position);
    assert rest[..count] == input[position..position + count] && rest[count..] == input[position + count..];
  }

  lemma {:induction false} ChunkSent(input: seq<byte>, position: nat, chunk: nat, rest: Emission)
    requires position < |input| && chunk > 0
    ensures var count := Min(chunk, |input| - position);
            ChunksLeft(input, position, chunk, rest) ==
            ChunksLeft(input, position + count, chunk, rest).Prepend(
              [Join(["CHUNK", HexEncode(input[position..position + count])])])
  {
    var count := Min(chunk, |input| - position);
    FirstChunk(input, position, chunk);
    FirstOfScript(["CHUNK", HexEncode(input[position..position + count])],
                  ChunkScript(input[position + count..], chunk), "PUT_END", rest);
  }

  lemma {:induction false} ChunksDone(input: seq<byte>, chunk: nat, rest: Emission)
    requires chunk > 0
    ensures ChunksLeft(input, |input|, chunk, rest) == rest.Prepend(["PUT_END"])
  {
    FirstChunk(input, |input|, chunk);
    EmptyConcat(["PUT_END"]);
  }

  lemma {:induction false} OperationSent(op: Operation, ops: seq<Operation>, rest: Emission)
    ensures OperationsLeft([op] + ops, rest) == OperationsLeft(ops, rest).Prepend([Join(OperationWords(op))])
  {
    TailConcat([op], ops);
    FirstOfScript(OperationWords(op), OperationScript(ops), "DELTA_END", rest);
  }

  lemma {:induction false} DeltaFramed(words: seq<string>, ops: seq<Operation>, rest: Emission)
    ensures rest.Prepend(Lines([words] + OperationScript(ops) + [["DELTA_END"]])) ==
            OperationsLeft(ops, rest).Prepend([Join(words)])
  {
    FramedScript(words, OperationScript(ops), "DELTA_END", rest);
  }

  lemma {:induction false} OperationsDone(rest: Emission)
    ensures OperationsLeft([], rest) == rest.Prepend(["DELTA_END"])
  {
    EmptyConcat(["DELTA_END"]);
  }

  lemma {:induction false} FirstOfScript(words: seq<string>, script: Script, last: string, rest: Emission)
    ensures rest.Prepend(Lines([words] + script) + [last]) ==
            rest.Prepend(Lines(script) + [last]).Prepend([Join(words)])
  {
    assert ([words] + script)[1..] == script;
    assert [Join(words)] + Lines(script) + [last] + rest.lines == [Join(words)] + (Lines(script) + [last] + rest.lines);
  }

  lemma {:induction false} FramedScript(words: seq<string>, script: Script, last: string, rest: Emission)
    ensures rest.Prepend(Lines([words] + script + [[last]])) ==
            rest.Prepend(Lines(script) + [last]).Prepend([Join(words)])
  {
    LinesAppend([words] + script, [[last]]);
    OneLineScript([last]);
    FirstOfScript(words, script, last, rest);
  }
}
