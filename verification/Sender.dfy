/** What the sending end of a transfer says: the words of every line, in order. */
module Sender {
  import opened Wrappers
  import opened Text
  import opened Delta
  import opened Protocol
  import opened Files

  type Script = seq<seq<string>>

  function Lines(script: Script): seq<string> {
    if script == [] then [] else [Join(script[0])] + Lines(script[1..])
  }

  lemma {:induction false} LinesAppend(a: Script, b: Script)
    ensures Lines(a + b) == Lines(a) + Lines(b)
  {
    if a == [] {
      assert a + b == b;
    } else {
      LinesAppend(a[1..], b);
      assert (a + b)[1..] == a[1..] + b;
    }
  }

  // ---------------------------------------------------------------- the lines of one request

  function ChunkScript(data: seq<byte>, chunk: nat): Script
    requires chunk > 0
    decreases |data|
  {
    if data == [] then []
    else [["CHUNK", HexEncode(data[..Min(chunk, |data|)])]] + ChunkScript(data[Min(chunk, |data|)..], chunk)
  }

  function OperationWords(op: Operation): seq<string> {
    match op
    case Copy(offset, size) => ["COPY", Decimal(offset), Decimal(size)]
    case Data(data) => ["DATA", HexEncode(data)]
  }

  function OperationScript(ops: seq<Operation>): Script {
    if ops == [] then [] else [OperationWords(ops[0])] + OperationScript(ops[1..])
  }

  function PutWords(path: string, file: Node, hash: string): seq<string>
    requires file.File?
  {
    ["PUT_BEGIN", Quote(path), Decimal(|file.data|), Decimal(file.mtime), hash]
  }

  function DeltaWords(path: string, file: Node, hash: string, basisHash: string): seq<string>
    requires file.File?
  {
    ["DELTA_BEGIN", Quote(path), Decimal(|file.data|), Decimal(file.mtime), hash, basisHash]
  }

  function FullScript(c: Config, path: string, file: Node): Script
    requires file.File? && c.chunkSize > 0
  {
    [PutWords(path, file, c.h.strong(file.data))] + ChunkScript(file.data, c.chunkSize) + [["PUT_END"]]
  }

  function DeltaScript(c: Config, path: string, file: Node, sig: FileSignature): Script
    requires file.File? && sig.blockSize > 0
  {
    [DeltaWords(path, file, c.h.strong(file.data), sig.fileHash)]
    + OperationScript(Operations(c.h, sig, file.data, [])) + [["DELTA_END"]]
  }

  /** The lines for one request; it throws for a path it does not list or can no longer read. */
  function RequestScript(c: Config, manifest: Manifest, tree: Tree, r: NeedRequest): Result<Script>
    requires c.chunkSize > 0
  {
    if r.deletePath then Ok([["DELETE", Quote(r.path)]])
    else if r.path !in manifest then Err
    else if manifest[r.path].isDirectory then Ok([["DIR", Quote(r.path)]])
    else if r.path !in tree || !tree[r.path].File? then Err
    else if r.basis.None? then Ok(FullScript(c, r.path, tree[r.path]))
    else if r.basis.value.blockSize == 0 then Err
    else Ok(DeltaScript(c, r.path, tree[r.path], r.basis.value))
  }

  // ---------------------------------------------------------------- the whole transfer

  /** The lines a sender gets out, and whether it reaches the end rather than throwing. */
  datatype Emission = Emission(lines: seq<string>, completes: bool) {
    function Prepend(first: seq<string>): Emission {
      Emission(first + lines, completes)
    }
  }

  function EmissionFrom(c: Config, manifest: Manifest, tree: Tree, requests: seq<NeedRequest>): Emission
    requires c.chunkSize > 0
  {
    if requests == [] then Emission(["END"], true)
    else
      match RequestScript(c, manifest, tree, requests[0])
      case Err => Emission([], false)
      case Ok(script) => EmissionFrom(c, manifest, tree, requests[1..]).Prepend(Lines(script))
  }

  function FilesLine(count: nat): string {
    Join(["FILES", Decimal(count)])
  }

  /** Everything that a sender for these requests emits. */
  function Emitted(c: Config, manifest: Manifest, tree: Tree, requests: seq<NeedRequest>): Emission
    requires c.chunkSize > 0
  {
    EmissionFrom(c, manifest, tree, requests).Prepend([FilesLine(|requests|)])
  }
}
