/** The receiver as the object it is: fields updated line by line, proved against `Receiver.Apply`. */
module ReceiverObject {
  import opened Wrappers
  import opened Text
  import opened Delta
  import opened Protocol
  import opened Files
  import R = Receiver

  class Receiver {
    const config: Config
    var tree: Tree
    var kind: R.Kind
    var path: string
    var expected: FileState
    ghost var basisHash: string
    ghost var basis: seq<byte>
    var temp: seq<byte>
    var received: nat
    var completed: nat
    var expectedEntries: nat
    var batchStarted: bool

    ghost function State(): R.State
      reads this
    {
      R.State(tree, kind, path, expected, basisHash, basis, temp, received, completed, expectedEntries, batchStarted)
    }

    constructor (config: Config, tree: Tree)
      ensures this.config == config && State() == R.Initial(tree)
    {
      this.config, this.tree := config, tree;
      kind, path, expected, basisHash, basis, temp, received := R.Idle, "", R.NO_FILE, "", [], [], 0;
      completed, expectedEntries, batchStarted := 0, 0, false;
    }

    method ClearFile()
      modifies this
      ensures State() == R.ClearFile(old(State()))
    {
      kind, path, expected, basisHash, basis, temp, received := R.Idle, "", R.NO_FILE, "", [], [], 0;
    }

    method Reset()
      modifies this
      ensures State() == R.Reset(old(State()))
    {
      ClearFile();
      completed, expectedEntries, batchStarted := 0, 0, false;
    }

    /** The tree has gained at most directories. */
    static ghost predicate OnlyDirectories(before: Tree, after: Tree) {
      && (forall p :: p in before ==> p in after && after[p] == before[p])
      && (forall p :: p in after && p !in before ==> after[p] == Dir)
    }

    /** A header that is refused only for its basis has already made the directories that lead to its path. */
    method Begin(parts: seq<string>, delta: bool) returns (r: Result<()>)
      modifies this
      ensures var spec := R.Begin(config, old(State()), parts, delta);
              r.Ok? == spec.Ok? && (r.Ok? ==> State() == spec.value)
      ensures OnlyDirectories(old(tree), tree) && completed == old(completed)
    {
      if (!delta && |parts| != 5) || (delta && |parts| != 6) {
        return Err;
      }
      var name := Unquote(parts[1]);
      if name.Err? || !SafePath(name.value) || !Included(config, name.value, false) {
        return Err;
      }
      path := name.value;
      var size, mtime := Number(parts[2]), Number(parts[3]);
      if size.Err? || mtime.Err? {
        return Err;
      }
      expected := FileState(false, size.value, mtime.value, parts[4]);
      if !ValidHash(expected.hash) || Blocked(tree, path) {
        return Err;
      }
      r := Open(parts, delta);
    }

    method Open(parts: seq<string>, delta: bool) returns (r: Result<()>)
      requires |parts| == if delta then 6 else 5
      modifies this
      ensures && r.Ok? == R.BasisFits(config, old(tree), old(path), parts, delta)
              && (r.Ok? ==>
                    State() == old(State()).(tree := WithParents(old(tree), old(path)),
                                             kind := if delta then R.Delta else R.Full,
                                             basisHash := if delta then parts[5] else "",
                                             basis := if delta then old(tree)[old(path)].data else [],
                                             temp := [], received := 0))
      ensures OnlyDirectories(old(tree), tree) && completed == old(completed)
    {
      tree := WithParents(tree, path);
      AboveIsUnder(path, path);
      if delta {
        if !ValidHash(parts[5]) || path !in tree || !tree[path].File? || config.h.strong(tree[path].data) != parts[5] {
          return Err;
        }
        kind := R.Delta;
        basisHash, basis := parts[5], tree[path].data;
      } else {
        kind := R.Full;
        basisHash, basis := "", [];
      }
      temp := [];
      received := 0;
      return Ok(());
    }

    /** Verifies the temporary file, keeps or discards the old target, and puts the new one in place. */
    method Finish() returns (r: Result<()>)
      modifies this
      ensures var spec := R.Finish(config, old(State()));
              r.Ok? == spec.Ok? && (r.Ok? ==> State() == spec.value)
      ensures r.Err? ==> tree == old(tree) && completed == old(completed)
    {
      if received != expected.size || config.h.strong(temp) != expected.hash {
        ClearFile();
        return Err;
      }
      var kept := tree;
      if path in tree {
        if config.keepBoth && tree[path].File? && config.h.strong(tree[path].data) != expected.hash {
          var copy := ConflictName(path, expected.mtime);
          if copy in tree && tree[copy].Dir? {
            ClearFile();
            return Err;
          }
          kept := tree[copy := tree[path]];
        }
      }
      var written := if expected.mtime != 0 then expected.mtime else config.writeTime(path);
      tree := Emptied(kept, path)[path := File(temp, written)];
      completed := completed + 1;
      ClearFile();
      return Ok(());
    }

    method Append(parts: seq<string>, limited: bool) returns (r: Result<()>)
      modifies this
      ensures var spec := R.Append(old(State()), parts, limited);
              r.Ok? == spec.Ok? && (r.Ok? ==> State() == spec.value)
      ensures tree == old(tree) && completed == old(completed)
    {
      if |parts| != 2 {
        return Err;
      }
      var bytes := DecodeHex(parts[1]);
      if bytes.Err? || (limited && |bytes.value| > MAX_DELTA_DATA) || received + |bytes.value| > expected.size {
        return Err;
      }
      temp := temp + bytes.value;
      received := received + |bytes.value|;
      return Ok(());
    }

    method CopyBlock(parts: seq<string>) returns (r: Result<()>)
      modifies this
      ensures var spec := R.CopyBlock(old(State()), parts);
              r.Ok? == spec.Ok? && (r.Ok? ==> State() == spec.value)
      ensures tree == old(tree) && completed == old(completed)
    {
      if |parts| != 3 || path !in tree || !tree[path].File? {
        return Err;
      }
      var offset, size := Number(parts[1]), Number(parts[2]);
      if offset.Err? || size.Err? {
        return Err;
      }
      var basis := tree[path].data;
      if offset.value > |basis| || size.value > |basis| - offset.value || received + size.value > expected.size {
        return Err;
      }
      temp := temp + basis[offset.value..offset.value + size.value];
      received := received + size.value;
      return Ok(());
    }

    method EntryPath(parts: seq<string>, directory: bool) returns (r: Result<string>)
      ensures r == R.EntryPath(config, parts, directory)
    {
      if |parts| != 2 {
        return Err;
      }
      var name := UnquoteToken(parts[1]);
      if name.Err? || !SafePath(name.value) || !Included(config, name.value, directory) {
        return Err;
      }
      return name;
    }

    /** A rejected line leaves the entries and their count alone; it may have made directories. */
    method ApplyLine(line: string) returns (r: Result<bool>)
      modifies this
      ensures var spec := R.Apply(config, old(State()), line);
              && r.Ok? == spec.Ok?
              && (r.Ok? ==> State() == spec.value.0 && r.value == spec.value.1)
              && (r.Err? ==> OnlyDirectories(old(tree), tree) && completed == old(completed))
    {
      if line == "END" {
        if !batchStarted || kind != R.Idle || completed != expectedEntries {
          return Err;
        }
        expectedEntries := 0;
        batchStarted := false;
        return Ok(true);
      }
      var parts := SplitLine(line);
      if parts == [] {
        return Ok(false);
      }
      if parts[0] == "FILES" {
        if |parts| != 2 || batchStarted {
          return Err;
        }
        var count := Number(parts[1]);
        if count.Err? || count.value > MAX_TRANSFER_ENTRIES {
          return Err;
        }
        expectedEntries, completed, batchStarted := count.value, 0, true;
        return Ok(false);
      }
      var done := ApplyWords(parts);
      return if done.Ok? then Ok(false) else Err;
    }

    method ApplyWords(parts: seq<string>) returns (r: Result<()>)
      requires parts != [] && parts[0] != "FILES"
      modifies this
      ensures var spec := R.ApplyWords(config, old(State()), parts);
              && r.Ok? == spec.Ok? && (r.Ok? ==> State() == spec.value)
              && (r.Err? ==> OnlyDirectories(old(tree), tree) && completed == old(completed))
    {
      var head := parts[0];
      if kind == R.Idle && head == "DIR" {
        var target := EntryPath(parts, true);
        if target.Err? || Blocked(tree, target.value) {
          return Err;
        }
        tree := WithParents(tree, target.value)[target.value := Dir];
        completed := completed + 1;
        return Ok(());
      }
      if kind == R.Idle && head == "DELETE" {
        var target := EntryPath(parts, false);
        if target.Err? || Blocked(tree, target.value) {
          return Err;
        }
        tree := Without(tree, target.value);
        completed := completed + 1;
        return Ok(());
      }
      if kind == R.Idle && (head == "PUT_BEGIN" || head == "DELTA_BEGIN") {
        r := Begin(parts, head == "DELTA_BEGIN");
        return;
      }
      if kind == R.Full && head == "CHUNK" {
        r := Append(parts, false);
        return;
      }
      if kind == R.Delta && head == "COPY" {
        r := CopyBlock(parts);
        return;
      }
      if kind == R.Delta && head == "DATA" {
        r := Append(parts, true);
        return;
      }
      if (kind == R.Full && head == "PUT_END") || (kind == R.Delta && head == "DELTA_END") {
        r := Finish();
        return;
      }
      return Err;
    }
  }
}
