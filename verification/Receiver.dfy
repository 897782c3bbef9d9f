/** The receiving end of a transfer: one line at a time into a temporary file, then a verified replacement. */
module Receiver {
  import opened Wrappers
  import opened Text
  import opened Delta
  import opened Protocol
  import opened Files

  datatype Kind = Idle | Full | Delta

  /**
   * `tree` is the receiver's file system and `temp` the content of the open temporary file.
   * `basisHash` and `basis` record the digest announced by DELTA_BEGIN and the bytes it was checked against.
   */
  datatype State = State(tree: Tree, kind: Kind, path: string, expected: FileState, basisHash: string,
                         basis: seq<byte>, temp: seq<byte>, received: nat, completed: nat, expectedEntries: nat,
                         batchStarted: bool)

  const NO_FILE := FileState(false, 0, 0, "")

  function Initial(tree: Tree): State {
    State(tree, Idle, "", NO_FILE, "", [], [], 0, 0, 0, false)
  }

  function ClearFile(s: State): State {
    s.(kind := Idle, path := "", expected := NO_FILE, basisHash := "", basis := [], temp := [], received := 0)
  }

  /** `reset`: ready for another round. */
  function Reset(s: State): State {
    ClearFile(s).(completed := 0, expectedEntries := 0, batchStarted := false)
  }

  // ---------------------------------------------------------------- one line

  function Begin(c: Config, s: State, parts: seq<string>, delta: bool): Result<State> {
    var _ :- Need(|parts| == if delta then 6 else 5);
    var path :- Unquote(parts[1]);
    var _ :- Need(SafePath(path) && Included(c, path, false));
    var size :- Number(parts[2]);
    var mtime :- Number(parts[3]);
    var _ :- Need(ValidHash(parts[4]));
    var _ :- Need(!Blocked(s.tree, path));
    var _ :- Need(BasisFits(c, s.tree, path, parts, delta));
    Ok(s.(tree := WithParents(s.tree, path), kind := if delta then Delta else Full, path := path,
          expected := FileState(false, size, mtime, parts[4]), basisHash := if delta then parts[5] else "",
          basis := if delta then s.tree[path].data else [], temp := [], received := 0))
  }

  /** The basis of a delta is a file whose digest is the announced one. */
  predicate BasisFits(c: Config, tree: Tree, path: string, parts: seq<string>, delta: bool)
    requires |parts| == if delta then 6 else 5
  {
    delta ==> ValidHash(parts[5]) && path in tree && tree[path].File? && c.h.strong(tree[path].data) == parts[5]
  }

  /** The file at `path` is kept under another name rather than lost. */
  predicate Displaces(c: Config, tree: Tree, path: string, hash: string) {
    c.keepBoth && path in tree && tree[path].File? && c.h.strong(tree[path].data) != hash
  }

  /** The tree after a verified file has replaced whatever stood at its path, with all that lay below. */
  function Replace(c: Config, tree: Tree, path: string, data: seq<byte>, mtime: nat, hash: string): Tree {
    var kept :=
      if Displaces(c, tree, path, hash) then tree[ConflictName(path, mtime) := tree[path]] else tree;
    Emptied(kept, path)[path := File(data, if mtime != 0 then mtime else c.writeTime(path))]
  }

  /** A file cannot be renamed onto a directory. */
  predicate CanDisplace(tree: Tree, path: string, mtime: nat) {
    ConflictName(path, mtime) in tree ==> tree[ConflictName(path, mtime)].File?
  }

  function Finish(c: Config, s: State): Result<State> {
    var _ :- Need(s.received == s.expected.size && c.h.strong(s.temp) == s.expected.hash);
    var _ :- Need(Displaces(c, s.tree, s.path, s.expected.hash) ==> CanDisplace(s.tree, s.path, s.expected.mtime));
    Ok(ClearFile(s.(tree := Replace(c, s.tree, s.path, s.temp, s.expected.mtime, s.expected.hash),
                    completed := s.completed + 1)))
  }

  function Write(s: State, bytes: seq<byte>): State {
    s.(temp := s.temp + bytes, received := s.received + |bytes|)
  }

  /** CHUNK and DATA: only DATA has a size limit of its own. */
  function Append(s: State, parts: seq<string>, limited: bool): Result<State> {
    var _ :- Need(|parts| == 2);
    var bytes :- HexDecode(parts[1]);
    var _ :- Need((limited ==> |bytes| <= MAX_DELTA_DATA) && s.received + |bytes| <= s.expected.size);
    Ok(Write(s, bytes))
  }

  function CopyBlock(s: State, parts: seq<string>): Result<State> {
    var _ :- Need(|parts| == 3 && s.path in s.tree && s.tree[s.path].File?);
    var basis := s.tree[s.path].data;
    var offset :- Number(parts[1]);
    var size :- Number(parts[2]);
    var _ :- Need(offset <= |basis| && size <= |basis| - offset && s.received + size <= s.expected.size);
    Ok(Write(s, basis[offset..offset + size]))
  }

  function EntryPath(c: Config, parts: seq<string>, directory: bool): Result<string> {
    var _ :- Need(|parts| == 2);
    var path :- Unquote(parts[1]);
    var _ :- Need(SafePath(path) && Included(c, path, directory));
    Ok(path)
  }

  function FilesHeader(s: State, parts: seq<string>): Result<State> {
    var _ :- Need(|parts| == 2 && !s.batchStarted);
    var count :- Number(parts[1]);
    var _ :- Need(count <= MAX_TRANSFER_ENTRIES);
    Ok(s.(expectedEntries := count, completed := 0, batchStarted := true))
  }

  /** A line other than END, already split into words. */
  function ApplyWords(c: Config, s: State, parts: seq<string>): Result<State> {
    if parts == [] then Ok(s)
    else
      var head := parts[0];
      if head == "FILES" then FilesHeader(s, parts)
      else if s.kind == Idle && head == "DIR" then
        var path :- EntryPath(c, parts, true);
        var _ :- Need(!Blocked(s.tree, path));
        Ok(s.(tree := WithParents(s.tree, path)[path := Dir], completed := s.completed + 1))
      else if s.kind == Idle && head == "DELETE" then
        var path :- EntryPath(c, parts, false);
        var _ :- Need(!Blocked(s.tree, path));
        Ok(s.(tree := Without(s.tree, path), completed := s.completed + 1))
      else if s.kind == Idle && head == "PUT_BEGIN" then Begin(c, s, parts, false)
      else if s.kind == Idle && head == "DELTA_BEGIN" then Begin(c, s, parts, true)
      else if s.kind == Full && head == "CHUNK" then Append(s, parts, false)
      else if s.kind == Full && head == "PUT_END" then Finish(c, s)
      else if s.kind == Delta && head == "COPY" then CopyBlock(s, parts)
      else if s.kind == Delta && head == "DATA" then Append(s, parts, true)
      else if s.kind == Delta && head == "DELTA_END" then Finish(c, s)
      else Err
  }

  /** `apply_line`: the flag says that the batch is complete. */
  function Apply(c: Config, s: State, line: string): Result<(State, bool)> {
    if line == "END" then
      var _ :- Need(s.batchStarted && s.kind == Idle && s.completed == s.expectedEntries);
      Ok((s.(expectedEntries := 0, batchStarted := false), true))
    else
      var next :- ApplyWords(c, s, Split(line));
      Ok((next, false))
  }

  // ---------------------------------------------------------------- what every accepted line keeps

  /**
   * While a file is open the temporary file holds exactly the bytes counted, no more than
   * announced, directories lead to it, and an open delta still has the very bytes that were
   * checked against the announced digest.
   */
  ghost predicate Inv(c: Config, s: State) {
    && (s.kind != Idle ==>
          && s.received == |s.temp| <= s.expected.size
          && SafePath(s.path) && Included(c, s.path, false) && ValidHash(s.expected.hash)
          && forall q :: q in Above(s.path) ==> q in s.tree && s.tree[q] == Dir)
    && (s.kind == Delta ==>
          && s.path in s.tree && s.tree[s.path].File? && s.tree[s.path].data == s.basis
          && c.h.strong(s.basis) == s.basisHash)
  }

  lemma {:induction false} ApplyKeepsInv(c: Config, s: State, line: string)
    requires Inv(c, s) && Apply(c, s, line).Ok?
    ensures Inv(c, Apply(c, s, line).value.0)
  {
    if line != "END" {
      WordsKeepInv(c, s, Split(line));
    }
  }

  lemma {:induction false} WordsKeepInv(c: Config, s: State, parts: seq<string>)
    requires Inv(c, s) && ApplyWords(c, s, parts).Ok?
    ensures Inv(c, ApplyWords(c, s, parts).value)
  {
    if parts != [] && s.kind == Idle && parts[0] != "FILES" {
      if parts[0] == "PUT_BEGIN" || parts[0] == "DELTA_BEGIN" {
        BeginKeepsInv(c, s, parts, parts[0] == "DELTA_BEGIN");
      }
    } else if parts != [] && parts[0] != "FILES" {
      assert s.kind != Idle;
      if parts[0] == "COPY" {
        assert ApplyWords(c, s, parts) == CopyBlock(s, parts);
      } else if parts[0] == "DATA" || parts[0] == "CHUNK" {
        assert ApplyWords(c, s, parts) == Append(s, parts, parts[0] == "DATA");
      } else {
        assert ApplyWords(c, s, parts) == Finish(c, s);
      }
    }
  }

  lemma {:induction false} BeginKeepsInv(c: Config, s: State, parts: seq<string>, delta: bool)
    requires Begin(c, s, parts, delta).Ok?
    ensures Inv(c, Begin(c, s, parts, delta).value)
  {
  }

  function Look(tree: Tree, path: string): Option<Node> {
    if path in tree then Some(tree[path]) else None
  }

  /** An idle receiver changes `p` for a line about `x`: it is named, lies below a deletion, or leads to `x`. */
  ghost predicate IdleChanges(c: Config, s: State, parts: seq<string>, t: State, p: string) {
    parts != [] &&
    match parts[0]
    case "DIR" =>
      var x := EntryPath(c, parts, true);
      x.Ok? && Look(t.tree, p) == Some(Dir) && (p == x.value || (Under(x.value, p) && p !in s.tree))
    case "DELETE" =>
      var x := EntryPath(c, parts, false);
      x.Ok? && Look(t.tree, p) == None && Covers(x.value, p)
    case _ =>
      && (parts[0] == "PUT_BEGIN" || parts[0] == "DELTA_BEGIN")
      && Under(t.path, p) && p !in s.tree && Look(t.tree, p) == Some(Dir)
  }

  /** What stands at `p` once the open file has replaced its target. */
  ghost predicate Replaced(c: Config, s: State, tree: Tree, p: string) {
    || Look(tree, p) == Look(s.tree, p)
    || (&& p == s.path && p in tree && tree[p].File?
        && |tree[p].data| == s.expected.size && c.h.strong(tree[p].data) == s.expected.hash)
    || (Under(p, s.path) && Look(tree, p) == None)
    || (&& Displaces(c, s.tree, s.path, s.expected.hash) && p == ConflictName(s.path, s.expected.mtime)
        && Look(tree, p) == Look(s.tree, s.path))
  }

  /**
   * Safety of one step: a path changes only to the announced, verified file, to a directory that
   * the line names or that leads to its path, to nothing where the line deletes or replaces it or
   * a directory above it, or to the preserved loser of a conflict.
   */
  lemma {:induction false} OnlyVerifiedContent(c: Config, s: State, line: string, p: string)
    requires Inv(c, s) && Apply(c, s, line).Ok?
    ensures var t := Apply(c, s, line).value.0;
            Look(t.tree, p) != Look(s.tree, p) ==>
              if s.kind == Idle then IdleChanges(c, s, Split(line), t, p)
              else t.kind == Idle && Replaced(c, s, t.tree, p)
  {
    var parts := Split(line);
    if line != "END" && parts != [] {
      if s.kind == Idle {
        IdleChange(c, s, parts, p);
      } else {
        OpenChange(c, s, parts, p);
      }
    }
  }

  lemma {:induction false} IdleChange(c: Config, s: State, parts: seq<string>, p: string)
    requires s.kind == Idle && parts != [] && ApplyWords(c, s, parts).Ok?
    ensures var t := ApplyWords(c, s, parts).value;
            Look(t.tree, p) == Look(s.tree, p) || IdleChanges(c, s, parts, t, p)
  {
    if parts[0] == "DIR" {
      var x := EntryPath(c, parts, true).value;
      assert ApplyWords(c, s, parts).value.tree == WithParents(s.tree, x)[x := Dir];
      AboveIsUnder(x, p);
    } else if parts[0] == "DELETE" {
      assert ApplyWords(c, s, parts).value.tree == Without(s.tree, EntryPath(c, parts, false).value);
    } else if parts[0] == "FILES" {
      assert ApplyWords(c, s, parts).value.tree == s.tree;
    } else {
      BeginChange(c, s, parts, p);
    }
  }

  lemma {:induction false} BeginChange(c: Config, s: State, parts: seq<string>, p: string)
    requires s.kind == Idle && parts != [] && ApplyWords(c, s, parts).Ok?
    requires parts[0] != "DIR" && parts[0] != "DELETE" && parts[0] != "FILES"
    ensures parts[0] == "PUT_BEGIN" || parts[0] == "DELTA_BEGIN"
    ensures var t := ApplyWords(c, s, parts).value;
            Look(t.tree, p) == Look(s.tree, p) || (Under(t.path, p) && p !in s.tree && Look(t.tree, p) == Some(Dir))
  {
    var t := ApplyWords(c, s, parts).value;
    assert t.tree == WithParents(s.tree, t.path);
    AboveIsUnder(t.path, p);
  }

  lemma {:induction false} OpenChange(c: Config, s: State, parts: seq<string>, p: string)
    requires Inv(c, s) && s.kind != Idle && parts != [] && ApplyWords(c, s, parts).Ok?
    ensures var t := ApplyWords(c, s, parts).value; t.tree == s.tree || (t.kind == Idle && Replaced(c, s, t.tree, p))
  {
    if parts[0] == "PUT_END" || parts[0] == "DELTA_END" {
      assert ApplyWords(c, s, parts) == Finish(c, s);
      FinishReplaces(c, s, p);
    } else {
      assert ApplyWords(c, s, parts).value.tree == s.tree;
    }
  }

  lemma {:induction false} FinishReplaces(c: Config, s: State, p: string)
    requires Inv(c, s) && s.kind != Idle && Finish(c, s).Ok?
    ensures Finish(c, s).value.kind == Idle && Replaced(c, s, Finish(c, s).value.tree, p)
  {
    ConflictNotUnder(s.path, s.expected.mtime);
  }

  lemma {:induction false} ConflictNotUnder(path: string, mtime: nat)
    ensures ConflictName(path, mtime) != path && !Under(ConflictName(path, mtime), path)
    ensures forall q :: Under(ConflictName(path, mtime), q) <==> Under(path, q)
  {
    DecimalDigits(mtime);
    var suffix := ".conflict." + Decimal(mtime);
    assert '/' !in ".conflict.";
    assert ConflictName(path, mtime) == path + suffix;
    assert ConflictName(path, mtime)[|path|] == '.';
    forall q ensures Under(ConflictName(path, mtime), q) <==> Under(path, q) {
      UnderSuffix(path, suffix, q);
    }
  }

  /**
   * What a finished transfer leaves: the received file at its path, nothing below it, and the
   * file that stood there under the conflict name exactly when it is displaced.
   */
  lemma {:induction false} FinishExact(c: Config, s: State)
    requires Finish(c, s).Ok?
    ensures var t, copy := Finish(c, s).value.tree, ConflictName(s.path, s.expected.mtime);
            && Look(t, s.path)
               == Some(File(s.temp, if s.expected.mtime != 0 then s.expected.mtime else c.writeTime(s.path)))
            && (forall q :: Under(q, s.path) ==> q !in t)
            && Look(t, copy) == (if Displaces(c, s.tree, s.path, s.expected.hash) then Look(s.tree, s.path)
                                 else Look(s.tree, copy))
    ensures var t, copy := Finish(c, s).value.tree, ConflictName(s.path, s.expected.mtime);
            Look(s.tree, copy) != Look(s.tree, s.path) ==>
              (Look(t, copy) == Look(s.tree, s.path) <==> Displaces(c, s.tree, s.path, s.expected.hash))
  {
    ConflictNotUnder(s.path, s.expected.mtime);
  }

  /** The documented rule of `keep_both`: a local file with other content stays at its path. */
  ghost predicate LocalStays(c: Config, s: State, tree: Tree) {
    c.keepBoth && s.path in s.tree && s.tree[s.path].File? && s.tree[s.path].data != s.temp ==>
      Look(tree, s.path) == Look(s.tree, s.path)
  }

  /** It is kept exactly when there was no such file: the code never keeps the local one in place. */
  lemma {:induction false} LocalNeverStays(c: Config, s: State)
    requires Finish(c, s).Ok?
    ensures LocalStays(c, s, Finish(c, s).value.tree) <==>
            !(c.keepBoth && s.path in s.tree && s.tree[s.path].File? && s.tree[s.path].data != s.temp)
  {
    FinishExact(c, s);
  }

  /** One such input: the file "f" holds the octet 1 and the octet 2 has been received. */
  lemma {:induction false} KeepBothSwaps(c: Config)
    requires c.keepBoth && c.h.strong([1]) != c.h.strong([2])
    ensures var tree: Tree := map["f" := File([1], 5)];
            var s := Initial(tree).(kind := Full, path := "f", expected := FileState(false, 1, 7, c.h.strong([2])),
                                    temp := [2], received := 1);
            && Finish(c, s).Ok? && !LocalStays(c, s, Finish(c, s).value.tree)
            && Look(Finish(c, s).value.tree, "f") == Some(File([2], 7))
            && Look(Finish(c, s).value.tree, ConflictName("f", 7)) == Some(File([1], 5))
  {
    var tree: Tree := map["f" := File([1], 5)];
    var s := Initial(tree).(kind := Full, path := "f", expected := FileState(false, 1, 7, c.h.strong([2])),
                            temp := [2], received := 1);
    ConflictNotUnder("f", 7);
    assert Displaces(c, tree, "f", s.expected.hash);
    FinishExact(c, s);
    LocalNeverStays(c, s);
  }

  // ---------------------------------------------------------------- the tree stays a tree

  lemma {:induction false} ReplaceKeepsTree(c: Config, tree: Tree, path: string, data: seq<byte>, mtime: nat,
      hash: string)
    requires IsTree(tree) && (forall q :: Under(path, q) ==> q in tree && tree[q] == Dir)
    requires Displaces(c, tree, path, hash) ==> CanDisplace(tree, path, mtime)
    ensures IsTree(Replace(c, tree, path, data, mtime, hash))
  {
    var copy := ConflictName(path, mtime);
    ConflictNotUnder(path, mtime);
    var kept := if Displaces(c, tree, path, hash) then tree[copy := tree[path]] else tree;
    if Displaces(c, tree, path, hash) {
      PlacedKeepsTree(tree, copy, tree[path]);
    }
    EmptiedKeepsTree(kept, path);
    ParentsRemain(kept, path);
    PlacedKeepsTree(Emptied(kept, path), path, File(data, if mtime != 0 then mtime else c.writeTime(path)));
  }

  lemma {:induction false} ParentsRemain(tree: Tree, path: string)
    requires forall q :: Under(path, q) ==> q in tree && tree[q] == Dir
    ensures forall q :: Under(path, q) ==> q in Emptied(tree, path) && Emptied(tree, path)[q] == Dir
  {
    forall q | Under(path, q) ensures q in Emptied(tree, path) && Emptied(tree, path)[q] == Dir {
      assert |q| < |path|;
    }
  }

  /** Every accepted line keeps each entry inside directories. */
  lemma {:induction false} ApplyKeepsTree(c: Config, s: State, line: string)
    requires Inv(c, s) && IsTree(s.tree) && Apply(c, s, line).Ok?
    ensures IsTree(Apply(c, s, line).value.0.tree)
  {
    var parts := Split(line);
    if line != "END" && parts != [] {
      if s.kind == Idle {
        IdleKeepsTree(c, s, parts);
      } else {
        OpenKeepsTree(c, s, parts);
      }
    }
  }

  lemma {:induction false} IdleKeepsTree(c: Config, s: State, parts: seq<string>)
    requires IsTree(s.tree) && s.kind == Idle && parts != [] && ApplyWords(c, s, parts).Ok?
    ensures IsTree(ApplyWords(c, s, parts).value.tree)
  {
    if parts[0] == "DIR" {
      DirOf(c, s, parts);
      DirKeepsTree(s.tree, EntryPath(c, parts, true).value);
    } else if parts[0] == "DELETE" {
      WithoutKeepsTree(s.tree, EntryPath(c, parts, false).value);
    } else if parts[0] != "FILES" {
      BeginOf(c, s, parts);
      ParentsKeepTree(s.tree, ApplyWords(c, s, parts).value.path);
    }
  }

  lemma {:induction false} DirOf(c: Config, s: State, parts: seq<string>)
    requires s.kind == Idle && parts != [] && parts[0] == "DIR" && ApplyWords(c, s, parts).Ok?
    ensures var x := EntryPath(c, parts, true);
            && x.Ok? && !Blocked(s.tree, x.value)
            && ApplyWords(c, s, parts).value.tree == WithParents(s.tree, x.value)[x.value := Dir]
  {
  }

  lemma {:induction false} BeginOf(c: Config, s: State, parts: seq<string>)
    requires s.kind == Idle && parts != [] && ApplyWords(c, s, parts).Ok?
    requires parts[0] != "DIR" && parts[0] != "DELETE" && parts[0] != "FILES"
    ensures var t := ApplyWords(c, s, parts).value; !Blocked(s.tree, t.path) && t.tree == WithParents(s.tree, t.path)
  {
    IdleWords(c, s, parts);
    BeginMakesParents(c, s, parts, parts[0] == "DELTA_BEGIN");
  }

  /** Between files a line is a header, a directory, a deletion, or the opening of a file. */
  lemma {:induction false} IdleWords(c: Config, s: State, parts: seq<string>)
    requires s.kind == Idle && parts != [] && ApplyWords(c, s, parts).Ok?
    ensures || parts[0] == "FILES" || parts[0] == "DIR" || parts[0] == "DELETE"
            || ((parts[0] == "PUT_BEGIN" || parts[0] == "DELTA_BEGIN")
                && ApplyWords(c, s, parts) == Begin(c, s, parts, parts[0] == "DELTA_BEGIN"))
  {
  }

  lemma {:induction false} BeginMakesParents(c: Config, s: State, parts: seq<string>, delta: bool)
    requires Begin(c, s, parts, delta).Ok?
    ensures var t := Begin(c, s, parts, delta).value;
            && !Blocked(s.tree, t.path) && t.tree == WithParents(s.tree, t.path) && t.completed == s.completed
            && t.batchStarted == s.batchStarted && t.expectedEntries == s.expectedEntries
  {
  }

  lemma {:induction false} DirKeepsTree(tree: Tree, x: string)
    requires IsTree(tree) && !Blocked(tree, x)
    ensures IsTree(WithParents(tree, x)[x := Dir])
  {
    ParentsKeepTree(tree, x);
    PlacedKeepsTree(WithParents(tree, x), x, Dir);
  }

  lemma {:induction false} OpenKeepsTree(c: Config, s: State, parts: seq<string>)
    requires Inv(c, s) && IsTree(s.tree) && s.kind != Idle && parts != [] && ApplyWords(c, s, parts).Ok?
    ensures IsTree(ApplyWords(c, s, parts).value.tree)
  {
    if parts[0] == "PUT_END" || parts[0] == "DELTA_END" {
      assert ApplyWords(c, s, parts) == Finish(c, s);
      forall q | Under(s.path, q) ensures q in s.tree && s.tree[q] == Dir {
        AboveIsUnder(s.path, q);
      }
      ReplaceKeepsTree(c, s.tree, s.path, s.temp, s.expected.mtime, s.expected.hash);
    } else {
      assert ApplyWords(c, s, parts).value.tree == s.tree;
    }
  }

  // ---------------------------------------------------------------- whole runs

  /** Feeding lines one after another, up to the first rejection, with the flag each one returned. */
  function Run(c: Config, s: State, lines: seq<string>): Result<(State, seq<bool>)> {
    if lines == [] then Ok((s, []))
    else
      var before :- Run(c, s, lines[..|lines| - 1]);
      var step :- Apply(c, before.0, lines[|lines| - 1]);
      Ok((step.0, before.1 + [step.1]))
  }

  lemma {:induction false} RunSnoc(c: Config, s: State, lines: seq<string>, line: string)
    ensures Run(c, s, lines + [line]).Ok? <==> Run(c, s, lines).Ok? && Apply(c, Run(c, s, lines).value.0, line).Ok?
    ensures Run(c, s, lines + [line]).Ok? ==>
              var before := Run(c, s, lines).value;
              var step := Apply(c, before.0, line).value;
              Run(c, s, lines + [line]).value == (step.0, before.1 + [step.1])
  {
    assert (lines + [line])[..|lines|] == lines;
  }

  lemma {:induction false} RunStops(c: Config, s: State, lines: seq<string>, more: seq<string>)
    requires Run(c, s, lines).Err?
    ensures Run(c, s, lines + more).Err?
    decreases |more|
  {
    if more == [] {
      assert lines + more == lines;
    } else {
      RunStops(c, s, lines, more[..|more| - 1]);
      assert (lines + more)[..|lines + more| - 1] == lines + more[..|more| - 1];
    }
  }

  predicate Closes(head: string) {
    head == "DIR" || head == "DELETE" || head == "PUT_END" || head == "DELTA_END"
  }

  /** The number of entries closed since the last FILES line of a transcript. */
  function Closed(lines: seq<string>): nat {
    if lines == [] then 0
    else
      var before, parts := Closed(lines[..|lines| - 1]), Split(lines[|lines| - 1]);
      if parts != [] && parts[0] == "FILES" then 0
      else if parts != [] && Closes(parts[0]) then before + 1
      else before
  }

  /** The number of entries announced by the FILES line that no END has answered yet. */
  function Declared(lines: seq<string>): Option<nat> {
    if lines == [] || lines[|lines| - 1] == "END" then None
    else
      var parts := Split(lines[|lines| - 1]);
      if |parts| == 2 && parts[0] == "FILES" && Number(parts[1]).Ok? then Some(Number(parts[1]).value)
      else Declared(lines[..|lines| - 1])
  }

  /** The line opens a transfer to `p` of a file with this size and digest. */
  ghost predicate Announces(line: string, p: string, size: nat, hash: string) {
    var parts := Split(line);
    && |parts| >= 5 && (parts[0] == "PUT_BEGIN" || parts[0] == "DELTA_BEGIN")
    && Unquote(parts[1]) == Ok(p) && Number(parts[2]) == Ok(size) && parts[4] == hash
  }

  ghost predicate Announced(lines: seq<string>, p: string, size: nat, hash: string) {
    exists k :: 0 <= k < |lines| && Announces(lines[k], p, size, hash)
  }

  /** What a transcript says about the state it leads to. */
  ghost predicate Tracks(c: Config, s: State, lines: seq<string>) {
    && Inv(c, s)
    && s.completed == Closed(lines)
    && (if s.batchStarted then Declared(lines) == Some(s.expectedEntries) else Declared(lines) == None)
    && (s.kind != Idle ==> Announced(lines, s.path, s.expected.size, s.expected.hash))
  }

  lemma {:induction false} RunTracks(c: Config, tree: Tree, lines: seq<string>)
    requires Run(c, Initial(tree), lines).Ok?
    ensures Tracks(c, Run(c, Initial(tree), lines).value.0, lines)
  {
    if lines != [] {
      var init, line := lines[..|lines| - 1], lines[|lines| - 1];
      RunTracks(c, tree, init);
      LastLine(c, Initial(tree), lines);
      StepTracks(c, Run(c, Initial(tree), init).value.0, init, line);
    }
  }

  lemma {:induction false} LastLine(c: Config, s: State, lines: seq<string>)
    requires lines != [] && Run(c, s, lines).Ok?
    ensures var init, line := lines[..|lines| - 1], lines[|lines| - 1];
            && lines == init + [line] && Run(c, s, init).Ok? && Apply(c, Run(c, s, init).value.0, line).Ok?
            && Run(c, s, lines).value.0 == Apply(c, Run(c, s, init).value.0, line).value.0
  {
  }

  lemma {:induction false} EndIsOneWord()
    ensures Split("END") == ["END"]
  {
    SplitJoin(["END"]);
    assert Join(["END"]) == "END";
  }

  /** How an accepted line moves the counters of the batch. */
  lemma {:induction false} StepCounts(c: Config, s: State, line: string)
    requires Apply(c, s, line).Ok?
    ensures var t := Apply(c, s, line).value.0;
            var parts := Split(line);
            var head := if parts == [] then "" else parts[0];
            if line == "END" then head == "END" && t.completed == s.completed && !t.batchStarted
            else if head == "FILES" then
              t.completed == 0 && t.batchStarted && |parts| == 2 && Number(parts[1]) == Ok(t.expectedEntries)
            else
              && t.completed == s.completed + (if Closes(head) then 1 else 0)
              && t.batchStarted == s.batchStarted && t.expectedEntries == s.expectedEntries
  {
    if line == "END" {
      EndIsOneWord();
    } else {
      if Split(line) != [] {
        WordsCount(c, s, Split(line));
      }
    }
  }

  lemma {:induction false} WordsCount(c: Config, s: State, parts: seq<string>)
    requires ApplyWords(c, s, parts).Ok? && parts != []
    ensures var t, head := ApplyWords(c, s, parts).value, parts[0];
            if head == "FILES" then
              t.completed == 0 && t.batchStarted && |parts| == 2 && Number(parts[1]) == Ok(t.expectedEntries)
            else
              && t.completed == s.completed + (if Closes(head) then 1 else 0)
              && t.batchStarted == s.batchStarted && t.expectedEntries == s.expectedEntries
  {
    var head := parts[0];
    if head != "FILES" && s.kind == Idle {
      IdleWords(c, s, parts);
      VerbsClose();
      if head == "PUT_BEGIN" || head == "DELTA_BEGIN" {
        BeginMakesParents(c, s, parts, head == "DELTA_BEGIN");
      }
    } else if head != "FILES" {
      OpenWords(c, s, parts);
      VerbsClose();
    }
  }

  lemma {:induction false} VerbsClose()
    ensures Closes("DIR") && Closes("DELETE") && Closes("PUT_END") && Closes("DELTA_END")
    ensures !Closes("PUT_BEGIN") && !Closes("DELTA_BEGIN") && !Closes("CHUNK") && !Closes("COPY") && !Closes("DATA")
  {
  }

  /** Inside a file a line adds bytes or closes the file. */
  lemma {:induction false} OpenWords(c: Config, s: State, parts: seq<string>)
    requires s.kind != Idle && parts != [] && parts[0] != "FILES" && ApplyWords(c, s, parts).Ok?
    ensures var t, head := ApplyWords(c, s, parts).value, parts[0];
            && t.batchStarted == s.batchStarted && t.expectedEntries == s.expectedEntries
            && (((head == "COPY" || head == "DATA" || head == "CHUNK") && t.completed == s.completed)
                || ((head == "PUT_END" || head == "DELTA_END") && t.completed == s.completed + 1))
  {
  }

  /** An open file is either still the one that was open, or the one this line announced. */
  lemma {:induction false} StepOpens(c: Config, s: State, line: string)
    requires Apply(c, s, line).Ok? && Apply(c, s, line).value.0.kind != Idle
    ensures var t := Apply(c, s, line).value.0;
            || (s.kind != Idle && t.path == s.path && t.expected == s.expected)
            || Announces(line, t.path, t.expected.size, t.expected.hash)
  {
    var parts := Split(line);
    if line != "END" && parts != [] {
      if s.kind == Idle {
        OpenerAnnounces(c, s, parts);
      } else {
        OpenStaysSame(c, s, parts);
      }
    }
  }

  lemma {:induction false} OpenStaysSame(c: Config, s: State, parts: seq<string>)
    requires s.kind != Idle && parts != [] && ApplyWords(c, s, parts).Ok?
    ensures var t := ApplyWords(c, s, parts).value; t.kind != Idle ==> t.path == s.path && t.expected == s.expected
  {
    if parts[0] == "PUT_END" || parts[0] == "DELTA_END" {
      assert ApplyWords(c, s, parts) == Finish(c, s);
    }
  }

  lemma {:induction false} OpenerAnnounces(c: Config, s: State, parts: seq<string>)
    requires s.kind == Idle && parts != [] && ApplyWords(c, s, parts).Ok? && ApplyWords(c, s, parts).value.kind != Idle
    ensures var t := ApplyWords(c, s, parts).value;
            && |parts| >= 5 && (parts[0] == "PUT_BEGIN" || parts[0] == "DELTA_BEGIN")
            && Unquote(parts[1]) == Ok(t.path) && Number(parts[2]) == Ok(t.expected.size) && parts[4] == t.expected.hash
  {
    IdleWords(c, s, parts);
    if parts[0] == "PUT_BEGIN" || parts[0] == "DELTA_BEGIN" {
      BeginAnnounces(c, s, parts, parts[0] == "DELTA_BEGIN");
    }
  }

  lemma {:induction false} BeginAnnounces(c: Config, s: State, parts: seq<string>, delta: bool)
    requires Begin(c, s, parts, delta).Ok?
    ensures var t := Begin(c, s, parts, delta).value;
            && |parts| >= 5 && Unquote(parts[1]) == Ok(t.path) && Number(parts[2]) == Ok(t.expected.size)
            && parts[4] == t.expected.hash
  {
  }

  lemma {:induction false} AnnouncedGrows(init: seq<string>, line: string, p: string, size: nat, hash: string)
    ensures Announced(init, p, size, hash) ==> Announced(init + [line], p, size, hash)
    ensures Announces(line, p, size, hash) ==> Announced(init + [line], p, size, hash)
  {
    var lines := init + [line];
    assert forall k :: 0 <= k < |init| ==> lines[k] == init[k];
    assert lines[|init|] == line;
  }

  lemma {:induction false} StepTracks(c: Config, s: State, init: seq<string>, line: string)
    requires Tracks(c, s, init) && Apply(c, s, line).Ok?
    ensures Tracks(c, Apply(c, s, line).value.0, init + [line])
  {
    var t, lines := Apply(c, s, line).value.0, init + [line];
    assert lines[..|lines| - 1] == init && lines[|lines| - 1] == line;
    ApplyKeepsInv(c, s, line);
    StepCounts(c, s, line);
    if t.kind != Idle {
      StepOpens(c, s, line);
      AnnouncedGrows(init, line, t.path, t.expected.size, t.expected.hash);
    }
  }

  /** END is accepted only after exactly the declared number of entries since FILES. */
  lemma {:induction false} EndIsExact(c: Config, tree: Tree, lines: seq<string>)
    requires Run(c, Initial(tree), lines + ["END"]).Ok?
    ensures Declared(lines) == Some(Closed(lines))
  {
    RunSnoc(c, Initial(tree), lines, "END");
    RunTracks(c, tree, lines);
  }

  /**
   * Safety of whole runs: after any accepted transcript, a file that scans can see is the
   * file that was there before, or has the size and digest announced for its path.
   */
  lemma {:induction false} RunContent(c: Config, tree: Tree, lines: seq<string>, p: string)
    requires Run(c, Initial(tree), lines).Ok? && !Internal(p)
    ensures var t := Run(c, Initial(tree), lines).value.0.tree;
            p in t && t[p].File? ==>
              || (p in tree && tree[p] == t[p])
              || Announced(lines, p, |t[p].data|, c.h.strong(t[p].data))
  {
    if lines != [] {
      var init, line := lines[..|lines| - 1], lines[|lines| - 1];
      assert lines == init + [line];
      RunContent(c, tree, init, p);
      RunTracks(c, tree, init);
      var s := Run(c, Initial(tree), init).value.0;
      var t := Run(c, Initial(tree), lines).value.0;
      ContentStep(c, s, line, p);
      if p in t.tree && t.tree[p].File? {
        AnnouncedGrows(init, line, p, |t.tree[p].data|, c.h.strong(t.tree[p].data));
      }
    }
  }

  /** After any accepted transcript the tree is still a tree. */
  lemma {:induction false} RunKeepsTree(c: Config, tree: Tree, lines: seq<string>)
    requires Run(c, Initial(tree), lines).Ok? && IsTree(tree)
    ensures IsTree(Run(c, Initial(tree), lines).value.0.tree)
  {
    if lines != [] {
      var init, line := lines[..|lines| - 1], lines[|lines| - 1];
      LastLine(c, Initial(tree), lines);
      RunKeepsTree(c, tree, init);
      RunTracks(c, tree, init);
      ApplyKeepsTree(c, Run(c, Initial(tree), init).value.0, line);
    }
  }

  lemma {:induction false} ContentStep(c: Config, s: State, line: string, p: string)
    requires Inv(c, s) && Apply(c, s, line).Ok? && !Internal(p)
    ensures var t := Apply(c, s, line).value.0.tree;
            p in t && t[p].File? ==>
              || (p in s.tree && s.tree[p] == t[p])
              || (s.kind != Idle && p == s.path && |t[p].data| == s.expected.size
                  && c.h.strong(t[p].data) == s.expected.hash)
  {
    OnlyVerifiedContent(c, s, line, p);
    ConflictIsInternal(s.path, s.expected.mtime);
  }
}
