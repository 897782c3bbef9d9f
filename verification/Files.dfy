/** The synchronised tree, the configuration of a peer, and what a scan of the tree reports. */
module Files {
  import opened Wrappers
  import opened Text
  import opened Delta
  import opened Protocol

  /** A directory, or a file with its bytes and modification time. */
  datatype Node = Dir | File(data: seq<byte>, mtime: nat)

  type Tree = map<string, Node>

  /**
   * `wanted` stands for the include filters, which apply to files only, `excluded` for the
   * exclude patterns, and `writeTime` for the modification time that the operating system
   * gives to a new file at a path.
   */
  datatype Config = Config(h: Sums, token: string, keepBoth: bool, syncDeletes: bool, receiveOnly: bool, chunkSize: nat,
                           wanted: string -> bool, excluded: string -> bool, writeTime: string -> nat)
  {
    /** What `config::load` and SHA-256 guarantee. */
    ghost predicate Valid() {
      && h.Fits() && 0 < chunkSize <= MAX_SIGNATURE_BLOCK && Octets(token)
      && forall data :: ValidHash(h.strong(data))
    }
  }

  // ---------------------------------------------------------------- names

  function FileName(path: string): string {
    if path == [] || path[|path| - 1] == '/' then "" else FileName(path[..|path| - 1]) + [path[|path| - 1]]
  }

  predicate FoundAt(s: string, piece: string, i: nat) {
    i + |piece| <= |s| && s[i..i + |piece|] == piece
  }

  predicate Contains(s: string, piece: string) {
    exists i :: 0 <= i <= |s| && FoundAt(s, piece, i)
  }

  /** Names that belong to the synchroniser itself and are never synchronised. */
  predicate Internal(path: string) {
    var name := FileName(path);
    || name == ".filesync_state.json" || name == ".filesync_state.json.tmp"
    || Contains(name, ".conflict.") || Contains(name, ".filesync.tmp.") || Contains(name, ".filesync.backup.")
  }

  predicate Included(c: Config, path: string, directory: bool) {
    !Internal(path) && (directory || c.wanted(path)) && !c.excluded(path)
  }

  /** Where the losing version of a file is kept. */
  function ConflictName(path: string, mtime: nat): string {
    path + ".conflict." + Decimal(mtime)
  }

  lemma {:induction false} FileNameAppend(path: string, suffix: string)
    requires '/' !in suffix
    ensures FileName(path + suffix) == FileName(path) + suffix
  {
    if suffix == [] {
      assert path + suffix == path;
    } else {
      var s := suffix[..|suffix| - 1];
      FileNameAppend(path, s);
      assert (path + suffix)[..|path + suffix| - 1] == path + s;
      assert suffix == s + [suffix[|suffix| - 1]];
    }
  }

  /** A kept conflict copy is invisible to every later scan and transfer. */
  lemma {:induction false} ConflictIsInternal(path: string, mtime: nat)
    ensures Internal(ConflictName(path, mtime))
  {
    DecimalDigits(mtime);
    var name, mark := FileName(path), ".conflict.";
    FileNameAppend(path, mark + Decimal(mtime));
    assert path + (mark + Decimal(mtime)) == ConflictName(path, mtime);
    var full := name + (mark + Decimal(mtime));
    assert FoundAt(full, mark, |name|);
  }

  // ---------------------------------------------------------------- directories

  /** Path `p` lies below `q`. */
  predicate Under(p: string, q: string) {
    |q| < |p| && p[..|q|] == q && p[|q|] == '/'
  }

  /** Path `p` is `q` or lies below it: what `remove_all(q)` takes. */
  predicate Covers(q: string, p: string) {
    p == q || Under(p, q)
  }

  /** The directories on the way to a path. */
  function Above(p: string): set<string> {
    set i | 0 <= i < |p| && p[i] == '/' :: p[..i]
  }

  lemma {:induction false} AboveIsUnder(p: string, q: string)
    ensures q in Above(p) <==> Under(p, q)
  {
    if Under(p, q) {
      assert p[..|q|] in Above(p);
    }
  }

  lemma {:induction false} UnderTransitive(p: string, q: string, r: string)
    requires Under(p, q) && Under(q, r)
    ensures Under(p, r)
  {
    assert p[..|r|] == p[..|q|][..|r|] && p[|r|] == p[..|q|][|r|];
  }

  lemma {:induction false} CoversTransitive(p: string, q: string, r: string)
    requires Covers(q, p) && Covers(r, q)
    ensures Covers(r, p)
  {
    if p != q && q != r {
      UnderTransitive(p, q, r);
    }
  }

  lemma {:induction false} UnderSuffix(p: string, suffix: string, q: string)
    requires '/' !in suffix
    ensures Under(p + suffix, q) <==> Under(p, q)
  {
    var full := p + suffix;
    if Under(full, q) {
      assert full[..|q|] == p[..|q|];
    }
    if Under(p, q) {
      assert full[..|q|] == p[..|q|];
    }
  }

  /** Every entry lies in directories that are entries themselves. */
  ghost predicate IsTree(tree: Tree) {
    forall p, q :: p in tree && Under(p, q) ==> q in tree && tree[q].Dir?
  }

  /** A file stands on the way to `p`: `create_directories` and `remove_all` both fail there. */
  predicate Blocked(tree: Tree, p: string) {
    exists q :: q in Above(p) && q in tree && tree[q].File?
  }

  /** `create_directories` on the parent of `p`. */
  function WithParents(tree: Tree, p: string): Tree {
    map q | q in tree.Keys + Above(p) :: if q in tree then tree[q] else Dir
  }

  /** `remove_all(p)`. */
  function Without(tree: Tree, p: string): Tree {
    map q | q in tree && !Covers(p, q) :: tree[q]
  }

  /** What is left when `p` is about to be replaced by a file. */
  function Emptied(tree: Tree, p: string): Tree {
    map q | q in tree && !Under(q, p) :: tree[q]
  }

  lemma {:induction false} ParentsKeepTree(tree: Tree, p: string)
    requires IsTree(tree) && !Blocked(tree, p)
    ensures IsTree(WithParents(tree, p))
    ensures forall q :: Under(p, q) ==> q in WithParents(tree, p) && WithParents(tree, p)[q] == Dir
  {
    var after := WithParents(tree, p);
    forall q | Under(p, q) ensures q in after && after[q] == Dir {
      AboveIsUnder(p, q);
    }
    forall x, q | x in after && Under(x, q) ensures q in after && after[q].Dir? {
      if x !in tree {
        AboveIsUnder(p, x);
        UnderTransitive(p, x, q);
      }
    }
  }

  lemma {:induction false} WithoutKeepsTree(tree: Tree, p: string)
    requires IsTree(tree)
    ensures IsTree(Without(tree, p))
  {
    var after := Without(tree, p);
    forall x, q | x in after && Under(x, q) ensures q in after && after[q].Dir? {
      if Covers(p, q) {
        CoversTransitive(x, q, p);
      }
    }
  }

  lemma {:induction false} EmptiedKeepsTree(tree: Tree, p: string)
    requires IsTree(tree)
    ensures IsTree(Emptied(tree, p))
  {
    var after := Emptied(tree, p);
    forall x, q | x in after && Under(x, q) ensures q in after && after[q].Dir? {
      if Under(q, p) {
        UnderTransitive(x, q, p);
      }
    }
  }

  /** A file may stand wherever nothing lies below and directories lead. */
  lemma {:induction false} PlacedKeepsTree(tree: Tree, p: string, node: Node)
    requires IsTree(tree) && (forall q :: Under(p, q) ==> q in tree && tree[q] == Dir)
    requires node.Dir? || forall q :: q in tree ==> !Under(q, p)
    ensures IsTree(tree[p := node])
  {
  }

  // ---------------------------------------------------------------- the order of a walk

  /** The order of `std::string`: by the first octet that differs, a proper prefix first. */
  predicate Precedes(a: string, b: string) {
    if b == [] then false
    else if a == [] then true
    else a[0] < b[0] || (a[0] == b[0] && Precedes(a[1..], b[1..]))
  }

  ghost predicate Sorted(order: seq<string>) {
    forall i, j :: 0 <= i < j < |order| ==> Precedes(order[i], order[j])
  }

  /** Directories come before what they hold. */
  ghost predicate AncestorsFirst(order: seq<string>) {
    forall i, j :: 0 <= i < |order| && 0 <= j < |order| && Under(order[j], order[i]) ==> i < j
  }

  lemma {:induction false} PrefixPrecedes(p: string, q: string)
    requires Under(p, q)
    ensures Precedes(q, p) && !Precedes(p, q)
  {
    if q != [] {
      assert p[..|q|][0] == p[0] && p[1..][..|q| - 1] == p[..|q|][1..];
      PrefixPrecedes(p[1..], q[1..]);
    }
  }

  /** A `std::map` is walked parents first. */
  lemma {:induction false} SortedAncestorsFirst(order: seq<string>)
    requires Sorted(order)
    ensures AncestorsFirst(order)
  {
    forall i, j | 0 <= i < |order| && 0 <= j < |order| && Under(order[j], order[i]) ensures i < j {
      PrefixPrecedes(order[j], order[i]);
    }
  }

  // ---------------------------------------------------------------- scanning

  /** A scan does not descend into excluded directories. */
  predicate Shadowed(c: Config, p: string) {
    exists q :: q in Above(p) && c.excluded(q)
  }

  function StateOf(node: Node): FileState {
    match node
    case Dir => FileState(true, 0, 0, "")
    case File(data, mtime) => FileState(false, |data|, mtime, "")
  }

  function Scan(c: Config, tree: Tree): Manifest {
    map p | p in tree && Included(c, p, tree[p].Dir?) && !Shadowed(c, p) :: StateOf(tree[p])
  }

  /** The state file after a round: written only by peers that propagate deletions. */
  function Saved(c: Config, old': Manifest, tree: Tree): Manifest {
    if c.syncDeletes then Scan(c, tree) else old'
  }

  predicate SameMetadata(a: FileState, b: FileState) {
    a.isDirectory == b.isDirectory && a.size == b.size && a.mtime == b.mtime
  }

  // ---------------------------------------------------------------- a configuration that occurs

  /** The configuration with the real weak sum and default limits is valid for any digest that looks like one. */
  lemma {:induction false} RealConfigIsValid(c: Config, sha256: seq<byte> -> string)
    requires c.h == Adler(sha256) && (forall data :: ValidHash(sha256(data)))
    requires 0 < c.chunkSize <= MAX_SIGNATURE_BLOCK && Octets(c.token)
    ensures c.Valid()
  {
    AdlerFits(sha256);
    forall data ensures ValidHash(c.h.strong(data)) {
      assert ValidHash(sha256(data));
    }
  }
}
