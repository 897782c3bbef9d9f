/** Manifest and need-list lines: printers, strict parsers, and the frames they travel in. */
module Protocol {
  import opened Wrappers
  import opened Sequences
  import opened Text
  import opened Delta

  const MAX_MANIFEST_ENTRIES: nat := 1_000_000
  const MAX_TRANSFER_ENTRIES: nat := 1_000_000
  const MAX_SIGNATURE_BLOCK: nat := 32 * 1024

  datatype FileState = FileState(isDirectory: bool, size: nat, mtime: nat, hash: string)

  type Manifest = map<string, FileState>

  datatype NeedRequest = NeedRequest(path: string, basis: Option<FileSignature>, deletePath: bool)

  predicate IsHashChar(c: char) {
    '0' <= c <= '9' || 'a' <= c <= 'f'
  }

  predicate ValidHash(text: string) {
    |text| == 64 && forall i :: 0 <= i < |text| ==> IsHashChar(text[i])
  }

  lemma {:induction false} HashIsWord(text: string)
    requires ValidHash(text)
    ensures Word(text)
  {
    forall i | 0 <= i < |text| ensures !IsSpace(text[i]) {
      assert IsHashChar(text[i]);
    }
  }

  /** Some order in which a `std::map` is walked; every statement here holds for each such order. */
  ghost predicate Enumerates(order: seq<string>, keys: set<string>) {
    && (forall i :: 0 <= i < |order| ==> order[i] in keys)
    && (forall k :: k in keys ==> k in order)
    && (forall i, j :: 0 <= i < j < |order| ==> order[i] != order[j])
  }

  // ---------------------------------------------------------------- manifest entries

  function HashField(state: FileState): string {
    if state.isDirectory || state.hash == "" then "-" else state.hash
  }

  function EntryWords(path: string, state: FileState): seq<string> {
    [if state.isDirectory then "D" else "F", Quote(path), Decimal(state.size), Decimal(state.mtime), HashField(state)]
  }

  function EncodeManifestEntry(path: string, state: FileState): string {
    Join(EntryWords(path, state))
  }

  /** A directory carries no metadata; a file carries a digest, "-", or nothing. */
  predicate ValidMetadata(state: FileState) {
    if state.isDirectory then state.size == 0 && state.mtime == 0
    else state.hash == "" || state.hash == "-" || ValidHash(state.hash)
  }

  predicate WireMetadata(state: FileState) {
    if state.isDirectory then state.size == 0 && state.mtime == 0 && state.hash == "-"
    else state.hash == "-" || ValidHash(state.hash)
  }

  function CheckedPath(token: string): Result<string> {
    var path :- Unquote(token);
    var _ :- Need(SafePath(path));
    Ok(path)
  }

  function ParseManifestEntry(line: string): Result<(string, FileState)> {
    ParseEntryWords(Split(line))
  }

  function ParseEntryWords(parts: seq<string>): Result<(string, FileState)> {
    var _ :- Need(|parts| == 5 && (parts[0] == "D" || parts[0] == "F"));
    var path :- CheckedPath(parts[1]);
    var size :- Number(parts[2]);
    var mtime :- Number(parts[3]);
    var state := FileState(parts[0] == "D", size, mtime, parts[4]);
    var _ :- Need(WireMetadata(state));
    Ok((path, state))
  }

  /** What the peer holds after an entry has crossed the wire: an absent digest reads "-". */
  function OnWire(state: FileState): FileState {
    state.(hash := HashField(state))
  }

  /** A state whose integers are the source's 64-bit ones and whose digest is one token. */
  ghost predicate Representable(state: FileState) {
    state.size < TWO_64 && state.mtime < TWO_64 && (state.hash == "" || Word(state.hash))
  }

  lemma {:induction false} SafePathWord(path: string)
    requires SafePath(path)
    ensures Octets(path) && path != [] && Word(Quote(path))
    ensures CheckedPath(Quote(path)) == Ok(path)
  {
    assert EndsComponent(path, |path|);
    QuoteIsWord(path);
    UnquoteQuote(path);
  }

  /** A name and a state that can be printed as tokens, whether or not the peer will take them. */
  ghost predicate Printable(path: string, state: FileState) {
    Octets(path) && path != "" && Representable(state)
  }

  /** An entry is read back exactly when its path is safe and its metadata valid, and refused otherwise. */
  lemma {:induction false} EntryRoundTrip(path: string, state: FileState)
    requires Printable(path, state)
    ensures ParseManifestEntry(EncodeManifestEntry(path, state)) ==
            if SafePath(path) && ValidMetadata(state) then Ok((path, OnWire(state))) else Err
  {
    var words := EntryWords(path, state);
    EntryWordsAreWords(path, state);
    SplitJoin(words);
    UnquoteQuote(path);
    EntryWordsRead(words[0], words[1], words[2], words[3], path, state);
  }

  lemma {:induction false} EntryWordsRead(kind: string, token: string, size: string, mtime: string, path: string,
      state: FileState)
    requires kind == (if state.isDirectory then "D" else "F") && Unquote(token) == Ok(path)
    requires Number(size) == Ok(state.size) && Number(mtime) == Ok(state.mtime)
    ensures ParseEntryWords([kind, token, size, mtime, HashField(state)]) ==
            if SafePath(path) && ValidMetadata(state) then Ok((path, OnWire(state))) else Err
  {
    assert !state.isDirectory && !ValidMetadata(state) ==> HashField(state) == state.hash;
  }

  lemma {:induction false} EntryWordsAreWords(path: string, state: FileState)
    requires Printable(path, state)
    ensures var words := EntryWords(path, state);
            && (forall i :: 0 <= i < |words| ==> Word(words[i]))
            && Number(words[2]) == Ok(state.size) && Number(words[3]) == Ok(state.mtime)
  {
    QuoteIsWord(path);
    NumberDecimal(state.size);
    NumberDecimal(state.mtime);
  }

  /** A line made of tokens without white space holds no line break of either kind. */
  lemma {:induction false} JoinIsOneLine(words: seq<string>)
    requires forall i, j :: 0 <= i < |words| && 0 <= j < |words[i]| ==> !IsSpace(words[i][j])
    ensures OneLine(Join(words)) && '\r' !in Join(words)
    ensures |words| > 1 ==> |Join(words)| > |words[0]|
  {
    if |words| > 1 {
      JoinIsOneLine(words[1..]);
    }
  }

  // ---------------------------------------------------------------- whole manifests

  function ParseEntries(lines: seq<string>, done: Manifest): Result<Manifest> {
    if lines == [] then Ok(done)
    else
      var entry :- ParseManifestEntry(lines[0]);
      var _ :- Need(entry.0 !in done);
      ParseEntries(lines[1..], done[entry.0 := entry.1])
  }

  predicate HelloAccepted(line: string, token: string) {
    var hello := Split(line);
    && |hello| == 3 && hello[0] == "HELLO" && (hello[1] == "filesync/3" || hello[1] == "filesync/4")
    && Unquote(hello[2]) == Ok(token)
  }

  predicate HeaderDeclares(line: string, count: nat) {
    var header := Split(line);
    |header| == 2 && header[0] == "MANIFEST" && Number(header[1]) == Ok(count)
  }

  function ManifestFrom(lines: seq<string>, token: string): Result<Manifest> {
    var _ :- Need(|lines| >= 3 && lines[|lines| - 1] == "END");
    var _ :- Need(HelloAccepted(lines[0], token));
    var _ :- Need(HeaderDeclares(lines[1], |lines| - 3));
    ParseEntries(lines[2..|lines| - 1], map[])
  }

  method ParseManifest(lines: seq<string>, token: string) returns (r: Result<Manifest>)
    ensures r == ManifestFrom(lines, token)
  {
    if |lines| < 3 || lines[|lines| - 1] != "END" {
      return Err;
    }
    if !HelloAccepted(lines[0], token) || !HeaderDeclares(lines[1], |lines| - 3) {
      return Err;
    }
    var manifest: Manifest := map[];
    var i := 2;
    while i + 1 < |lines|
      invariant 2 <= i <= |lines| - 1
      invariant ManifestFrom(lines, token) == ParseEntries(lines[i..|lines| - 1], manifest)
    {
      assert lines[i..|lines| - 1][1..] == lines[i + 1..|lines| - 1];
      var entry := ParseManifestEntry(lines[i]);
      if entry.Err? || entry.value.0 in manifest {
        return Err;
      }
      manifest := manifest[entry.value.0 := entry.value.1];
      i := i + 1;
    }
    return Ok(manifest);
  }

  /** `parse_manifest` never loses or repeats an entry: it accepts as many paths as lines. */
  lemma {:induction false} EntriesAreCounted(lines: seq<string>, done: Manifest)
    ensures ParseEntries(lines, done).Ok? ==> |ParseEntries(lines, done).value| == |done| + |lines|
  {
    if lines != [] && ParseManifestEntry(lines[0]).Ok? {
      var entry := ParseManifestEntry(lines[0]).value;
      if entry.0 !in done {
        EntriesAreCounted(lines[1..], done[entry.0 := entry.1]);
        assert done[entry.0 := entry.1].Keys == done.Keys + {entry.0};
      }
    }
  }

  function EntryLines(m: Manifest, order: seq<string>): seq<string>
    requires forall i :: 0 <= i < |order| ==> order[i] in m
  {
    if order == [] then []
    else [EncodeManifestEntry(order[0], m[order[0]])] + EntryLines(m, order[1..])
  }

  function ManifestLines(m: Manifest, order: seq<string>, token: string): seq<string>
    requires forall i :: 0 <= i < |order| ==> order[i] in m
  {
    [HelloLine(token), CountLine(|m|)] + EntryLines(m, order) + ["END"]
  }

  function HelloLine(token: string): string {
    Join(["HELLO", "filesync/3", Quote(token)])
  }

  function CountLine(count: nat): string {
    Join(["MANIFEST", Decimal(count)])
  }

  method EncodeManifest(m: Manifest, order: seq<string>, token: string) returns (out: string)
    requires Enumerates(order, m.Keys)
    ensures out == Wire(ManifestLines(m, order, token))
  {
    out := HelloLine(token) + "\n" + CountLine(|m|) + "\n";
    ghost var lines := [HelloLine(token), CountLine(|m|)];
    WireOfTwo(lines[0], lines[1]);
    PrefixAll(order);
    ghost var all := lines + EntryLines(m, order);
    for i := 0 to |order|
      invariant out == Wire(lines)
      invariant lines + EntryLines(m, order[i..]) == all
    {
      var line := EncodeManifestEntry(order[i], m[order[i]]);
      EntryAdded(m, order, i, lines);
      out := out + line + "\n";
      lines := lines + [line];
    }
    WireEnd(lines);
    EmptyConcat(lines);
    out := out + "END\n";
  }

  lemma {:induction false} EntryAdded(m: Manifest, order: seq<string>, i: nat, lines: seq<string>)
    requires i < |order| && forall k :: 0 <= k < |order| ==> order[k] in m
    ensures var line := EncodeManifestEntry(order[i], m[order[i]]);
            && Wire(lines + [line]) == Wire(lines) + line + "\n"
            && lines + [line] + EntryLines(m, order[i + 1..]) == lines + EntryLines(m, order[i..])
  {
    var line := EncodeManifestEntry(order[i], m[order[i]]);
    WireSnoc(lines, line);
    EntryLinesStep(m, order, i);
    MoveOver(lines, line, EntryLines(m, order[i + 1..]));
  }

  lemma {:induction false} WireEnd(lines: seq<string>)
    ensures Wire(lines + ["END"]) == Wire(lines) + "END\n"
  {
    WireSnoc(lines, "END");
    Associate(Wire(lines), "END", "\n");
    assert "END" + "\n" == "END\n";
  }

  lemma {:induction false} EntryLinesStep(m: Manifest, order: seq<string>, i: nat)
    requires i < |order| && forall k :: 0 <= k < |order| ==> order[k] in m
    ensures EntryLines(m, order[i..]) == [EncodeManifestEntry(order[i], m[order[i]])] + EntryLines(m, order[i + 1..])
  {
    var rest := order[i..];
    assert rest[0] == order[i] && rest[1..] == order[i + 1..];
  }

  lemma {:induction false} MoveOver(a: seq<string>, line: string, b: seq<string>)
    ensures a + ([line] + b) == a + [line] + b
  {
  }

  lemma {:induction false} WireSnoc(lines: seq<string>, line: string)
    ensures Wire(lines + [line]) == Wire(lines) + line + "\n"
  {
    WireAppend(lines, [line]);
    assert Wire([line]) == line + "\n" + Wire([]);
    assert Wire([line]) == line + "\n";
  }

  lemma {:induction false} WireOfTwo(a: string, b: string)
    ensures Wire([a, b]) == a + "\n" + b + "\n"
  {
    WireSnoc([], a);
    WireSnoc([a], b);
    assert [] + [a] == [a] && [a] + [b] == [a, b] && "" + a == a;
  }

  ghost predicate PrintableManifest(m: Manifest) {
    forall p :: p in m ==> Printable(p, m[p])
  }

  ghost predicate GoodManifest(m: Manifest) {
    forall p :: p in m ==> SafePath(p) && Representable(m[p]) && ValidMetadata(m[p])
  }

  lemma {:induction false} GoodIsPrintable(m: Manifest)
    requires GoodManifest(m)
    ensures PrintableManifest(m)
  {
    forall p | p in m ensures Printable(p, m[p]) {
      SafePathWord(p);
    }
  }

  function ManifestOnWire(m: Manifest): Manifest {
    map p | p in m :: OnWire(m[p])
  }

  lemma {:induction false} EntriesRoundTrip(m: Manifest, order: seq<string>, done: Manifest)
    requires GoodManifest(m)
    requires forall i :: 0 <= i < |order| ==> order[i] in m && order[i] !in done
    requires forall i, j :: 0 <= i < j < |order| ==> order[i] != order[j]
    ensures |EntryLines(m, order)| == |order|
    ensures ParseEntries(EntryLines(m, order), done) == Ok(done + Pick(ManifestOnWire(m), order))
  {
    PickOne(ManifestOnWire(m), order, done);
    if order != [] {
      var p := order[0];
      GoodEntryRead(m, p);
      EntriesRoundTrip(m, order[1..], done[p := OnWire(m[p])]);
    }
  }

  lemma {:induction false} GoodEntryRead(m: Manifest, p: string)
    requires GoodManifest(m) && p in m
    ensures ParseManifestEntry(EncodeManifestEntry(p, m[p])) == Ok((p, OnWire(m[p])))
  {
    SafePathWord(p);
    EntryRoundTrip(p, m[p]);
  }

  /** One entry that the peer will not take spoils the whole manifest. */
  lemma {:induction false} EntriesRefused(m: Manifest, order: seq<string>, done: Manifest, p: string)
    requires PrintableManifest(m) && p in order && forall i :: 0 <= i < |order| ==> order[i] in m
    requires !SafePath(p) || !ValidMetadata(m[p])
    ensures ParseEntries(EntryLines(m, order), done) == Err
  {
    EntryRoundTrip(order[0], m[order[0]]);
    if order[0] != p {
      var entry := ParseManifestEntry(EntryLines(m, order)[0]);
      if entry.Ok? {
        EntriesRefused(m, order[1..], done[entry.value.0 := entry.value.1], p);
      }
    }
  }

  lemma {:induction false} EntryLinesCount(m: Manifest, order: seq<string>)
    requires forall i :: 0 <= i < |order| ==> order[i] in m
    ensures |EntryLines(m, order)| == |order|
  {
    if order != [] {
      EntryLinesCount(m, order[1..]);
    }
  }

  /** The entries of a manifest at the listed paths. */
  function Pick(m: Manifest, order: seq<string>): Manifest {
    map p | p in order && p in m :: m[p]
  }

  lemma {:induction false} PickOne(m: Manifest, order: seq<string>, done: Manifest)
    requires forall i :: 0 <= i < |order| ==> order[i] in m
    ensures order == [] ==> done + Pick(m, order) == done
    ensures order != [] ==> done[order[0] := m[order[0]]] + Pick(m, order[1..]) == done + Pick(m, order)
  {
    if order != [] {
      var left, right := done[order[0] := m[order[0]]] + Pick(m, order[1..]), done + Pick(m, order);
      assert left.Keys == right.Keys;
      assert forall p :: p in left ==> left[p] == right[p];
    }
  }

  lemma {:induction false} PickAll(m: Manifest, order: seq<string>)
    requires Enumerates(order, m.Keys)
    ensures map[] + Pick(m, order) == m
  {
    assert Pick(m, order).Keys == m.Keys;
  }

  lemma {:induction false} EntryLinesAreLines(m: Manifest, order: seq<string>)
    requires PrintableManifest(m)
    requires forall i :: 0 <= i < |order| ==> order[i] in m
    ensures forall line :: line in EntryLines(m, order) ==> PlainLine(line)
  {
    if order != [] {
      EntryLinesAreLines(m, order[1..]);
      var words := EntryWords(order[0], m[order[0]]);
      EntryWordsAreWords(order[0], m[order[0]]);
      JoinIsOneLine(words);
      SplitJoin(words);
      assert Split("END") == ["END"] by {
        assert Join(["END"]) == "END";
        SplitJoin(["END"]);
      }
    }
  }

  /** `split_lines`: lines as `getline` sees them, each without a trailing carriage return. */
  function SplitLines(text: string): seq<string> {
    var tail := Leftover(text);
    StripAll(Frames(text) + if tail == "" then [] else [tail])
  }

  function StripAll(lines: seq<string>): seq<string> {
    if lines == [] then [] else [StripReturn(lines[0])] + StripAll(lines[1..])
  }

  function StripReturn(line: string): string {
    if line != "" && line[|line| - 1] == '\r' then line[..|line| - 1] else line
  }

  lemma {:induction false} StripNothing(lines: seq<string>)
    requires forall line :: line in lines ==> '\r' !in line
    ensures StripAll(lines) == lines
  {
    if lines != [] {
      assert lines[0] in lines;
      StripNothing(lines[1..]);
    }
  }

  lemma {:induction false} ManifestLinesAreLines(m: Manifest, order: seq<string>, token: string)
    requires PrintableManifest(m) && Enumerates(order, m.Keys) && Octets(token)
    ensures var lines := ManifestLines(m, order, token);
            && (forall line :: line in lines ==> OneLine(line) && '\r' !in line)
            && (forall i :: 0 <= i < |lines| - 1 ==> lines[i] != "END")
  {
    HelloIsLine(token);
    CountIsLine(|m|);
    EntryLinesAreLines(m, order);
    PartsAreLines(HelloLine(token), CountLine(|m|), EntryLines(m, order));
  }

  ghost predicate PlainLine(line: string) {
    OneLine(line) && '\r' !in line && line != "END"
  }

  lemma {:induction false} PartsAreLines(hello: string, header: string, entries: seq<string>)
    requires PlainLine(hello) && PlainLine(header) && forall line :: line in entries ==> PlainLine(line)
    ensures var lines := [hello, header] + entries + ["END"];
            && (forall line :: line in lines ==> OneLine(line) && '\r' !in line)
            && (forall i :: 0 <= i < |lines| - 1 ==> lines[i] != "END")
  {
    var lines := [hello, header] + entries + ["END"];
    forall i | 0 <= i < |lines| - 1 ensures PlainLine(lines[i]) {
      if i >= 2 {
        assert lines[i] == entries[i - 2];
      }
    }
    assert OneLine("END") && '\r' !in "END";
  }

  lemma {:induction false} HelloIsLine(token: string)
    requires Octets(token)
    ensures PlainLine(HelloLine(token))
  {
    QuoteIsWord(token);
    JoinIsOneLine(["HELLO", "filesync/3", Quote(token)]);
  }

  lemma {:induction false} CountIsLine(count: nat)
    ensures PlainLine(CountLine(count))
  {
    NumberDecimal(count);
    JoinIsOneLine(["MANIFEST", Decimal(count)]);
  }

  /**
   * Printing a manifest, splitting the text and parsing the lines gives the manifest back exactly
   * when the token is not empty, every path is safe and every state is valid; otherwise nothing.
   */
  lemma {:induction false} ManifestRoundTrip(m: Manifest, order: seq<string>, token: string)
    requires PrintableManifest(m) && Enumerates(order, m.Keys) && Octets(token) && |m| < TWO_64
    ensures ManifestFrom(SplitLines(Wire(ManifestLines(m, order, token))), token) ==
            if token == "" || !GoodManifest(m) then Err else Ok(ManifestOnWire(m))
  {
    ManifestLinesAreLines(m, order, token);
    SplitLinesOfWire(ManifestLines(m, order, token));
    ManifestLinesRead(m, order, token);
  }

  lemma {:induction false} ManifestLinesRead(m: Manifest, order: seq<string>, token: string)
    requires PrintableManifest(m) && Enumerates(order, m.Keys) && Octets(token) && |m| < TWO_64
    ensures ManifestFrom(ManifestLines(m, order, token), token) ==
            if token == "" || !GoodManifest(m) then Err else Ok(ManifestOnWire(m))
  {
    EntryLinesCount(m, order);
    OrderLength(order, m.Keys);
    EntriesRead(m, order);
    HelloRead(token);
    CountRead(|m|);
    PartsRead(HelloLine(token), CountLine(|m|), EntryLines(m, order), token);
  }

  lemma {:induction false} EntriesRead(m: Manifest, order: seq<string>)
    requires PrintableManifest(m) && Enumerates(order, m.Keys)
    ensures ParseEntries(EntryLines(m, order), map[]) == if GoodManifest(m) then Ok(ManifestOnWire(m)) else Err
  {
    if GoodManifest(m) {
      EntriesRoundTrip(m, order, map[]);
      PickAll(ManifestOnWire(m), order);
    } else {
      var p :| p in m && !(SafePath(p) && Representable(m[p]) && ValidMetadata(m[p]));
      assert Printable(p, m[p]);
      EntriesRefused(m, order, map[], p);
    }
  }

  lemma {:induction false} PartsRead(hello: string, header: string, entries: seq<string>, token: string)
    requires HeaderDeclares(header, |entries|)
    ensures ManifestFrom([hello, header] + entries + ["END"], token) ==
            if HelloAccepted(hello, token) then ParseEntries(entries, map[]) else Err
  {
    var lines := [hello, header] + entries + ["END"];
    assert lines[2..|lines| - 1] == entries;
  }

  lemma {:induction false} SplitLinesOfWire(lines: seq<string>)
    requires forall line :: line in lines ==> OneLine(line) && '\r' !in line
    ensures SplitLines(Wire(lines)) == lines
  {
    FramesOfWire(lines, "");
    assert Wire(lines) + "" == Wire(lines);
    StripNothing(lines);
    assert lines + [] == lines;
  }

  lemma {:induction false} CountRead(count: nat)
    requires count < TWO_64
    ensures HeaderDeclares(CountLine(count), count)
  {
    NumberDecimal(count);
    SplitJoin(["MANIFEST", Decimal(count)]);
  }

  lemma {:induction false} HelloRead(token: string)
    requires Octets(token)
    ensures HelloAccepted(HelloLine(token), token) == (token != "")
  {
    QuoteIsWord(token);
    UnquoteQuote(token);
    if token == "" {
      SplitJoin(["HELLO", "filesync/3"]);
      HelloWords();
      SplitTrailingSpace("HELLO", "filesync/3");
    } else {
      SplitJoin(["HELLO", "filesync/3", Quote(token)]);
    }
  }

  lemma {:induction false} SplitTrailingSpace(a: string, b: string)
    requires Word(a) && Word(b)
    ensures Split(Join([a, b, ""])) == [a, b]
  {
    var tail := b + " ";
    WordThenSpace(b, " ");
    assert " "[1..] == "";
    var rest := " " + tail;
    assert rest[1..] == tail;
    WordThenSpace(a, rest);
    TrailingJoin(a, b);
  }

  lemma {:induction false} HelloWords()
    ensures Word("HELLO") && Word("filesync/3")
  {
  }

  lemma {:induction false} TrailingJoin(a: string, b: string)
    ensures Join([a, b, ""]) == a + (" " + (b + " "))
  {
    JoinTwo(b, "");
    EmptyConcat(b + " ");
    assert [a, b, ""][1..] == [b, ""];
    Associate(a, " ", b + " ");
  }

  lemma {:induction false} OrderLength(order: seq<string>, keys: set<string>)
    requires Enumerates(order, keys)
    ensures |order| == |keys|
  {
    if order != [] {
      var k := order[0];
      assert Enumerates(order[1..], keys - {k}) by {
        forall q | q in keys - {k} ensures q in order[1..] {
          assert q in order;
        }
      }
      OrderLength(order[1..], keys - {k});
    } else {
      assert forall q :: q in keys ==> q in order;
      assert keys == {};
    }
  }

  // ---------------------------------------------------------------- end-terminated frames

  predicate EndAt(buffer: string, i: nat) {
    i + 5 <= |buffer| && buffer[i..i + 5] == "\nEND\n"
  }

  /** Cuts the buffer just after the first terminator line, if there is one. */
  method TakeEndFrame(buffer: string) returns (found: bool, frame: string, rest: string)
    ensures found == exists i :: 0 <= i && EndAt(buffer, i)
    ensures frame + rest == buffer
    ensures found ==>
              |frame| >= 5 && EndAt(buffer, |frame| - 5) && forall i :: 0 <= i < |frame| - 5 ==> !EndAt(buffer, i)
    ensures !found ==> frame == ""
  {
    for i := 0 to |buffer|
      invariant forall j :: 0 <= j < i ==> !EndAt(buffer, j)
    {
      if EndAt(buffer, i) {
        return true, buffer[..i + 5], buffer[i + 5..];
      }
    }
    return false, "", buffer;
  }

  /** No terminator hides inside lines none of which is "END". */
  lemma {:induction false} NoEarlyEnd(lines: seq<string>, i: nat)
    requires forall k :: 0 <= k < |lines| ==> OneLine(lines[k])
    requires forall k :: 0 < k < |lines| ==> lines[k] != "END"
    ensures !EndAt(Wire(lines), i)
  {
    if lines != [] && EndAt(Wire(lines), i) {
      var first, text := |lines[0]|, Wire(lines);
      var tail := Wire(lines[1..]);
      assert text[first + 1..] == tail;
      assert forall k :: 0 <= k < first ==> text[k] == lines[0][k];
      assert text[i..i + 5][0] == text[i];
      if i == first {
        assert tail[..4] == text[i..i + 5][1..];
        EndIsALine(lines[1..]);
      } else {
        assert tail[i - first - 1..i - first + 4] == text[i..i + 5];
        NoEarlyEnd(lines[1..], i - first - 1);
      }
    }
  }

  lemma {:induction false} EndIsALine(lines: seq<string>)
    requires forall k :: 0 <= k < |lines| ==> OneLine(lines[k])
    requires |Wire(lines)| >= 4 && Wire(lines)[..4] == "END\n"
    ensures lines != [] && lines[0] == "END"
  {
    var text, first := Wire(lines), lines[0];
    assert forall k :: 0 <= k < 4 ==> text[..4][k] == text[k];
    assert forall k :: 0 <= k < |first| ==> text[k] == first[k];
    assert text[|first|] == '\n' && OneLine(first);
    assert text[0] == 'E' && text[1] == 'N' && text[2] == 'D' && text[3] == '\n';
    assert first == text[..4][..3];
  }

  /** From an encoded manifest followed by anything, the frame taken is that manifest. */
  lemma {:induction false} ManifestFrame(m: Manifest, order: seq<string>, token: string, rest: string, i: nat)
    requires PrintableManifest(m) && Enumerates(order, m.Keys) && Octets(token)
    ensures var text := Wire(ManifestLines(m, order, token));
            |text| >= 5 && EndAt(text + rest, |text| - 5) && (i < |text| - 5 ==> !EndAt(text + rest, i))
  {
    var lines := ManifestLines(m, order, token);
    ManifestLinesAreLines(m, order, token);
    var body := lines[..|lines| - 1];
    assert lines == body + ["END"];
    WireEnd(body);
    EndFrame(body, rest, i);
  }

  /** A terminator after proper lines is the first terminator there is. */
  lemma {:induction false} EndFrame(body: seq<string>, rest: string, i: nat)
    requires body != [] && forall k :: 0 <= k < |body| ==> OneLine(body[k]) && body[k] != "END"
    ensures var text := Wire(body) + "END\n";
            |text| >= 5 && EndAt(text + rest, |text| - 5) && (i < |text| - 5 ==> !EndAt(text + rest, i))
  {
    var head := Wire(body);
    var text := head + "END\n";
    LastIsNewline(body);
    assert (text + rest)[|text| - 5..|text|] == "\nEND\n";
    if i < |text| - 5 && EndAt(text + rest, i) {
      assert (text + rest)[i..i + 5][4] == (text + rest)[i + 4];
      assert i + 4 < |head|;
      assert head[i..i + 5] == (text + rest)[i..i + 5];
      NoEarlyEnd(body, i);
    }
  }

  lemma {:induction false} LastIsNewline(lines: seq<string>)
    requires lines != []
    ensures Wire(lines) != [] && Wire(lines)[|Wire(lines)| - 1] == '\n'
  {
    if |lines| > 1 {
      LastIsNewline(lines[1..]);
    }
  }
}
