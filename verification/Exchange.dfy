/** One round as text: the lines two peers exchange carry out exactly the round that converges. */
module Exchange {
  import opened Wrappers
  import opened Text
  import opened Sequences
  import opened Delta
  import opened Protocol
  import opened NeedList
  import opened Files
  import opened Decision
  import opened Sender
  import opened Refinement
  import opened Transfer
  import opened Session
  import opened SessionInvariant
  import R = Receiver

  // ---------------------------------------------------------------- lines and their first characters

  ghost predicate Fit(lines: seq<string>) {
    forall line :: line in lines ==> |line| <= MAX_LINE
  }

  lemma {:induction false} JoinHead(words: seq<string>)
    requires words != [] && words[0] != []
    ensures Join(words) != [] && Join(words)[0] == words[0][0]
  {
  }

  /** A line that opens with this character is none of the session's control lines. */
  lemma {:induction false} OtherHead(frame: string, prefix: string)
    requires frame != [] && prefix != [] && frame[0] != prefix[0]
    ensures !StartsWith(frame, prefix) && frame != prefix
  {
    SameHead(frame, prefix);
  }

  lemma {:induction false} SameHead(frame: string, prefix: string)
    requires prefix != []
    ensures StartsWith(frame, prefix) ==> frame[0] == prefix[0]
  {
    if StartsWith(frame, prefix) {
      assert frame[..|prefix|][0] == frame[0];
    }
  }

  ghost predicate IsEntryLine(frame: string) {
    frame != [] && (frame[0] == 'D' || frame[0] == 'F')
  }

  lemma {:induction false} EntryLinesHead(m: Manifest, order: seq<string>)
    requires forall i :: 0 <= i < |order| ==> order[i] in m
    ensures forall line :: line in EntryLines(m, order) ==> IsEntryLine(line)
  {
    if order != [] {
      EntryLinesHead(m, order[1..]);
      JoinHead(EntryWords(order[0], m[order[0]]));
    }
  }

  // ---------------------------------------------------------------- the manifest

  lemma {:induction false} EntryProcessed(c: Config, walk: Walk, s: Inbound, frame: string)
    requires c.chunkSize > 0 && Walks(walk) && s.phase == ManifestPhase
    requires IsEntryLine(frame) && |frame| <= MAX_LINE && ParseEntries([frame], s.manifest).Ok?
    ensures Step(c, walk, s, frame) ==
            Ok((s.(manifest := ParseEntries([frame], s.manifest).value, entries := s.entries + 1,
                   round := s.round + [frame]), []))
  {
    OtherHead(frame, "HELLO ");
    OtherHead(frame, "MANIFEST_BEGIN ");
    OtherHead(frame, "MANIFEST_END");
    assert [frame][1..] == [];
  }

  /** The lines have been taken as entries and the manifest is now `m`. */
  ghost predicate Taken(c: Config, walk: Walk, s: Inbound, lines: seq<string>, m: Manifest)
    requires c.chunkSize > 0 && Walks(walk)
  {
    Process(c, walk, s, lines) == Live(s.(manifest := m, entries := s.entries + |lines|, round := s.round + lines), [])
  }

  lemma {:induction false} EntriesProcessed(c: Config, walk: Walk, s: Inbound, lines: seq<string>, m: Manifest)
    requires c.chunkSize > 0 && Walks(walk) && s.phase == ManifestPhase && Fit(lines)
    requires forall line :: line in lines ==> IsEntryLine(line)
    requires ParseEntries(lines, s.manifest) == Ok(m)
    ensures Taken(c, walk, s, lines, m)
    decreases |lines|
  {
    if lines == [] {
      NoEntries(c, walk, s);
    } else {
      var init, frame := SplitLast(lines);
      SplitEntries(init, frame, s.manifest, m);
      var before := ParseEntries(init, s.manifest).value;
      EntriesProcessed(c, walk, s, init, before);
      EntriesGrow(c, walk, s, init, before, frame, m);
    }
  }

  lemma {:induction false} NoEntries(c: Config, walk: Walk, s: Inbound)
    requires c.chunkSize > 0 && Walks(walk)
    ensures Taken(c, walk, s, [], s.manifest)
  {
    EmptyConcat(s.round);
  }

  lemma {:induction false} SplitEntries(init: seq<string>, frame: string, done: Manifest, m: Manifest)
    requires ParseEntries(init + [frame], done) == Ok(m) && Fit(init + [frame])
    requires forall line :: line in init + [frame] ==> IsEntryLine(line)
    ensures ParseEntries(init, done).Ok? && ParseEntries([frame], ParseEntries(init, done).value) == Ok(m)
    ensures Fit(init) && |frame| <= MAX_LINE && IsEntryLine(frame) && forall line :: line in init ==> IsEntryLine(line)
  {
    EntriesSnoc(init, frame, done);
    assert frame in init + [frame];
  }

  lemma {:induction false} EntriesGrow(c: Config, walk: Walk, s: Inbound, init: seq<string>, before: Manifest,
      frame: string, m: Manifest)
    requires c.chunkSize > 0 && Walks(walk) && s.phase == ManifestPhase
    requires IsEntryLine(frame) && |frame| <= MAX_LINE && ParseEntries([frame], before) == Ok(m)
    requires Taken(c, walk, s, init, before)
    ensures Taken(c, walk, s, init + [frame], m)
  {
    var t := s.(manifest := before, entries := s.entries + |init|, round := s.round + init);
    EntryProcessed(c, walk, t, frame);
    Associate(s.round, init, [frame]);
    ProcessSnoc(c, walk, s, init, t, frame,
                t.(manifest := m, entries := t.entries + 1, round := t.round + [frame]), []);
  }

  /** Waiting for a round, with this tree and this saved state. */
  ghost predicate Waiting(s: Inbound, tree: Tree, saved: Manifest) {
    && s.phase == ManifestPhase && !s.helloReceived && !s.manifestStarted && !s.needStarted
    && s.receiver == R.Initial(tree) && s.saved == saved
  }

  lemma {:induction false} HelloProcessed(c: Config, walk: Walk, s: Inbound, tree: Tree, saved: Manifest)
    requires c.Valid() && Walks(walk) && Waiting(s, tree, saved) && c.token != ""
    requires var hello := Join(["HELLO", "filesync/4", Quote(c.token)]); |hello| <= MAX_LINE
    ensures var hello := Join(["HELLO", "filesync/4", Quote(c.token)]);
            Step(c, walk, s, hello) == Ok((s.(helloReceived := true, round := s.round + [hello]), []))
  {
    var words := ["HELLO", "filesync/4", Quote(c.token)];
    QuoteIsWord(c.token);
    UnquoteQuote(c.token);
    SplitJoin(words);
    HelloPrefix(words[1..]);
    assert Join(words) == "HELLO" + " " + Join(words[1..]);
  }

  lemma {:induction false} HelloPrefix(rest: seq<string>)
    ensures StartsWith("HELLO" + " " + Join(rest), "HELLO ")
  {
    assert ("HELLO" + " " + Join(rest))[..6] == "HELLO ";
  }

  lemma {:induction false} BeginProcessed(c: Config, walk: Walk, s: Inbound, n: nat)
    requires c.chunkSize > 0 && Walks(walk) && n <= MAX_MANIFEST_ENTRIES
    requires s.phase == ManifestPhase && s.helloReceived && !s.manifestStarted
    requires |Join(["MANIFEST_BEGIN", Decimal(n)])| <= MAX_LINE
    ensures var begin := Join(["MANIFEST_BEGIN", Decimal(n)]);
            Step(c, walk, s, begin) ==
            Ok((s.(manifestStarted := true, manifest := map[], expected := n, entries := 0,
                   round := s.round + [begin]), []))
  {
    var begin := Join(["MANIFEST_BEGIN", Decimal(n)]);
    JoinTwo("MANIFEST_BEGIN", Decimal(n));
    JoinHead(["MANIFEST_BEGIN", Decimal(n)]);
    NumberDecimal(n);
    OtherHead(begin, "HELLO ");
    assert begin[..15] == "MANIFEST_BEGIN " && begin[15..] == Decimal(n);
  }

  /** The state in which the responder has the whole manifest and awaits the files. */
  function Asked(s: Inbound, m: Manifest, frames: seq<string>): Inbound {
    s.(phase := FilesPhase, helloReceived := true, manifestStarted := true, manifest := m,
       expected := |m|, entries := |m|, round := s.round + frames)
  }

  lemma {:induction false} EndProcessed(c: Config, walk: Walk, s: Inbound)
    requires c.chunkSize > 0 && Walks(walk) && s.phase == ManifestPhase
    requires s.helloReceived && s.manifestStarted && s.entries == s.expected
    ensures Step(c, walk, s, "MANIFEST_END") ==
            Ok((s.(phase := FilesPhase, round := s.round + ["MANIFEST_END"]), NeedMessage(OwnRequests(c, walk, s))))
  {
    EndIsNoHeader();
  }

  lemma {:induction false} EndIsNoHeader()
    ensures !StartsWith("MANIFEST_END", "HELLO ") && !StartsWith("MANIFEST_END", "MANIFEST_BEGIN ")
  {
    OtherHead("MANIFEST_END", "HELLO ");
  }

  /** Step A: a streamed manifest is received whole and answered with the need list for it. */
  lemma {:induction false} ManifestExchanged(cs: Config, c: Config, ws: Walk, walk: Walk, s: Inbound, tree: Tree,
      saved: Manifest, m: Manifest)
    requires cs.Valid() && c.Valid() && Walks(ws) && Walks(walk) && cs.token == c.token != ""
    requires Waiting(s, tree, saved) && GoodManifest(m) && |m| <= MAX_MANIFEST_ENTRIES
    requires Fit(ManifestMessage(cs, ws, m))
    ensures var asked := Asked(s, ManifestOnWire(m), ManifestMessage(cs, ws, m));
            Process(c, walk, s, ManifestMessage(cs, ws, m)) == Live(asked, NeedMessage(OwnRequests(c, walk, asked)))
  {
    EntryLinesGood(m, ws(m.Keys));
    MessageProcessed(c, walk, s, tree, saved, |m|, EntryLines(m, ws(m.Keys)), ManifestOnWire(m));
  }

  lemma {:induction false} EntryLinesGood(m: Manifest, order: seq<string>)
    requires GoodManifest(m) && Enumerates(order, m.Keys)
    ensures var entries := EntryLines(m, order);
            && |entries| == |m| == |ManifestOnWire(m)| && ParseEntries(entries, map[]) == Ok(ManifestOnWire(m))
            && forall line :: line in entries ==> IsEntryLine(line)
  {
    GoodIsPrintable(m);
    EntryLinesCount(m, order);
    OrderLength(order, m.Keys);
    EntriesRead(m, order);
    EntryLinesHead(m, order);
    assert ManifestOnWire(m).Keys == m.Keys;
  }

  lemma {:induction false} MessageProcessed(c: Config, walk: Walk, s: Inbound, tree: Tree, saved: Manifest, n: nat,
      entries: seq<string>, m: Manifest)
    requires c.Valid() && Walks(walk) && c.token != "" && Waiting(s, tree, saved)
    requires n == |entries| == |m| <= MAX_MANIFEST_ENTRIES && ParseEntries(entries, map[]) == Ok(m)
    requires forall line :: line in entries ==> IsEntryLine(line)
    requires Fit([Join(["HELLO", "filesync/4", Quote(c.token)]), Join(["MANIFEST_BEGIN", Decimal(n)])]
                 + entries + ["MANIFEST_END"])
    ensures var frames := [Join(["HELLO", "filesync/4", Quote(c.token)]), Join(["MANIFEST_BEGIN", Decimal(n)])]
                          + entries + ["MANIFEST_END"];
            Process(c, walk, s, frames) ==
            Live(Asked(s, m, frames), NeedMessage(OwnRequests(c, walk, Asked(s, m, frames))))
  {
    var hello, begin := Join(["HELLO", "filesync/4", Quote(c.token)]), Join(["MANIFEST_BEGIN", Decimal(n)]);
    var frames := [hello, begin] + entries + ["MANIFEST_END"];
    assert hello in frames && begin in frames;
    HelloProcessed(c, walk, s, tree, saved);
    BeginProcessed(c, walk, Hailed(s, hello), n);
    MessageAssembled(c, walk, s, hello, begin, n, entries, m);
  }

  function Hailed(s: Inbound, hello: string): Inbound {
    s.(helloReceived := true, round := s.round + [hello])
  }

  function Headed(s: Inbound, begin: string, n: nat): Inbound {
    s.(manifestStarted := true, manifest := map[], expected := n, entries := 0, round := s.round + [begin])
  }

  lemma {:induction false} MessageAssembled(c: Config, walk: Walk, s: Inbound, hello: string, begin: string, n: nat,
      entries: seq<string>, m: Manifest)
    requires c.chunkSize > 0 && Walks(walk) && s.phase == ManifestPhase
    requires n == |entries| == |m| && ParseEntries(entries, map[]) == Ok(m)
    requires Fit([hello, begin] + entries + ["MANIFEST_END"]) && forall line :: line in entries ==> IsEntryLine(line)
    requires Step(c, walk, s, hello) == Ok((Hailed(s, hello), []))
    requires Step(c, walk, Hailed(s, hello), begin) == Ok((Headed(Hailed(s, hello), begin, n), []))
    ensures var frames := [hello, begin] + entries + ["MANIFEST_END"];
            Process(c, walk, s, frames) ==
            Live(Asked(s, m, frames), NeedMessage(OwnRequests(c, walk, Asked(s, m, frames))))
  {
    var frames := [hello, begin] + entries + ["MANIFEST_END"];
    assert forall line :: line in entries ==> line in frames;
    var s1 := Hailed(s, hello);
    var s2 := Headed(s1, begin, n);
    TwoSteps(c, walk, s, hello, s1, begin, s2);
    EntriesProcessed(c, walk, s2, entries, m);
    var s3 := s2.(manifest := m, entries := n, round := s2.round + entries);
    EndProcessed(c, walk, s3);
    AskedReached(s, hello, begin, n, entries, m);
    QuietThenStep(c, walk, s, [hello, begin], s2, entries, s3, "MANIFEST_END", Asked(s, m, frames),
                  NeedMessage(OwnRequests(c, walk, s3)));
  }

  lemma {:induction false} AskedReached(s: Inbound, hello: string, begin: string, n: nat, entries: seq<string>,
      m: Manifest)
    requires n == |m|
    ensures var s3 := Headed(Hailed(s, hello), begin, n);
            var s4 := s3.(manifest := m, entries := n, round := s3.round + entries);
            s4.(phase := FilesPhase, round := s4.round + ["MANIFEST_END"]) ==
            Asked(s, m, [hello, begin] + entries + ["MANIFEST_END"])
  {
    assert s.round + [hello] + [begin] + entries + ["MANIFEST_END"] ==
           s.round + ([hello, begin] + entries + ["MANIFEST_END"]);
  }

  lemma {:induction false} TwoSteps(c: Config, walk: Walk, s: Inbound, a: string, s1: Inbound, b: string, s2: Inbound)
    requires c.chunkSize > 0 && Walks(walk)
    requires Step(c, walk, s, a) == Ok((s1, [])) && Step(c, walk, s1, b) == Ok((s2, []))
    ensures Process(c, walk, s, [a, b]) == Live(s2, [])
  {
    OneStep(c, walk, s, a);
    OneStep(c, walk, s1, b);
    ProcessAppend(c, walk, s, [a], [b]);
    assert [a] + [b] == [a, b];
    EmptyConcat<string>([]);
  }

  lemma {:induction false} OneStep(c: Config, walk: Walk, s: Inbound, frame: string)
    requires c.chunkSize > 0 && Walks(walk) && Step(c, walk, s, frame).Ok?
    ensures Process(c, walk, s, [frame]) == Live(Step(c, walk, s, frame).value.0, Step(c, walk, s, frame).value.1)
  {
    assert [frame][..0] == [];
    EmptyConcat(Step(c, walk, s, frame).value.1);
  }

  lemma {:induction false} QuietThenStep(c: Config, walk: Walk, s: Inbound, first: seq<string>, s2: Inbound,
      middle: seq<string>, s3: Inbound, last: string, s4: Inbound, out: seq<string>)
    requires c.chunkSize > 0 && Walks(walk)
    requires Process(c, walk, s, first) == Live(s2, []) && Process(c, walk, s2, middle) == Live(s3, [])
    requires Step(c, walk, s3, last) == Ok((s4, out))
    ensures Process(c, walk, s, first + middle + [last]) == Live(s4, out)
  {
    ProcessAppend(c, walk, s, first, middle);
    EmptyConcat<string>([]);
    assert Process(c, walk, s, first + middle) == Live(s3, []);
    assert (first + middle + [last])[..|first + middle|] == first + middle;
    EmptyConcat(out);
  }

  // ---------------------------------------------------------------- the files

  lemma {:induction false} FilesProcessed(c: Config, walk: Walk, s: Inbound, lines: seq<string>, n: nat)
    requires c.chunkSize > 0 && Walks(walk) && s.phase == FilesPhase && Fit(lines)
    requires R.Run(c, s.receiver, lines).Ok? && R.Run(c, s.receiver, lines).value.1 == Quiet(n)
    ensures Process(c, walk, s, lines) ==
            Live(s.(receiver := R.Run(c, s.receiver, lines).value.0, round := s.round + lines), [])
    decreases |lines|
  {
    if lines == [] {
      EmptyConcat(s.round);
    } else {
      var init, line := lines[..|lines| - 1], lines[|lines| - 1];
      QuietRun(c, s.receiver, init, line, n);
      PrefixSnoc(lines, |lines| - 1);
      PrefixAll(lines);
      var before, after := R.Run(c, s.receiver, init).value.0, R.Run(c, s.receiver, lines).value.0;
      FilesProcessed(c, walk, s, init, n - 1);
      var t := s.(receiver := before, round := s.round + init);
      FileLineStep(c, walk, t, line);
      Associate(s.round, init, [line]);
      ProcessSnoc(c, walk, s, init, t, line, s.(receiver := after, round := s.round + lines), []);
    }
  }

  lemma {:induction false} ProcessSnoc(c: Config, walk: Walk, s: Inbound, frames: seq<string>, t: Inbound,
      frame: string, next: Inbound, out: seq<string>)
    requires c.chunkSize > 0 && Walks(walk)
    requires Process(c, walk, s, frames) == Live(t, []) && Step(c, walk, t, frame) == Ok((next, out))
    ensures Process(c, walk, s, frames + [frame]) == Live(next, out)
  {
    assert (frames + [frame])[..|frames|] == frames;
    EmptyConcat(out);
  }

  lemma {:induction false} FileLineStep(c: Config, walk: Walk, s: Inbound, line: string)
    requires c.chunkSize > 0 && Walks(walk) && s.phase == FilesPhase && |line| <= MAX_LINE
    requires R.Apply(c, s.receiver, line).Ok? && !R.Apply(c, s.receiver, line).value.1
    ensures Step(c, walk, s, line) ==
            Ok((s.(receiver := R.Apply(c, s.receiver, line).value.0, round := s.round + [line]), []))
  {
  }

  /** A transfer that the receiver refuses closes the connection, and nothing is answered. */
  lemma {:induction false} FilesRefused(c: Config, walk: Walk, s: Inbound, lines: seq<string>)
    requires c.chunkSize > 0 && Walks(walk) && s.phase == FilesPhase && Fit(lines) && Refuses(c, s.receiver, lines)
    ensures Process(c, walk, s, lines) == Closed([])
  {
    var k: nat :| RefusedAt(c, s.receiver, lines, k);
    RefusedThere(c, walk, s, lines[..k], lines[k], R.Run(c, s.receiver, lines[..k]).value.0, lines[k + 1..]);
    ThreeParts(lines, k);
  }

  lemma {:induction false} ThreeParts(lines: seq<string>, k: nat)
    requires k < |lines|
    ensures lines[..k] + [lines[k]] + lines[k + 1..] == lines
  {
  }

  lemma {:induction false} RefusedThere(c: Config, walk: Walk, s: Inbound, init: seq<string>, line: string,
      before: R.State, more: seq<string>)
    requires c.chunkSize > 0 && Walks(walk) && s.phase == FilesPhase && Fit(init)
    requires R.Run(c, s.receiver, init) == Ok((before, Quiet(|init|))) && R.Apply(c, before, line) == Err
    ensures Process(c, walk, s, init + [line] + more) == Closed([])
  {
    FilesProcessed(c, walk, s, init, |init|);
    var t := s.(receiver := before, round := s.round + init);
    RefusedStep(c, walk, t, line);
    ProcessStops(c, walk, s, init, t, line, more);
  }

  lemma {:induction false} RefusedStep(c: Config, walk: Walk, s: Inbound, line: string)
    requires c.chunkSize > 0 && Walks(walk) && s.phase == FilesPhase && R.Apply(c, s.receiver, line) == Err
    ensures Step(c, walk, s, line) == Err
  {
  }

  lemma {:induction false} ProcessStops(c: Config, walk: Walk, s: Inbound, init: seq<string>, t: Inbound, line: string,
      more: seq<string>)
    requires c.chunkSize > 0 && Walks(walk) && Process(c, walk, s, init) == Live(t, []) && Step(c, walk, t, line) == Err
    ensures Process(c, walk, s, init + [line] + more) == Closed([])
  {
    InitConcat(init, [line]);
    EmptyConcat(init);
    ProcessAppend(c, walk, s, init + [line], more);
  }

  /** In a run that never reports completion, the last line does not either. */
  lemma {:induction false} QuietRun(c: Config, s: R.State, init: seq<string>, line: string, n: nat)
    requires R.Run(c, s, init + [line]).Ok? && R.Run(c, s, init + [line]).value.1 == Quiet(n)
    ensures n > 0 && R.Run(c, s, init).Ok? && R.Run(c, s, init).value.1 == Quiet(n - 1)
    ensures R.Apply(c, R.Run(c, s, init).value.0, line) == Ok((R.Run(c, s, init + [line]).value.0, false))
  {
    R.RunSnoc(c, s, init, line);
    RunFlags(c, s, init);
    var before := R.Run(c, s, init).value;
    var flag := R.Apply(c, before.0, line).value.1;
    assert |Quiet(n)| == |before.1| + 1;
    assert Quiet(n)[|before.1|] == flag;
    assert Quiet(n)[..|before.1|] == before.1;
  }

  lemma {:induction false} RunFlags(c: Config, s: R.State, lines: seq<string>)
    requires R.Run(c, s, lines).Ok?
    ensures |R.Run(c, s, lines).value.1| == |lines|
  {
    if lines != [] {
      RunFlags(c, s, lines[..|lines| - 1]);
    }
  }

  /** The state in which the responder has applied the files and announced its own manifest. */
  function Applied(c: Config, s: Inbound, tree: Tree, frames: seq<string>): Inbound {
    s.(phase := NeedPhase, manifest := Scan(c, tree), saved := Saved(c, s.saved, tree),
       receiver := R.Initial(tree), round := s.round + frames)
  }

  /** Step B: a transfer that the receiver accepts is applied, saved and answered with a manifest. */
  lemma {:induction false} FilesExchanged(c: Config, walk: Walk, s: Inbound, lines: seq<string>, tree: Tree, count: nat)
    requires c.chunkSize > 0 && Walks(walk) && s.phase == FilesPhase && Fit(lines) && !c.receiveOnly
    requires lines != []
    requires R.Run(c, s.receiver, lines) == Ok((R.Initial(tree).(completed := count), Quiet(|lines| - 1) + [true]))
    ensures Process(c, walk, s, lines) == Live(Applied(c, s, tree, lines), ManifestMessage(c, walk, Scan(c, tree)))
  {
    var init, line := SplitLast(lines);
    FitSnoc(init, line);
    LastOfRun(c, s.receiver, init, line, R.Initial(tree).(completed := count));
    FilesFinished(c, walk, s, init, line, R.Run(c, s.receiver, init).value.0, tree, count);
  }

  lemma {:induction false} FitSnoc(init: seq<string>, line: string)
    requires Fit(init + [line])
    ensures Fit(init) && |line| <= MAX_LINE
  {
    assert line in init + [line];
  }

  lemma {:induction false} FilesFinished(c: Config, walk: Walk, s: Inbound, init: seq<string>, line: string,
      before: R.State, tree: Tree, count: nat)
    requires c.chunkSize > 0 && Walks(walk) && s.phase == FilesPhase && Fit(init) && |line| <= MAX_LINE
    requires !c.receiveOnly
    requires R.Run(c, s.receiver, init) == Ok((before, Quiet(|init|)))
    requires R.Apply(c, before, line) == Ok((R.Initial(tree).(completed := count), true))
    ensures Process(c, walk, s, init + [line])
         == Live(Applied(c, s, tree, init + [line]), ManifestMessage(c, walk, Scan(c, tree)))
  {
    FilesProcessed(c, walk, s, init, |init|);
    var t := s.(receiver := before, round := s.round + init);
    LastFileStep(c, walk, t, line, tree, count);
    Associate(s.round, init, [line]);
    ProcessSnoc(c, walk, s, init, t, line, Applied(c, s, tree, init + [line]), ManifestMessage(c, walk, Scan(c, tree)));
  }

  /** A run whose last line alone reports completion was quiet before it. */
  lemma {:induction false} LastOfRun(c: Config, s: R.State, init: seq<string>, line: string, end: R.State)
    requires R.Run(c, s, init + [line]) == Ok((end, Quiet(|init|) + [true]))
    ensures R.Run(c, s, init).Ok? && R.Run(c, s, init).value.1 == Quiet(|init|)
    ensures R.Apply(c, R.Run(c, s, init).value.0, line) == Ok((end, true))
  {
    R.RunSnoc(c, s, init, line);
    var before := R.Run(c, s, init).value;
    RunFlags(c, s, init);
    LastFlag(before.1, R.Apply(c, before.0, line).value.1, |init|);
  }

  lemma {:induction false} LastFileStep(c: Config, walk: Walk, s: Inbound, line: string, tree: Tree, count: nat)
    requires c.chunkSize > 0 && Walks(walk) && s.phase == FilesPhase && |line| <= MAX_LINE && !c.receiveOnly
    requires R.Apply(c, s.receiver, line) == Ok((R.Initial(tree).(completed := count), true))
    ensures Step(c, walk, s, line) == Ok((Applied(c, s, tree, [line]), ManifestMessage(c, walk, Scan(c, tree))))
  {
  }

  lemma {:induction false} LastFlag(before: seq<bool>, flag: bool, n: nat)
    requires before + [flag] == Quiet(n) + [true] && |before| == n
    ensures before == Quiet(n) && flag
  {
    assert (before + [flag])[..n] == before && (Quiet(n) + [true])[..n] == Quiet(n);
    assert (before + [flag])[n] == flag;
  }

  // ---------------------------------------------------------------- the need list

  ghost predicate IsNeedLine(frame: string) {
    frame != [] && frame[0] != 'N'
  }

  lemma {:induction false} NeedLinesHead(requests: seq<NeedRequest>)
    ensures forall line :: line in NeedLines(requests) ==> IsNeedLine(line)
  {
    if requests != [] {
      NeedLinesHead(requests[1..]);
      var r := requests[0];
      JoinHead(HeadWords(r));
      if !r.deletePath && r.basis.Some? {
        BlockLinesHead(r.basis.value.blocks);
      }
    }
  }

  lemma {:induction false} BlockLinesHead(blocks: seq<BlockSignature>)
    ensures forall line :: line in BlockLines(blocks) ==> IsNeedLine(line)
  {
    if blocks != [] {
      BlockLinesHead(blocks[1..]);
      JoinHead(BlockWords(blocks[0]));
    }
  }

  lemma {:induction false} NeedBodyProcessed(c: Config, walk: Walk, s: Inbound, lines: seq<string>)
    requires c.chunkSize > 0 && Walks(walk) && s.phase == NeedPhase && Fit(lines)
    requires forall line :: line in lines ==> IsNeedLine(line)
    ensures Process(c, walk, s, lines) == Live(s.(needLines := s.needLines + lines, round := s.round + lines), [])
  {
    if lines == [] {
      EmptyConcat(s.round);
      EmptyConcat(s.needLines);
    } else {
      var init, line := lines[..|lines| - 1], lines[|lines| - 1];
      PrefixSnoc(lines, |lines| - 1);
      PrefixAll(lines);
      NeedBodyProcessed(c, walk, s, init);
      var t := s.(needLines := s.needLines + init, round := s.round + init);
      NeedLineStep(c, walk, t, line);
      Associate(s.round, init, [line]);
      Associate(s.needLines, init, [line]);
      ProcessSnoc(c, walk, s, init, t, line, s.(needLines := s.needLines + lines, round := s.round + lines), []);
    }
  }

  lemma {:induction false} NeedLineStep(c: Config, walk: Walk, s: Inbound, line: string)
    requires c.chunkSize > 0 && Walks(walk) && s.phase == NeedPhase && |line| <= MAX_LINE && IsNeedLine(line)
    ensures Step(c, walk, s, line) == Ok((s.(needLines := s.needLines + [line], round := s.round + [line]), []))
  {
    OtherHead(line, "NEED_BEGIN ");
    OtherHead(line, "NEED_END");
  }

  lemma {:induction false} NeedBeginProcessed(c: Config, walk: Walk, s: Inbound, n: nat)
    requires c.chunkSize > 0 && Walks(walk) && s.phase == NeedPhase && !s.needStarted
    requires n <= MAX_TRANSFER_ENTRIES && |BeginLine(n)| <= MAX_LINE
    ensures |BeginLine(n)| >= 11
    ensures Step(c, walk, s, BeginLine(n)) ==
            Ok((s.(needStarted := true, needLines := ["NEED " + BeginLine(n)[11..]], expected := n,
                   round := s.round + [BeginLine(n)]), []))
  {
    JoinTwo("NEED_BEGIN", Decimal(n));
    NumberDecimal(n);
    assert BeginLine(n)[..11] == "NEED_BEGIN " && BeginLine(n)[11..] == Decimal(n);
  }

  /** The state in which the responder has served the need list and awaits the acknowledgement. */
  function ServedNeed(c: Config, s: Inbound, n: nat, collected: seq<string>, frames: seq<string>): Inbound {
    s.(phase := AckPhase, needStarted := true, needLines := collected, expected := n,
       manifest := Scan(c, s.receiver.tree), round := s.round + frames)
  }

  /** Step C: a need list is collected, parsed, and answered with the transfer it asks for. */
  lemma {:induction false} NeedExchanged(c: Config, walk: Walk, s: Inbound, requests: seq<NeedRequest>)
    requires c.chunkSize > 0 && Walks(walk) && s.phase == NeedPhase && !s.needStarted
    requires |requests| <= MAX_TRANSFER_ENTRIES && Fit(NeedMessage(requests))
    requires var message := NeedMessage(requests);
             |message| >= 2 && |message[0]| >= 11 && NeedFrom(Collected(message)) == Ok(requests)
    requires Emitted(c, Scan(c, s.receiver.tree), s.receiver.tree, requests).completes
    ensures var message := NeedMessage(requests);
            Process(c, walk, s, message) ==
            Live(ServedNeed(c, s, |requests|, Collected(message), message),
                 Emitted(c, Scan(c, s.receiver.tree), s.receiver.tree, requests).lines)
  {
    var n, body := |requests|, NeedLines(requests);
    var message := NeedMessage(requests);
    assert BeginLine(n) in message && forall line :: line in body ==> line in message;
    NeedBeginProcessed(c, walk, s, n);
    NeedLinesHead(requests);
    CollectedMessage(requests);
    MiddleOf(BeginLine(n), body, "NEED_END");
    NeedAssembled(c, walk, s, BeginLine(n), n, body, requests);
  }

  lemma {:induction false} NeedAssembled(c: Config, walk: Walk, s: Inbound, begin: string, n: nat, body: seq<string>,
      requests: seq<NeedRequest>)
    requires c.chunkSize > 0 && Walks(walk) && s.phase == NeedPhase && |begin| >= 11 && Fit(body)
    requires forall line :: line in body ==> IsNeedLine(line)
    requires Step(c, walk, s, begin) ==
             Ok((s.(needStarted := true, needLines := ["NEED " + begin[11..]], expected := n,
                    round := s.round + [begin]), []))
    requires NeedFrom(["NEED " + begin[11..]] + body + ["END"]) == Ok(requests)
    requires Emitted(c, Scan(c, s.receiver.tree), s.receiver.tree, requests).completes
    ensures Process(c, walk, s, [begin] + body + ["NEED_END"]) ==
            Live(ServedNeed(c, s, n, ["NEED " + begin[11..]] + body + ["END"], [begin] + body + ["NEED_END"]),
                 Emitted(c, Scan(c, s.receiver.tree), s.receiver.tree, requests).lines)
  {
    var header := ["NEED " + begin[11..]];
    var s1 := s.(needStarted := true, needLines := header, expected := n, round := s.round + [begin]);
    OneStep(c, walk, s, begin);
    NeedBodyProcessed(c, walk, s1, body);
    var s2 := s1.(needLines := header + body, round := s1.round + body);
    NeedEndStep(c, walk, s2, requests);
    var s3 := ServedNeed(c, s, n, header + body + ["END"], [begin] + body + ["NEED_END"]);
    RegroupRound(s.round, begin, body);
    QuietThenStep(c, walk, s, [begin], s1, body, s2, "NEED_END", s3,
                  Emitted(c, Scan(c, s.receiver.tree), s.receiver.tree, requests).lines);
  }

  lemma {:induction false} RegroupRound(round: seq<string>, begin: string, body: seq<string>)
    ensures round + [begin] + body + ["NEED_END"] == round + ([begin] + body + ["NEED_END"])
  {
  }

  lemma {:induction false} NeedEndStep(c: Config, walk: Walk, s: Inbound, requests: seq<NeedRequest>)
    requires c.chunkSize > 0 && Walks(walk) && s.phase == NeedPhase && s.needStarted
    requires NeedFrom(s.needLines + ["END"]) == Ok(requests)
    requires Emitted(c, Scan(c, s.receiver.tree), s.receiver.tree, requests).completes
    ensures Step(c, walk, s, "NEED_END") ==
            Ok((s.(needLines := s.needLines + ["END"], manifest := Scan(c, s.receiver.tree), phase := AckPhase,
                   round := s.round + ["NEED_END"]),
                Emitted(c, Scan(c, s.receiver.tree), s.receiver.tree, requests).lines))
  {
    assert !StartsWith("NEED_END", "NEED_BEGIN ");
  }

  /** Step D: the acknowledgement ends the round and the responder waits for the next one. */
  lemma {:induction false} AckExchanged(c: Config, walk: Walk, s: Inbound)
    requires c.chunkSize > 0 && Walks(walk) && s.phase == AckPhase
    ensures Process(c, walk, s, ["OK"]).Live? && Process(c, walk, s, ["OK"]).out == ["READY"]
    ensures s.receiver == R.Initial(s.receiver.tree) ==>
              Waiting(Process(c, walk, s, ["OK"]).state, s.receiver.tree, s.saved)
  {
    OneStep(c, walk, s, "OK");
  }
}
