/** The peer that opens a round: what it reads line by line and what it answers. */
module Initiator {
  import opened Wrappers
  import opened Sequences
  import opened Text
  import opened Delta
  import opened Protocol
  import opened NeedList
  import opened Files
  import opened Decision
  import opened Sender
  import opened Refinement
  import opened Session
  import opened Exchange
  import R = Receiver

  datatype Stage = AwaitNeed | AwaitManifest | Receiving | AwaitReady | Finished

  /** `sent` is the manifest announced at the start; `reverse` is read from the peer. */
  datatype Outbound = Outbound(stage: Stage, sent: Manifest, needLines: seq<string>, reverse: Manifest, expected: nat,
                               entries: nat, receiver: R.State, saved: Manifest)

  /** The round has just been opened with the manifest of this tree. */
  function Opening(c: Config, tree: Tree, saved: Manifest): Outbound {
    Outbound(AwaitNeed, Scan(c, tree), [], map[], 0, 0, R.Initial(tree), saved)
  }

  // ---------------------------------------------------------------- one line

  function HearNeed(c: Config, s: Outbound, line: string): Result<(Outbound, seq<string>)>
    requires c.chunkSize > 0
  {
    if line == "NEED_END" then
      var requests :- NeedFrom(s.needLines + ["END"]);
      var out := Emitted(c, s.sent, s.receiver.tree, requests);
      var _ :- Need(out.completes);
      Ok((s.(stage := AwaitManifest, needLines := s.needLines + ["END"]), out.lines))
    else if StartsWith(line, "NEED_BEGIN ") then Ok((s.(needLines := ["NEED " + line[11..]]), []))
    else Ok((s.(needLines := s.needLines + [line]), []))
  }

  function ReverseRequests(c: Config, walk: Walk, s: Outbound): seq<NeedRequest>
    requires c.chunkSize > 0
  {
    Requests(c, s.receiver.tree, s.saved, s.reverse, walk(s.reverse.Keys), walk(s.saved.Keys))
  }

  /** A greeting is skipped unread. */
  function HearManifest(c: Config, walk: Walk, s: Outbound, line: string): Result<(Outbound, seq<string>)>
    requires c.chunkSize > 0
  {
    if line == "MANIFEST_END" then
      var _ :- Need(s.entries == s.expected);
      Ok((s.(stage := Receiving), NeedMessage(ReverseRequests(c, walk, s))))
    else if StartsWith(line, "HELLO ") then Ok((s, []))
    else if StartsWith(line, "MANIFEST_BEGIN ") then
      var count :- Number(line[15..]);
      Ok((s.(expected := count), []))
    else
      var entry :- ParseManifestEntry(line);
      var _ :- Need(entry.0 !in s.reverse);
      Ok((s.(reverse := s.reverse[entry.0 := entry.1], entries := s.entries + 1), []))
  }

  function HearFiles(c: Config, s: Outbound, line: string): Result<(Outbound, seq<string>)> {
    var step :- R.Apply(c, s.receiver, line);
    if step.1 then Ok((s.(stage := AwaitReady, receiver := R.Initial(step.0.tree)), ["OK"]))
    else Ok((s.(receiver := step.0), []))
  }

  function HearReady(c: Config, s: Outbound, line: string): Result<(Outbound, seq<string>)> {
    var _ :- Need(line == "READY");
    Ok((s.(stage := Finished, saved := Saved(c, s.saved, s.receiver.tree)), []))
  }

  /** One line: the next state and what is sent, or the round is given up. */
  function Hear(c: Config, walk: Walk, s: Outbound, line: string): Result<(Outbound, seq<string>)>
    requires c.chunkSize > 0
  {
    var _ :- Need(|line| <= MAX_LINE);
    match s.stage
    case AwaitNeed => HearNeed(c, s, line)
    case AwaitManifest => HearManifest(c, walk, s, line)
    case Receiving => HearFiles(c, s, line)
    case AwaitReady => HearReady(c, s, line)
    case Finished => Err
  }

  function HearAll(c: Config, walk: Walk, s: Outbound, lines: seq<string>): Result<(Outbound, seq<string>)>
    requires c.chunkSize > 0
  {
    if lines == [] then Ok((s, []))
    else
      var before :- HearAll(c, walk, s, lines[..|lines| - 1]);
      var step :- Hear(c, walk, before.0, lines[|lines| - 1]);
      Ok((step.0, before.1 + step.1))
  }

  lemma {:induction false} HearSnoc(c: Config, walk: Walk, s: Outbound, lines: seq<string>, t: Outbound,
      out: seq<string>, line: string, next: Outbound, more: seq<string>)
    requires c.chunkSize > 0
    requires HearAll(c, walk, s, lines) == Ok((t, out)) && Hear(c, walk, t, line) == Ok((next, more))
    ensures HearAll(c, walk, s, lines + [line]) == Ok((next, out + more))
  {
    InitConcat(lines, [line]);
    EmptyConcat(lines);
  }

  /** Lines may be read in two portions. */
  lemma {:induction false} HearAppend(c: Config, walk: Walk, s: Outbound, a: seq<string>, t: Outbound, out: seq<string>,
      b: seq<string>, u: Outbound, more: seq<string>)
    requires c.chunkSize > 0
    requires HearAll(c, walk, s, a) == Ok((t, out)) && HearAll(c, walk, t, b) == Ok((u, more))
    ensures HearAll(c, walk, s, a + b) == Ok((u, out + more))
    decreases |b|
  {
    if b == [] {
      EmptyConcat(a);
      EmptyConcat(out);
    } else {
      var init, line := SplitLast(b);
      HearLast(c, walk, t, init, line);
      var before := HearAll(c, walk, t, init).value;
      var step := Hear(c, walk, before.0, line).value;
      HearAppend(c, walk, s, a, t, out, init, before.0, before.1);
      HearSnoc(c, walk, s, a + init, before.0, out + before.1, line, step.0, step.1);
      Associate(a, init, [line]);
      Associate(out, before.1, step.1);
    }
  }

  lemma {:induction false} HearLast(c: Config, walk: Walk, s: Outbound, init: seq<string>, line: string)
    requires c.chunkSize > 0 && HearAll(c, walk, s, init + [line]).Ok?
    ensures HearAll(c, walk, s, init).Ok? && Hear(c, walk, HearAll(c, walk, s, init).value.0, line).Ok?
    ensures HearAll(c, walk, s, init + [line]).value ==
            (Hear(c, walk, HearAll(c, walk, s, init).value.0, line).value.0,
             HearAll(c, walk, s, init).value.1 + Hear(c, walk, HearAll(c, walk, s, init).value.0, line).value.1)
  {
    InitConcat(init, [line]);
    EmptyConcat(init);
  }

  lemma {:induction false} HearOne(c: Config, walk: Walk, s: Outbound, line: string, next: Outbound, out: seq<string>)
    requires c.chunkSize > 0 && Hear(c, walk, s, line) == Ok((next, out))
    ensures HearAll(c, walk, s, [line]) == Ok((next, out))
  {
    HearSnoc(c, walk, s, [], s, [], line, next, out);
    EmptyConcat([line]);
    EmptyConcat(out);
  }

  /** Lines that are read in silence, and then one that is answered. */
  lemma {:induction false} SilenceThen(c: Config, walk: Walk, s: Outbound, first: string, s1: Outbound,
      middle: seq<string>, s2: Outbound, last: string, s3: Outbound, out: seq<string>)
    requires c.chunkSize > 0
    requires Hear(c, walk, s, first) == Ok((s1, [])) && HearAll(c, walk, s1, middle) == Ok((s2, []))
    requires Hear(c, walk, s2, last) == Ok((s3, out))
    ensures HearAll(c, walk, s, [first] + middle + [last]) == Ok((s3, out))
  {
    HearOne(c, walk, s, first, s1, []);
    HearAppend(c, walk, s, [first], s1, [], middle, s2, []);
    EmptyConcat<string>([]);
    HearSnoc(c, walk, s, [first] + middle, s2, [], last, s3, out);
    EmptyConcat(out);
  }

  // ---------------------------------------------------------------- the need list

  lemma {:induction false} NeedBodyHeard(c: Config, walk: Walk, s: Outbound, lines: seq<string>)
    requires c.chunkSize > 0 && s.stage == AwaitNeed && Fit(lines) && forall line :: line in lines ==> IsNeedLine(line)
    ensures HearAll(c, walk, s, lines) == Ok((s.(needLines := s.needLines + lines), []))
    decreases |lines|
  {
    if lines == [] {
      EmptyConcat(s.needLines);
    } else {
      var init, line := SplitLast(lines);
      assert line in lines;
      FitSnoc(init, line);
      NeedBodyHeard(c, walk, s, init);
      var t := s.(needLines := s.needLines + init);
      OtherHead(line, "NEED_BEGIN ");
      OtherHead(line, "NEED_END");
      Associate(s.needLines, init, [line]);
      HearSnoc(c, walk, s, init, t, [], line, t.(needLines := t.needLines + [line]), []);
      EmptyConcat<string>([]);
    }
  }

  lemma {:induction false} NeedBeginHeard(c: Config, walk: Walk, s: Outbound, n: nat)
    requires c.chunkSize > 0 && s.stage == AwaitNeed && |BeginLine(n)| <= MAX_LINE
    ensures |BeginLine(n)| >= 11
    ensures Hear(c, walk, s, BeginLine(n)) == Ok((s.(needLines := ["NEED " + BeginLine(n)[11..]]), []))
  {
    JoinTwo("NEED_BEGIN", Decimal(n));
    assert BeginLine(n)[..11] == "NEED_BEGIN ";
    assert BeginLine(n)[5] == 'B';
  }

  /** A need message that parses is answered with the files it asks for, from the manifest announced. */
  lemma {:induction false} NeedHeard(c: Config, walk: Walk, s: Outbound, requests: seq<NeedRequest>)
    requires c.chunkSize > 0 && s.stage == AwaitNeed && Fit(NeedMessage(requests))
    requires |NeedMessage(requests)| >= 2 && |NeedMessage(requests)[0]| >= 11
    requires NeedFrom(Collected(NeedMessage(requests))) == Ok(requests)
    requires Emitted(c, s.sent, s.receiver.tree, requests).completes
    ensures HearAll(c, walk, s, NeedMessage(requests)) ==
            Ok((s.(stage := AwaitManifest, needLines := Collected(NeedMessage(requests))),
                Emitted(c, s.sent, s.receiver.tree, requests).lines))
  {
    var n, body := |requests|, NeedLines(requests);
    var message := NeedMessage(requests);
    assert BeginLine(n) in message && forall line :: line in body ==> line in message;
    NeedBeginHeard(c, walk, s, n);
    NeedLinesHead(requests);
    CollectedMessage(requests);
    MiddleOf(BeginLine(n), body, "NEED_END");
    NeedTextHeard(c, walk, s, BeginLine(n), body, requests);
  }

  lemma {:induction false} NeedTextHeard(c: Config, walk: Walk, s: Outbound, begin: string, body: seq<string>,
      requests: seq<NeedRequest>)
    requires c.chunkSize > 0 && s.stage == AwaitNeed && |begin| >= 11 && Fit(body)
    requires forall line :: line in body ==> IsNeedLine(line)
    requires Hear(c, walk, s, begin) == Ok((s.(needLines := ["NEED " + begin[11..]]), []))
    requires NeedFrom(["NEED " + begin[11..]] + body + ["END"]) == Ok(requests)
    requires Emitted(c, s.sent, s.receiver.tree, requests).completes
    ensures HearAll(c, walk, s, [begin] + body + ["NEED_END"]) ==
            Ok((s.(stage := AwaitManifest, needLines := ["NEED " + begin[11..]] + body + ["END"]),
                Emitted(c, s.sent, s.receiver.tree, requests).lines))
  {
    var s1 := s.(needLines := ["NEED " + begin[11..]]);
    NeedBodyHeard(c, walk, s1, body);
    var s2 := s1.(needLines := s1.needLines + body);
    SilenceThen(c, walk, s, begin, s1, body, s2, "NEED_END",
                s2.(stage := AwaitManifest, needLines := s2.needLines + ["END"]),
                Emitted(c, s.sent, s.receiver.tree, requests).lines);
  }

  // ---------------------------------------------------------------- the reverse manifest

  ghost predicate Gathered(c: Config, walk: Walk, s: Outbound, lines: seq<string>, m: Manifest)
    requires c.chunkSize > 0
  {
    HearAll(c, walk, s, lines) == Ok((s.(reverse := m, entries := s.entries + |lines|), []))
  }

  lemma {:induction false} EntryHeard(c: Config, walk: Walk, s: Outbound, line: string, m: Manifest)
    requires c.chunkSize > 0 && s.stage == AwaitManifest && IsEntryLine(line) && |line| <= MAX_LINE
    requires ParseEntries([line], s.reverse) == Ok(m)
    ensures Hear(c, walk, s, line) == Ok((s.(reverse := m, entries := s.entries + 1), []))
  {
    OtherHead(line, "HELLO ");
    OtherHead(line, "MANIFEST_BEGIN ");
    OtherHead(line, "MANIFEST_END");
    assert [line][1..] == [];
  }

  lemma {:induction false} EntriesHeard(c: Config, walk: Walk, s: Outbound, lines: seq<string>, m: Manifest)
    requires c.chunkSize > 0 && s.stage == AwaitManifest && Fit(lines)
    requires forall line :: line in lines ==> IsEntryLine(line)
    requires ParseEntries(lines, s.reverse) == Ok(m)
    ensures Gathered(c, walk, s, lines, m)
    decreases |lines|
  {
    if lines != [] {
      var init, line := SplitLast(lines);
      SplitEntries(init, line, s.reverse, m);
      var before := ParseEntries(init, s.reverse).value;
      EntriesHeard(c, walk, s, init, before);
      GatheredGrows(c, walk, s, init, before, line, m);
    }
  }

  lemma {:induction false} GatheredGrows(c: Config, walk: Walk, s: Outbound, init: seq<string>, before: Manifest,
      line: string, m: Manifest)
    requires c.chunkSize > 0 && s.stage == AwaitManifest && IsEntryLine(line) && |line| <= MAX_LINE
    requires Gathered(c, walk, s, init, before) && ParseEntries([line], before) == Ok(m)
    ensures Gathered(c, walk, s, init + [line], m)
  {
    var t := s.(reverse := before, entries := s.entries + |init|);
    EntryHeard(c, walk, t, line, m);
    SilentSnoc(c, walk, s, init, t, line, t.(reverse := m, entries := t.entries + 1));
  }

  lemma {:induction false} SilentSnoc(c: Config, walk: Walk, s: Outbound, lines: seq<string>, t: Outbound,
      line: string, next: Outbound)
    requires c.chunkSize > 0
    requires HearAll(c, walk, s, lines) == Ok((t, [])) && Hear(c, walk, t, line) == Ok((next, []))
    ensures HearAll(c, walk, s, lines + [line]) == Ok((next, []))
  {
    HearSnoc(c, walk, s, lines, t, [], line, next, []);
    EmptyConcat<string>([]);
  }

  lemma {:induction false} GreetingHeard(c: Config, walk: Walk, s: Outbound, token: string)
    requires c.chunkSize > 0 && s.stage == AwaitManifest
    requires |Join(["HELLO", "filesync/4", Quote(token)])| <= MAX_LINE
    ensures Hear(c, walk, s, Join(["HELLO", "filesync/4", Quote(token)])) == Ok((s, []))
  {
    var words := ["HELLO", "filesync/4", Quote(token)];
    JoinHead(words);
    OtherHead(Join(words), "MANIFEST_END");
    assert words[1..] == ["filesync/4", Quote(token)];
    assert Join(words)[..6] == "HELLO ";
  }

  lemma {:induction false} HeaderHeard(c: Config, walk: Walk, s: Outbound, n: nat)
    requires c.chunkSize > 0 && s.stage == AwaitManifest && n < TWO_64
    requires |Join(["MANIFEST_BEGIN", Decimal(n)])| <= MAX_LINE
    ensures Hear(c, walk, s, Join(["MANIFEST_BEGIN", Decimal(n)])) == Ok((s.(expected := n), []))
  {
    var begin := Join(["MANIFEST_BEGIN", Decimal(n)]);
    JoinTwo("MANIFEST_BEGIN", Decimal(n));
    JoinHead(["MANIFEST_BEGIN", Decimal(n)]);
    NumberDecimal(n);
    OtherHead(begin, "HELLO ");
    assert begin[..15] == "MANIFEST_BEGIN " && begin[15..] == Decimal(n);
    assert begin[9] == 'B';
  }

  /** The state once the whole reverse manifest `m` has been read. */
  function Informed(s: Outbound, m: Manifest): Outbound {
    s.(stage := Receiving, reverse := m, expected := |m|, entries := |m|)
  }

  /** The responder's manifest is read as its scan and answered with the need list for it. */
  lemma {:induction false} ManifestHeard(cs: Config, c: Config, ws: Walk, walk: Walk, s: Outbound, m: Manifest)
    requires c.chunkSize > 0 && Walks(ws) && s.stage == AwaitManifest && s.reverse == map[] && s.entries == 0
    requires GoodManifest(m) && |m| < TWO_64 && Fit(ManifestMessage(cs, ws, m))
    ensures var informed := Informed(s, ManifestOnWire(m));
            HearAll(c, walk, s, ManifestMessage(cs, ws, m)) ==
            Ok((informed, NeedMessage(ReverseRequests(c, walk, informed))))
  {
    var order := ws(m.Keys);
    var hello, begin, entries := Join(["HELLO", "filesync/4", Quote(cs.token)]), Join(["MANIFEST_BEGIN", Decimal(|m|)]),
                                 EntryLines(m, order);
    ReadBack(m, order);
    EntryLinesHead(m, order);
    var message := [hello, begin] + entries + ["MANIFEST_END"];
    assert hello in message && begin in message && forall line :: line in entries ==> line in message;
    assert ManifestOnWire(m).Keys == m.Keys;
    GreetingHeard(c, walk, s, cs.token);
    HeaderHeard(c, walk, s, |m|);
    ManifestTextHeard(c, walk, s, hello, begin, entries, ManifestOnWire(m));
  }

  lemma {:induction false} ReadBack(m: Manifest, order: seq<string>)
    requires GoodManifest(m) && Enumerates(order, m.Keys)
    ensures |EntryLines(m, order)| == |m| && ParseEntries(EntryLines(m, order), map[]) == Ok(ManifestOnWire(m))
  {
    EntriesRoundTrip(m, order, map[]);
    OrderLength(order, m.Keys);
    PickAll(ManifestOnWire(m), order);
  }

  lemma {:induction false} ManifestTextHeard(c: Config, walk: Walk, s: Outbound, hello: string, begin: string,
      entries: seq<string>, m: Manifest)
    requires c.chunkSize > 0 && s.stage == AwaitManifest && s.reverse == map[] && s.entries == 0
    requires Hear(c, walk, s, hello) == Ok((s, [])) && Hear(c, walk, s, begin) == Ok((s.(expected := |m|), []))
    requires Fit(entries) && (forall line :: line in entries ==> IsEntryLine(line))
    requires |entries| == |m| && ParseEntries(entries, map[]) == Ok(m)
    ensures HearAll(c, walk, s, [hello, begin] + entries + ["MANIFEST_END"]) ==
            Ok((Informed(s, m), NeedMessage(ReverseRequests(c, walk, Informed(s, m)))))
  {
    var s1, asks := s.(expected := |m|), NeedMessage(ReverseRequests(c, walk, Informed(s, m)));
    EntriesHeard(c, walk, s1, entries, m);
    var s2 := s1.(reverse := m, entries := |m|);
    EndHeard(c, walk, s, m);
    SilenceThen(c, walk, s, begin, s1, entries, s2, "MANIFEST_END", Informed(s, m), asks);
    HearOne(c, walk, s, hello, s, []);
    HearAppend(c, walk, s, [hello], s, [], [begin] + entries + ["MANIFEST_END"], Informed(s, m), asks);
    EmptyConcat(asks);
    HeadFirst(hello, begin, entries, "MANIFEST_END");
  }

  lemma {:induction false} EndHeard(c: Config, walk: Walk, s: Outbound, m: Manifest)
    requires c.chunkSize > 0 && s.stage == AwaitManifest
    ensures Hear(c, walk, s.(expected := |m|, reverse := m, entries := |m|), "MANIFEST_END") ==
            Ok((Informed(s, m), NeedMessage(ReverseRequests(c, walk, Informed(s, m)))))
  {
  }

  lemma {:induction false} HeadFirst(a: string, b: string, middle: seq<string>, last: string)
    ensures [a] + ([b] + middle + [last]) == [a, b] + middle + [last]
  {
  }

  // ---------------------------------------------------------------- the files

  lemma {:induction false} QuietFilesHeard(c: Config, walk: Walk, s: Outbound, lines: seq<string>, end: R.State)
    requires c.chunkSize > 0 && s.stage == Receiving && Fit(lines)
    requires R.Run(c, s.receiver, lines) == Ok((end, Quiet(|lines|)))
    ensures HearAll(c, walk, s, lines) == Ok((s.(receiver := end), []))
    decreases |lines|
  {
    if lines != [] {
      var init, line := SplitLast(lines);
      FitSnoc(init, line);
      QuietRun(c, s.receiver, init, line, |lines|);
      var before := R.Run(c, s.receiver, init).value.0;
      QuietFilesHeard(c, walk, s, init, before);
      HearSnoc(c, walk, s, init, s.(receiver := before), [], line, s.(receiver := end), []);
      EmptyConcat<string>([]);
    }
  }

  /** A transfer that the receiver accepts is applied and acknowledged. */
  lemma {:induction false} FilesHeard(c: Config, walk: Walk, s: Outbound, lines: seq<string>, tree: Tree, count: nat)
    requires c.chunkSize > 0 && s.stage == Receiving && Fit(lines) && lines != []
    requires R.Run(c, s.receiver, lines) == Ok((R.Initial(tree).(completed := count), Quiet(|lines| - 1) + [true]))
    ensures HearAll(c, walk, s, lines) == Ok((s.(stage := AwaitReady, receiver := R.Initial(tree)), ["OK"]))
  {
    var init, line := SplitLast(lines);
    FitSnoc(init, line);
    LastOfRun(c, s.receiver, init, line, R.Initial(tree).(completed := count));
    var before := R.Run(c, s.receiver, init).value.0;
    QuietFilesHeard(c, walk, s, init, before);
    HearSnoc(c, walk, s, init, s.(receiver := before), [], line,
             s.(stage := AwaitReady, receiver := R.Initial(tree)), ["OK"]);
    EmptyConcat(["OK"]);
  }

  /** A transfer that the receiver refuses ends the round for the initiator too. */
  lemma {:induction false} FilesNotHeard(c: Config, walk: Walk, s: Outbound, lines: seq<string>)
    requires c.chunkSize > 0 && s.stage == Receiving && Fit(lines) && Refuses(c, s.receiver, lines)
    ensures HearAll(c, walk, s, lines) == Err
  {
    var k: nat :| RefusedAt(c, s.receiver, lines, k);
    NotHeardThere(c, walk, s, lines[..k], lines[k], R.Run(c, s.receiver, lines[..k]).value.0, lines[k + 1..]);
    ThreeParts(lines, k);
  }

  lemma {:induction false} NotHeardThere(c: Config, walk: Walk, s: Outbound, init: seq<string>, line: string,
      before: R.State, more: seq<string>)
    requires c.chunkSize > 0 && s.stage == Receiving && Fit(init)
    requires R.Run(c, s.receiver, init) == Ok((before, Quiet(|init|))) && R.Apply(c, before, line) == Err
    ensures HearAll(c, walk, s, init + [line] + more) == Err
  {
    QuietFilesHeard(c, walk, s, init, before);
    InitConcat(init, [line]);
    EmptyConcat(init);
    HearStops(c, walk, s, init + [line], more);
  }

  lemma {:induction false} HearStops(c: Config, walk: Walk, s: Outbound, lines: seq<string>, more: seq<string>)
    requires c.chunkSize > 0 && lines != []
    requires var init := lines[..|lines| - 1];
             HearAll(c, walk, s, init).Ok? && Hear(c, walk, HearAll(c, walk, s, init).value.0, lines[|lines| - 1]).Err?
    ensures HearAll(c, walk, s, lines + more) == Err
    decreases |more|
  {
    if more == [] {
      EmptyConcat(lines);
    } else {
      HearStops(c, walk, s, lines, more[..|more| - 1]);
      assert (lines + more)[..|lines + more| - 1] == lines + more[..|more| - 1];
    }
  }
}
