/** Over every sequence of frames, a need list is computed only from one complete, greeted manifest. */
module SessionInvariant {
  import opened Wrappers
  import opened Text
  import opened Sequences
  import opened Protocol
  import opened Files
  import opened Session

  predicate IsHello(frame: string) {
    StartsWith(frame, "HELLO ")
  }

  predicate IsBegin(frame: string) {
    StartsWith(frame, "MANIFEST_BEGIN ")
  }

  /** The only greeting of the round, and it carries the right version and token. */
  ghost predicate Greeted(c: Config, round: seq<string>, j: nat) {
    && j < |round| && IsHello(round[j]) && Greets(c, round[j])
    && forall i :: 0 <= i < |round| && i != j ==> !IsHello(round[i])
  }

  /** The only manifest header of the round, declaring `n` entries. */
  ghost predicate Begun(round: seq<string>, k: nat, n: nat) {
    && k < |round| && IsBegin(round[k]) && Number(round[k][15..]) == Ok(n)
    && forall i :: 0 <= i < |round| && i != k ==> !IsBegin(round[i])
  }

  /** The round so far: a greeting, later a header, and after it exactly the entries of `m`. */
  ghost predicate Collecting(c: Config, round: seq<string>, j: nat, k: nat, n: nat, m: Manifest) {
    && j < k && Greeted(c, round, j) && Begun(round, k, n)
    && ParseEntries(round[k + 1..], map[]) == Ok(m)
  }

  ghost predicate Inv(c: Config, s: Inbound) {
    s.phase == ManifestPhase ==>
      && (if s.helloReceived then exists j: nat :: Greeted(c, s.round, j)
          else forall i :: 0 <= i < |s.round| ==> !IsHello(s.round[i]))
      && (if s.manifestStarted
          then exists j: nat, k: nat ::
                 Collecting(c, s.round, j, k, s.expected, s.manifest) && s.entries == |s.round| - k - 1
          else forall i :: 0 <= i < |s.round| ==> !IsBegin(s.round[i]))
      && (s.manifestStarted ==> s.helloReceived)
  }

  lemma {:induction false} EntriesSnoc(lines: seq<string>, line: string, done: Manifest)
    ensures ParseEntries(lines + [line], done) ==
            match ParseEntries(lines, done)
            case Err => Err
            case Ok(m) => ParseEntries([line], m)
  {
    if lines == [] {
      EmptyConcat([line]);
    } else {
      TailConcat(lines, [line]);
      match ParseManifestEntry(lines[0])
      case Err =>
      case Ok(entry) =>
        if entry.0 !in done {
          EntriesSnoc(lines[1..], line, done[entry.0 := entry.1]);
        }
    }
  }

  lemma {:induction false} PrefixesDiffer(frame: string)
    ensures !(IsHello(frame) && IsBegin(frame))
    ensures !IsHello("MANIFEST_END") && !IsBegin("MANIFEST_END")
  {
    assert IsHello(frame) ==> frame[..6][0] == frame[0];
    assert IsBegin(frame) ==> frame[..15][0] == frame[0];
    assert "MANIFEST_END"[..6][0] == 'M';
  }

  lemma {:induction false} GreetedGrows(c: Config, round: seq<string>, j: nat, frame: string)
    requires Greeted(c, round, j) && !IsHello(frame)
    ensures Greeted(c, round + [frame], j)
  {
  }

  lemma {:induction false} BegunGrows(round: seq<string>, k: nat, n: nat, frame: string)
    requires Begun(round, k, n) && !IsBegin(frame)
    ensures Begun(round + [frame], k, n)
  {
  }

  lemma {:induction false} HelloStep(c: Config, s: Inbound, frame: string)
    requires Inv(c, s) && s.phase == ManifestPhase && IsHello(frame) && !s.helloReceived && Greets(c, frame)
    ensures Inv(c, s.(helloReceived := true, round := s.round + [frame]))
  {
    PrefixesDiffer(frame);
    var round := s.round + [frame];
    assert Greeted(c, round, |s.round|);
  }

  lemma {:induction false} BeginStep(c: Config, s: Inbound, frame: string, n: nat)
    requires Inv(c, s) && s.phase == ManifestPhase && IsBegin(frame) && Number(frame[15..]) == Ok(n)
    requires s.helloReceived && !s.manifestStarted
    ensures Inv(c, s.(manifestStarted := true, manifest := map[], expected := n, entries := 0,
                       round := s.round + [frame]))
  {
    PrefixesDiffer(frame);
    var round := s.round + [frame];
    var j: nat :| Greeted(c, s.round, j);
    GreetedGrows(c, s.round, j, frame);
    assert Begun(round, |s.round|, n);
    assert round[|s.round| + 1..] == [];
    assert Collecting(c, round, j, |s.round|, n, map[]);
  }

  lemma {:induction false} EntryStep(c: Config, s: Inbound, frame: string, p: string, state: FileState)
    requires Inv(c, s) && s.phase == ManifestPhase && !IsHello(frame) && !IsBegin(frame)
    requires ParseManifestEntry(frame) == Ok((p, state)) && p !in s.manifest
    ensures Inv(c, s.(manifest := s.manifest[p := state], entries := s.entries + 1, round := s.round + [frame]))
  {
    var round := s.round + [frame];
    if s.helloReceived {
      var j: nat :| Greeted(c, s.round, j);
      GreetedGrows(c, s.round, j, frame);
    }
    if s.manifestStarted {
      var j: nat, k: nat :| Collecting(c, s.round, j, k, s.expected, s.manifest) && s.entries == |s.round| - k - 1;
      CollectingGrows(c, s.round, j, k, s.expected, s.manifest, frame, p, state);
    }
  }

  lemma {:induction false} CollectingGrows(c: Config, round: seq<string>, j: nat, k: nat, n: nat, m: Manifest,
      frame: string, p: string, state: FileState)
    requires Collecting(c, round, j, k, n, m) && !IsHello(frame) && !IsBegin(frame)
    requires ParseManifestEntry(frame) == Ok((p, state)) && p !in m
    ensures Collecting(c, round + [frame], j, k, n, m[p := state])
  {
    GreetedGrows(c, round, j, frame);
    BegunGrows(round, k, n, frame);
    EntriesSnoc(round[k + 1..], frame, map[]);
    assert (round + [frame])[k + 1..] == round[k + 1..] + [frame];
  }

  lemma {:induction false} ManifestStep(c: Config, walk: Walk, s: Inbound, frame: string)
    requires c.chunkSize > 0 && Walks(walk) && Inv(c, s) && s.phase == ManifestPhase
    requires OnManifestFrame(c, walk, s, frame).Ok?
    ensures Inv(c, OnManifestFrame(c, walk, s, frame).value.0.(round := s.round + [frame]))
  {
    if IsHello(frame) {
      HelloStep(c, s, frame);
    } else if IsBegin(frame) {
      BeginStep(c, s, frame, Number(frame[15..]).value);
    } else if frame != "MANIFEST_END" {
      var entry := ParseManifestEntry(frame).value;
      EntryStep(c, s, frame, entry.0, entry.1);
    }
  }

  lemma {:induction false} LaterPhases(c: Config, walk: Walk, s: Inbound, frame: string)
    requires c.chunkSize > 0 && Walks(walk) && s.phase != ManifestPhase && Step(c, walk, s, frame).Ok?
    ensures var t := Step(c, walk, s, frame).value.0;
            if s.phase == AckPhase then t.round == [] && !t.helloReceived && !t.manifestStarted
            else t.phase != ManifestPhase
    ensures s.phase != AckPhase ==> Step(c, walk, s, frame).value.0.round == s.round + [frame]
  {
    match s.phase
    case FilesPhase => assert OnFilesFrame(c, walk, s, frame).value.0.phase != ManifestPhase;
    case NeedPhase => NeedFrameStays(c, s, frame);
    case AckPhase =>
  }

  lemma {:induction false} NeedFrameStays(c: Config, s: Inbound, frame: string)
    requires c.chunkSize > 0 && s.phase == NeedPhase && OnNeedFrame(c, s, frame).Ok?
    ensures OnNeedFrame(c, s, frame).value.0.phase != ManifestPhase
  {
  }

  lemma {:induction false} StepKeepsInv(c: Config, walk: Walk, s: Inbound, frame: string)
    requires c.chunkSize > 0 && Walks(walk) && Inv(c, s) && Step(c, walk, s, frame).Ok?
    ensures Inv(c, Step(c, walk, s, frame).value.0)
    ensures var round := Step(c, walk, s, frame).value.0.round; round == [] || round == s.round + [frame]
  {
    if s.phase == ManifestPhase {
      ManifestStep(c, walk, s, frame);
    } else {
      LaterPhases(c, walk, s, frame);
    }
  }

  /** The frames of the current round are the last frames received. */
  ghost predicate Recent(round: seq<string>, frames: seq<string>) {
    |round| <= |frames| && round == frames[|frames| - |round|..]
  }

  lemma {:induction false} ProcessKeepsInv(c: Config, walk: Walk, tree: Tree, saved: Manifest, frames: seq<string>)
    requires c.chunkSize > 0 && Walks(walk)
    ensures var outcome := Process(c, walk, Fresh(tree, saved), frames);
            outcome.Live? ==> Inv(c, outcome.state) && Recent(outcome.state.round, frames)
  {
    if frames != [] {
      var init, frame := frames[..|frames| - 1], frames[|frames| - 1];
      ProcessKeepsInv(c, walk, tree, saved, init);
      var before := Process(c, walk, Fresh(tree, saved), init);
      if before.Live? && Step(c, walk, before.state, frame).Ok? {
        StepKeepsInv(c, walk, before.state, frame);
        RecentGrows(before.state.round, init, frame);
        PrefixSnoc(frames, |frames| - 1);
        PrefixAll(frames);
      }
    }
  }

  lemma {:induction false} RecentGrows(round: seq<string>, init: seq<string>, frame: string)
    requires Recent(round, init)
    ensures Recent(round + [frame], init + [frame]) && Recent([], init + [frame])
  {
  }

  /** One greeting, one header, and as many distinct entries as it declares: nothing else. */
  ghost predicate Complete(c: Config, round: seq<string>, m: Manifest) {
    exists j: nat, k: nat :: Collecting(c, round, j, k, |m|, m) && |round| == k + 1 + |m|
  }

  /**
   * Whenever MANIFEST_END makes the session compute its need list, the last frames received
   * were one complete manifest under a matching greeting.
   */
  lemma {:induction false} NeedOnlyFromCompleteManifest(c: Config, walk: Walk, tree: Tree, saved: Manifest,
      frames: seq<string>)
    requires c.chunkSize > 0 && Walks(walk)
    requires var before := Process(c, walk, Fresh(tree, saved), frames);
             before.Live? && before.state.phase == ManifestPhase && Step(c, walk, before.state, "MANIFEST_END").Ok?
    ensures var s := Process(c, walk, Fresh(tree, saved), frames).state;
            Recent(s.round, frames) && Complete(c, s.round, s.manifest)
  {
    ProcessKeepsInv(c, walk, tree, saved, frames);
    var s := Process(c, walk, Fresh(tree, saved), frames).state;
    EndNeedsAll(c, walk, s);
    CountedIsComplete(c, s);
  }

  lemma {:induction false} EndNeedsAll(c: Config, walk: Walk, s: Inbound)
    requires c.chunkSize > 0 && Walks(walk) && s.phase == ManifestPhase && Step(c, walk, s, "MANIFEST_END").Ok?
    ensures s.manifestStarted && s.entries == s.expected
  {
    PrefixesDiffer("");
  }

  lemma {:induction false} CountedIsComplete(c: Config, s: Inbound)
    requires Inv(c, s) && s.phase == ManifestPhase && s.manifestStarted && s.entries == s.expected
    ensures Complete(c, s.round, s.manifest)
  {
    var j: nat, k: nat :| Collecting(c, s.round, j, k, s.expected, s.manifest) && s.entries == |s.round| - k - 1;
    EntriesAreCounted(s.round[k + 1..], map[]);
  }
}
