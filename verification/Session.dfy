/** The inbound session: manifest, files, need and acknowledgement, driven by lines from the network. */
module Session {
  import opened Wrappers
  import opened Text
  import opened Sequences
  import opened Delta
  import opened Protocol
  import opened NeedList
  import opened Files
  import opened Decision
  import opened Sender
  import R = Receiver

  const MAX_LINE: nat := 2 * 1024 * 1024
  const MAX_CONTROL_BUFFER: nat := 16 * 1024 * 1024

  datatype Phase = ManifestPhase | FilesPhase | NeedPhase | AckPhase

  /**
   * The receiver's tree is the peer's tree, `saved` the state file, and `round` records the
   * frames accepted since the round began.
   */
  datatype Inbound = Inbound(phase: Phase, manifest: Manifest, needLines: seq<string>, receiver: R.State,
                             expected: nat, entries: nat, helloReceived: bool, manifestStarted: bool, needStarted: bool,
                             saved: Manifest, round: seq<string>)

  function Fresh(tree: Tree, saved: Manifest): Inbound {
    Inbound(ManifestPhase, map[], [], R.Initial(tree), 0, 0, false, false, false, saved, [])
  }

  /** The order in which maps are walked: any that meets directories before what they hold. */
  type Walk = set<string> -> seq<string>

  ghost predicate Walks(walk: Walk) {
    forall keys :: Enumerates(walk(keys), keys) && AncestorsFirst(walk(keys))
  }

  /** Shorter names first is such an order. */
  ghost function ByLength(keys: set<string>): (order: seq<string>)
    ensures Enumerates(order, keys) && AncestorsFirst(order)
  {
    if keys == {} then []
    else
      LongestExists(keys);
      var p :| p in keys && forall q :: q in keys ==> |q| <= |p|;
      ByLength(keys - {p}) + [p]
  }

  lemma {:induction false} LongestExists(keys: set<string>)
    requires keys != {}
    ensures exists p :: p in keys && forall q :: q in keys ==> |q| <= |p|
  {
    var x :| x in keys;
    if keys != {x} {
      var rest := keys - {x};
      assert rest != {} by {
        assert keys == {x} + rest;
      }
      LongestExists(rest);
      var y :| y in rest && forall q :: q in rest ==> |q| <= |y|;
      var longest := if |x| <= |y| then y else x;
      assert longest in keys && forall q :: q in keys ==> |q| <= |longest|;
    }
  }

  lemma {:induction false} WalksExist() returns (walk: Walk)
    ensures Walks(walk)
  {
    walk := keys => ByLength(keys);
  }

  // ---------------------------------------------------------------- one frame

  predicate StartsWith(frame: string, prefix: string) {
    |prefix| <= |frame| && frame[..|prefix|] == prefix
  }

  predicate Greets(c: Config, frame: string) {
    var parts := Split(frame);
    |parts| == 3 && parts[0] == "HELLO" && parts[1] == "filesync/4" && Unquote(parts[2]) == Ok(c.token)
  }

  function OwnRequests(c: Config, walk: Walk, s: Inbound): seq<NeedRequest>
    requires c.chunkSize > 0
  {
    Requests(c, s.receiver.tree, s.saved, s.manifest, walk(s.manifest.Keys), walk(s.saved.Keys))
  }

  /** A manifest as version 4 of the protocol streams it. */
  function ManifestMessage(c: Config, walk: Walk, m: Manifest): seq<string>
    requires Walks(walk)
  {
    [Join(["HELLO", "filesync/4", Quote(c.token)]), Join(["MANIFEST_BEGIN", Decimal(|m|)])]
    + EntryLines(m, walk(m.Keys)) + ["MANIFEST_END"]
  }

  function OnManifestFrame(c: Config, walk: Walk, s: Inbound, frame: string): Result<(Inbound, seq<string>)>
    requires c.chunkSize > 0
  {
    if StartsWith(frame, "HELLO ") then
      var _ :- Need(!s.helloReceived && Greets(c, frame));
      Ok((s.(helloReceived := true), []))
    else if StartsWith(frame, "MANIFEST_BEGIN ") then
      var _ :- Need(s.helloReceived && !s.manifestStarted);
      var count :- Number(frame[15..]);
      var _ :- Need(count <= MAX_MANIFEST_ENTRIES);
      Ok((s.(manifestStarted := true, manifest := map[], expected := count, entries := 0), []))
    else if frame == "MANIFEST_END" then
      var _ :- Need(s.helloReceived && s.manifestStarted && s.entries == s.expected);
      Ok((s.(phase := FilesPhase), NeedMessage(OwnRequests(c, walk, s))))
    else
      var entry :- ParseManifestEntry(frame);
      var _ :- Need(entry.0 !in s.manifest);
      Ok((s.(manifest := s.manifest[entry.0 := entry.1], entries := s.entries + 1), []))
  }

  function OnFilesFrame(c: Config, walk: Walk, s: Inbound, frame: string): Result<(Inbound, seq<string>)>
    requires Walks(walk)
  {
    var step :- R.Apply(c, s.receiver, frame);
    if !step.1 then Ok((s.(receiver := step.0), []))
    else
      var m := Scan(c, step.0.tree);
      var next := s.(manifest := m, saved := Saved(c, s.saved, step.0.tree), receiver := R.Reset(step.0));
      if c.receiveOnly then Ok((next.(phase := AckPhase), ["READY"]))
      else Ok((next.(phase := NeedPhase), ManifestMessage(c, walk, m)))
  }

  function OnNeedFrame(c: Config, s: Inbound, frame: string): Result<(Inbound, seq<string>)>
    requires c.chunkSize > 0
  {
    if StartsWith(frame, "NEED_BEGIN ") then
      var _ :- Need(!s.needStarted);
      var count :- Number(frame[11..]);
      var _ :- Need(count <= MAX_TRANSFER_ENTRIES);
      Ok((s.(needStarted := true, needLines := ["NEED " + frame[11..]], expected := count), []))
    else if frame == "NEED_END" then
      var _ :- Need(s.needStarted);
      var requests :- NeedFrom(s.needLines + ["END"]);
      var m := Scan(c, s.receiver.tree);
      var out := Emitted(c, m, s.receiver.tree, requests);
      var _ :- Need(out.completes);
      Ok((s.(needLines := s.needLines + ["END"], manifest := m, phase := AckPhase), out.lines))
    else Ok((s.(needLines := s.needLines + [frame]), []))
  }

  function OnAckFrame(s: Inbound, frame: string): Result<(Inbound, seq<string>)> {
    var _ :- Need(frame == "OK");
    Ok((s.(phase := ManifestPhase, helloReceived := false, manifestStarted := false, needStarted := false), ["READY"]))
  }

  /** One frame: the next state and the lines sent back, or the connection is closed. */
  function Step(c: Config, walk: Walk, s: Inbound, frame: string): Result<(Inbound, seq<string>)>
    requires c.chunkSize > 0 && Walks(walk)
  {
    var _ :- Need(|frame| <= MAX_LINE);
    var next :-
      match s.phase
      case ManifestPhase => OnManifestFrame(c, walk, s, frame)
      case FilesPhase => OnFilesFrame(c, walk, s, frame)
      case NeedPhase => OnNeedFrame(c, s, frame)
      case AckPhase => OnAckFrame(s, frame);
    Ok((next.0.(round := if s.phase == AckPhase then [] else s.round + [frame]), next.1))
  }

  // ---------------------------------------------------------------- frame sequences

  /** A connection that is still open, or closed after having sent `out`. */
  datatype Outcome = Live(state: Inbound, out: seq<string>) | Closed(out: seq<string>)

  function Process(c: Config, walk: Walk, s: Inbound, frames: seq<string>): Outcome
    requires c.chunkSize > 0 && Walks(walk)
  {
    if frames == [] then Live(s, [])
    else
      match Process(c, walk, s, frames[..|frames| - 1])
      case Closed(out) => Closed(out)
      case Live(t, out) =>
        match Step(c, walk, t, frames[|frames| - 1])
        case Err => Closed(out)
        case Ok(next) => Live(next.0, out + next.1)
  }

  function Extend(first: Outcome, second: Outcome): Outcome {
    match first
    case Closed(_) => first
    case Live(_, out) =>
      match second
      case Closed(more) => Closed(out + more)
      case Live(s, more) => Live(s, out + more)
  }

  lemma {:induction false} ProcessAppend(c: Config, walk: Walk, s: Inbound, a: seq<string>, b: seq<string>)
    requires c.chunkSize > 0 && Walks(walk)
    ensures Process(c, walk, s, a + b) ==
            match Process(c, walk, s, a)
            case Closed(out) => Closed(out)
            case Live(t, out) => Extend(Live(t, out), Process(c, walk, t, b))
  {
    if b == [] {
      EmptyConcat(a);
      ExtendByNothing(Process(c, walk, s, a));
    } else {
      var b', frame := b[..|b| - 1], b[|b| - 1];
      ProcessAppend(c, walk, s, a, b');
      InitConcat(a, b);
      if Process(c, walk, s, a).Live? && Process(c, walk, Process(c, walk, s, a).state, b').Live? {
        var first := Process(c, walk, s, a);
        var second := Process(c, walk, first.state, b');
        if Step(c, walk, second.state, frame).Ok? {
          Associate(first.out, second.out, Step(c, walk, second.state, frame).value.1);
        }
      }
    }
  }

  lemma {:induction false} ExtendByNothing(first: Outcome)
    ensures first.Live? ==> Extend(first, Live(first.state, [])) == first
  {
    EmptyConcat(first.out);
  }

  // ---------------------------------------------------------------- packets

  /** A connection: what has been processed, and the bytes of the line not yet complete. */
  datatype Connection = Connection(outcome: Outcome, buffer: string)

  /** One packet from the network; the buffer limit is checked before any line is taken out. */
  function Receive(c: Config, walk: Walk, conn: Connection, packet: string): Connection
    requires c.chunkSize > 0 && Walks(walk)
  {
    if conn.outcome.Closed? then conn
    else
      var bytes := conn.buffer + packet;
      if |bytes| > MAX_CONTROL_BUFFER then Connection(Closed(conn.outcome.out), "")
      else
        match Extend(conn.outcome, Process(c, walk, conn.outcome.state, Frames(bytes)))
        case Closed(out) => Connection(Closed(out), "")
        case Live(s, out) => Connection(Live(s, out), Leftover(bytes))
  }

  function ReceiveAll(c: Config, walk: Walk, conn: Connection, packets: seq<string>): Connection
    requires c.chunkSize > 0 && Walks(walk)
  {
    if packets == [] then conn
    else Receive(c, walk, ReceiveAll(c, walk, conn, packets[..|packets| - 1]), packets[|packets| - 1])
  }

  function Concat(packets: seq<string>): string {
    if packets == [] then "" else Concat(packets[..|packets| - 1]) + packets[|packets| - 1]
  }

  /** No packet meets a buffer that would overflow with it. */
  ghost predicate WithinBuffer(packets: seq<string>) {
    forall n :: 0 <= n < |packets| ==> |Leftover(Concat(packets[..n])) + packets[n]| <= MAX_CONTROL_BUFFER
  }

  function Whole(c: Config, walk: Walk, s: Inbound, bytes: string): Connection
    requires c.chunkSize > 0 && Walks(walk)
  {
    match Process(c, walk, s, Frames(bytes))
    case Closed(out) => Connection(Closed(out), "")
    case Live(t, out) => Connection(Live(t, out), Leftover(bytes))
  }

  /** What the session does depends on the bytes received, not on how they were cut into packets. */
  lemma {:induction false} PacketsDoNotMatter(c: Config, walk: Walk, s: Inbound, packets: seq<string>)
    requires c.chunkSize > 0 && Walks(walk) && WithinBuffer(packets)
    ensures ReceiveAll(c, walk, Connection(Live(s, []), ""), packets) == Whole(c, walk, s, Concat(packets))
  {
    if packets != [] {
      var init, packet := packets[..|packets| - 1], packets[|packets| - 1];
      assert WithinBuffer(init) by {
        assert forall n :: 0 <= n < |init| ==> init[..n] == packets[..n] && init[n] == packets[n];
      }
      PacketsDoNotMatter(c, walk, s, init);
      assert packets[..|packets| - 1] == init;
      OnePacketMore(c, walk, s, Concat(init), packet);
    }
  }

  lemma {:induction false} OnePacketMore(c: Config, walk: Walk, s: Inbound, before: string, packet: string)
    requires c.chunkSize > 0 && Walks(walk) && |Leftover(before) + packet| <= MAX_CONTROL_BUFFER
    ensures Receive(c, walk, Whole(c, walk, s, before), packet) == Whole(c, walk, s, before + packet)
  {
    FramesSplitAnywhere(before, packet);
    ProcessAppend(c, walk, s, Frames(before), Frames(Leftover(before) + packet));
  }
}
