/** The read callback of an inbound connection: bytes in, complete lines out of the buffer, one at a time. */
module SessionObject {
  import opened Wrappers
  import opened Text
  import opened Sequences
  import opened Files
  import opened Session

  class InboundConnection {
    const config: Config
    const walk: Walk
    var state: Inbound
    var buffer: string
    var output: seq<string>
    var open: bool

    ghost predicate Valid()
      reads this
    {
      config.chunkSize > 0 && Walks(walk)
    }

    ghost function Current(): Outcome
      reads this
    {
      if open then Live(state, output) else Closed(output)
    }

    ghost function View(): Connection
      reads this
    {
      Connection(Current(), if open then buffer else "")
    }

    constructor (config: Config, walk: Walk, inbound: Inbound)
      requires config.chunkSize > 0 && Walks(walk)
      ensures Valid() && this.config == config && this.walk == walk
      ensures View() == Connection(Live(inbound, []), "")
    {
      this.config, this.walk, state := config, walk, inbound;
      buffer, output, open := "", [], true;
    }

    method OnRead(input: string)
      requires Valid()
      modifies this
      ensures Valid() && View() == Receive(config, walk, old(View()), input)
    {
      if !open {
        return;
      }
      buffer := buffer + input;
      if |buffer| > MAX_CONTROL_BUFFER {
        open := false;
        return;
      }
      ghost var total, left := Total(config, walk, state, output, buffer), Leftover(buffer);
      var more := true;
      while more
        invariant Valid() && open
        invariant total == Total(config, walk, state, output, buffer) && left == Leftover(buffer)
        invariant !more ==> '\n' !in buffer
        decreases more, |buffer|
      {
        var end := FindNewline(buffer);
        if end == |buffer| {
          more := false;
        } else {
          var frame := buffer[..end];
          OneFrame(config, walk, state, output, buffer, end);
          buffer := buffer[end + 1..];
          var step := Step(config, walk, state, frame);
          if step.Err? {
            open := false;
            return;
          }
          state, output := step.value.0, output + step.value.1;
        }
      }
      NoFrame(config, walk, state, output, buffer);
    }
  }

  /** What a session that has said `out` will have said once all of `bytes` is handled. */
  ghost function Total(c: Config, walk: Walk, s: Inbound, out: seq<string>, bytes: string): Outcome
    requires c.chunkSize > 0 && Walks(walk)
  {
    Extend(Live(s, out), Process(c, walk, s, Frames(bytes)))
  }

  /** Handling the first complete line of the buffer by itself changes nothing in the total. */
  lemma {:induction false} OneFrame(c: Config, walk: Walk, s: Inbound, out: seq<string>, bytes: string, end: nat)
    requires c.chunkSize > 0 && Walks(walk)
    requires end < |bytes| && bytes[end] == '\n' && OneLine(bytes[..end])
    ensures Leftover(bytes) == Leftover(bytes[end + 1..])
    ensures Total(c, walk, s, out, bytes) ==
            match Step(c, walk, s, bytes[..end])
            case Err => Closed(out)
            case Ok(next) => Total(c, walk, next.0, out + next.1, bytes[end + 1..])
  {
    var frame, rest := bytes[..end], bytes[end + 1..];
    assert bytes == frame + "\n" + rest;
    FrameFirst(frame, rest);
    ProcessFirst(c, walk, s, frame, Frames(rest));
    match Step(c, walk, s, frame)
    case Err => EmptyConcat(out);
    case Ok(next) => ExtendTwice(s, out, next.0, next.1, Process(c, walk, next.0, Frames(rest)));
  }

  lemma {:induction false} NoFrame(c: Config, walk: Walk, s: Inbound, out: seq<string>, bytes: string)
    requires c.chunkSize > 0 && Walks(walk) && '\n' !in bytes
    ensures Leftover(bytes) == bytes && Total(c, walk, s, out, bytes) == Live(s, out)
  {
    OneLineStays(bytes);
    EmptyConcat(out);
  }

  method FindNewline(buffer: string) returns (end: nat)
    ensures end <= |buffer| && OneLine(buffer[..end])
    ensures end < |buffer| ==> buffer[end] == '\n'
    ensures end == |buffer| ==> '\n' !in buffer
  {
    end := 0;
    while end < |buffer| && buffer[end] != '\n'
      invariant 0 <= end <= |buffer| && forall i :: 0 <= i < end ==> buffer[i] != '\n'
    {
      end := end + 1;
    }
  }

  lemma {:induction false} ProcessFirst(c: Config, walk: Walk, s: Inbound, frame: string, rest: seq<string>)
    requires c.chunkSize > 0 && Walks(walk)
    ensures Process(c, walk, s, [frame] + rest) ==
            match Step(c, walk, s, frame)
            case Err => Closed([])
            case Ok(next) => Extend(Live(next.0, next.1), Process(c, walk, next.0, rest))
  {
    ProcessAppend(c, walk, s, [frame], rest);
    assert [frame][..0] == [];
    if Step(c, walk, s, frame).Ok? {
      EmptyConcat(Step(c, walk, s, frame).value.1);
    }
  }

  lemma {:induction false} ExtendTwice(s: Inbound, a: seq<string>, t: Inbound, b: seq<string>, rest: Outcome)
    ensures Extend(Live(s, a), Extend(Live(t, b), rest)) == Extend(Live(t, a + b), rest)
  {
    Associate(a, b, rest.out);
  }
}
