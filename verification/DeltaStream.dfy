/** The streaming delta generator: a sliding window over the source, an index over the basis. */
module DeltaStream {
  import opened Sequences
  import opened Wrappers
  import opened Text
  import opened Delta

  class OperationStream {
    const h: Sums
    const basis: FileSignature
    const source: seq<byte>
    var candidates: map<nat, seq<BlockSignature>>
    const window: array<byte>
    var available: nat
    var position: nat
    var pending: seq<byte>

    /** The index holds, under every key, the blocks with that key in file order. */
    ghost predicate Indexed(n: nat)
      reads this
      requires n <= |basis.blocks|
    {
      forall key :: WithKey(basis.blocks[..n], key) == if key in candidates then candidates[key] else []
    }

    /** A window that is not full means that the input is exhausted. */
    ghost predicate Valid()
      reads this, window
    {
      && 0 < basis.blockSize == window.Length < TWO_32
      && (forall b :: b in basis.blocks ==> b.size < TWO_32)
      && available <= window.Length && position <= |source|
      && (available < window.Length ==> position == |source|)
      && |pending| < MAX_DELTA_DATA
      && Indexed(|basis.blocks|)
    }

    /** The bytes not yet turned into an operation or collected. */
    ghost function Unread(): seq<byte>
      reads this, window
      requires Valid()
    {
      window[..available] + source[position..]
    }

    /** Everything that `Next` has still to produce. */
    ghost function Remaining(): seq<Operation>
      reads this, window
      requires Valid()
    {
      Operations(h, basis, Unread(), pending)
    }

    constructor (h: Sums, source: seq<byte>, basis: FileSignature)
      requires 0 < basis.blockSize < TWO_32 && forall b :: b in basis.blocks ==> b.size < TWO_32
      ensures Valid() && fresh(window)
      ensures this.h == h && this.source == source && this.basis == basis
      ensures Remaining() == Operations(h, basis, source, [])
    {
      this.h, this.source, this.basis := h, source, basis;
      window := new byte[basis.blockSize];
      candidates := map[];
      position, available, pending := 0, 0, [];
      new;
      BuildIndex();
      Fill();
      assert Unread() == source;
    }

    method BuildIndex()
      requires candidates == map[]
      modifies this`candidates
      ensures Indexed(|basis.blocks|)
    {
      for n := 0 to |basis.blocks|
        invariant Indexed(n)
      {
        var b := basis.blocks[n];
        var key := Key(b.weak, b.size);
        ghost var before := candidates;
        candidates := candidates[key := (if key in candidates then candidates[key] else []) + [b]];
        assert basis.blocks[..n + 1] == basis.blocks[..n] + [b];
        forall k ensures WithKey(basis.blocks[..n + 1], k) == if k in candidates then candidates[k] else [] {
          WithKeyAppend(basis.blocks[..n], b, k);
        }
      }
      assert basis.blocks[..|basis.blocks|] == basis.blocks;
    }

    /** Reads the next window, as full as the input allows. */
    method Fill()
      requires position <= |source|
      modifies this`position, this`available, window
      ensures position <= |source| && available <= window.Length
      ensures available < window.Length ==> position == |source|
      ensures window[..available] + source[position..] == old(source[position..])
    {
      var n := Min(window.Length, |source| - position);
      forall i | 0 <= i < n {
        window[i] := source[position + i];
      }
      assert window[..n] == source[position..position + n];
      position, available := position + n, n;
    }

    /** Drops the first byte of the window and reads one more byte if there is one. */
    method Slide()
      requires Valid() && available > 0
      modifies this`position, this`available, window
      ensures Valid()
      ensures Unread() == old(Unread())[1..]
    {
      ghost var held, rest := window[..available], source[position..];
      forall i | 0 <= i < available - 1 {
        window[i] := window[i + 1];
      }
      assert window[..available - 1] == held[1..];
      TailConcat(held, rest);
      if position < |source| {
        window[if available > 1 then available - 1 else 0] := source[position];
        assert window[..available] == held[1..] + [rest[0]];
        ShiftIn(held[1..], rest);
        position := position + 1;
        available := Min(basis.blockSize, available + 1);
      } else {
        available := available - 1;
        assert rest == [];
      }
    }

    /** The indexed lookup finds what a scan of all blocks in file order would find first. */
    method FindMatch() returns (found: Option<BlockSignature>)
      requires Valid()
      ensures found == Lookup(h, basis, window[..available])
    {
      var block := window[..available];
      var key := Key(h.weak(block), available);
      KeyedLookup(basis.blocks, h.weak(block), available, h.strong(block));
      assert basis.blocks[..|basis.blocks|] == basis.blocks;
      if key !in candidates {
        return None;
      }
      var strong, list := h.strong(block), candidates[key];
      for i := 0 to |list|
        invariant FirstStrong(list, strong) == FirstStrong(list[i..], strong)
      {
        if list[i].strong == strong {
          return Some(list[i]);
        }
        assert list[i..][1..] == list[i + 1..];
      }
      return None;
    }

    /** What the window holds is what the specification looks at next. */
    lemma {:induction false} WindowIsHead(unread: seq<byte>)
      requires Valid() && available > 0 && unread == Unread()
      ensures unread != [] && unread[0] == window[0]
      ensures Window(basis, unread) == window[..available] && unread[available..] == source[position..]
    {
    }

    method Next() returns (r: Option<Operation>)
      requires Valid()
      modifies this`position, this`available, this`pending, window
      ensures Valid()
      ensures old(Remaining()) == if r.Some? then [r.value] + Remaining() else []
      ensures r.None? ==> Remaining() == []
    {
      while available != 0
        invariant Valid()
        invariant Remaining() == old(Remaining())
        decreases |source| - position + available
      {
        var found := FindMatch();
        ghost var unread := Unread();
        WindowIsHead(unread);
        if found.Some? {
          FlushFirst(h, basis, unread, pending);
          if pending != [] {
            r := TakeData();
            return;
          }
          CopyNext(h, basis, unread, found.value);
          r := Some(Copy(Offset(found.value.index, basis.blockSize), found.value.size));
          Fill();
          return;
        }
        CollectNext(h, basis, unread, pending);
        var first := window[0];
        Slide();
        pending := pending + [first];
        if |pending| == MAX_DELTA_DATA {
          r := TakeData();
          return;
        }
      }
      assert Unread() == [];
      if pending != [] {
        r := TakeData();
      } else {
        r := None;
      }
    }

    method TakeData() returns (r: Option<Operation>)
      modifies this`pending
      ensures r == Some(Data(old(pending))) && pending == []
    {
      r := Some(Data(pending));
      pending := [];
    }
  }
}
