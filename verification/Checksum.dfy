/** The Adler-32 style weak checksum (section 2.2 of RFC 1950) that indexes basis blocks. */
module Checksum {
  import opened Sequences
  import opened Text

  const MODULUS: nat := 65521

  function Sum(data: seq<byte>): nat {
    if data == [] then 0 else data[0] + Sum(data[1..])
  }

  /** The sum of (n - i) * data[i], where n is the length of the data. */
  function WeightedSum(data: seq<byte>): nat {
    if data == [] then 0 else |data| * data[0] + WeightedSum(data[1..])
  }

  function Low(data: seq<byte>): nat {
    (1 + Sum(data)) % MODULUS
  }

  function High(data: seq<byte>): nat {
    (|data| + WeightedSum(data)) % MODULUS
  }

  function Weak(data: seq<byte>): nat {
    High(data) * 0x1_0000 + Low(data)
  }

  /** The running loop computes the closed form, and no intermediate value leaves 32 bits. */
  method WeakChecksum(data: seq<byte>) returns (weak: nat)
    ensures weak == Weak(data)
    ensures weak < TWO_32
  {
    var a, b := 1, 0;
    for i := 0 to |data|
      invariant a == Low(data[..i]) && b == High(data[..i])
    {
      HalvesAppend(data[..i], data[i]);
      PrefixSnoc(data, i);
      assert a + data[i] < TWO_32;
      a := (a + data[i]) % MODULUS;
      assert b + a < TWO_32;
      b := (b + a) % MODULUS;
    }
    PrefixAll(data);
    weak := b * 0x1_0000 + a;
  }

  lemma {:induction false} SumsAppend(data: seq<byte>, x: byte)
    ensures Sum(data + [x]) == Sum(data) + x
    ensures WeightedSum(data + [x]) == WeightedSum(data) + Sum(data) + x
  {
    if data == [] {
      EmptyConcat([x]);
    } else {
      SumsAppend(data[1..], x);
      TailConcat(data, [x]);
      OneMore(|data|, data[0]);
    }
  }

  lemma {:induction false} OneMore(n: nat, d: nat)
    ensures (n + 1) * d == n * d + d
  {
  }

  lemma {:induction false} HalvesAppend(data: seq<byte>, x: byte)
    ensures Low(data) < MODULUS && High(data) < MODULUS
    ensures Low(data + [x]) == (Low(data) + x) % MODULUS
    ensures High(data + [x]) == (High(data) + Low(data + [x])) % MODULUS
  {
    SumsAppend(data, x);
    HalvesOf(1 + Sum(data), |data| + WeightedSum(data), x);
  }

  lemma {:induction false} HalvesOf(low: nat, high: nat, x: nat)
    ensures (low + x) % MODULUS == (low % MODULUS + x) % MODULUS
    ensures (high + (low + x)) % MODULUS == (high % MODULUS + (low + x) % MODULUS) % MODULUS
  {
    ModularStep(low, x);
    ModularSum(high, low + x);
  }

  lemma {:induction false} ModularStep(low: nat, x: nat)
    ensures (low + x) % MODULUS == (low % MODULUS + x) % MODULUS
  {
  }

  lemma {:induction false} ModularSum(high: nat, low: nat)
    ensures (high + low) % MODULUS == (high % MODULUS + low % MODULUS) % MODULUS
  {
  }

  /** Both halves can be read back from the packed value, which fits 32 bits. */
  lemma {:induction false} HalvesRecoverable(data: seq<byte>)
    ensures Weak(data) < TWO_32
    ensures Weak(data) % 0x1_0000 == Low(data) && Weak(data) / 0x1_0000 == High(data)
  {
  }

  /** Sliding the window by one byte updates both halves from their old values alone. */
  lemma {:induction false} SlideByOne(data: seq<byte>, x: byte)
    requires data != []
    ensures var slid := data[1..] + [x];
            && Low(slid) == (Low(data) - data[0] + x) % MODULUS
            && High(slid) == (High(data) - |data| * data[0] + Low(slid) - 1) % MODULUS
  {
    SumsAppend(data[1..], x);
    var slid := data[1..] + [x];
    SlideOf(1 + Sum(data), |data| + WeightedSum(data), |data| * data[0], data[0], x, 1 + Sum(slid),
            |slid| + WeightedSum(slid));
  }

  lemma {:induction false} SlideOf(low: nat, high: nat, product: nat, first: nat, x: nat, low': nat, high': nat)
    requires low' == low - first + x && high' == high - product + low' - 1
    ensures low' % MODULUS == (low % MODULUS - first + x) % MODULUS
    ensures high' % MODULUS == (high % MODULUS - product + low' % MODULUS - 1) % MODULUS
  {
    ModularSlide(low, first, x + 1);
    ModularSlide(high, product, low');
  }

  lemma {:induction false} ModularSlide(high: nat, product: nat, low: nat)
    ensures (high - product + low - 1) % MODULUS == (high % MODULUS - product + low % MODULUS - 1) % MODULUS
    ensures (high - product + low - 1) % MODULUS == (high % MODULUS - product + low - 1) % MODULUS
  {
  }
}
