/** CRC-16/IBM-3740: the shift-and-xor register, and what it computes. */
module Crc {
  import opened Bytes
  import opened Poly

  const INIT: bv16 := 0xFFFF

  type Bits = seq<bv8>

  /** A byte in the low half of a register. */
  function Wide(b: bv8): bv16 { b as bv16 }

  function ShiftReg(r: bv16): bv16 {
    if r & 0x8000 != 0 then (r << 1) ^ 0x1021 else r << 1
  }

  function ShiftBy(r: bv16, n: nat): bv16 {
    if n == 0 then r else ShiftReg(ShiftBy(r, n - 1))
  }

  function Feed(r: bv16, b: bv8): bv16 { ShiftBy(r ^ (Wide(b) << 8), 8) }

  function Run(r: bv16, data: Bits): bv16 {
    if data == [] then r else Feed(Run(r, data[..|data| - 1]), data[|data| - 1])
  }

  function ToBits(data: Octets): (bits: Bits)
    ensures |bits| == |data|
  {
    if data == [] then [] else ToBits(data[..|data| - 1]) + [data[|data| - 1] as bv8]
  }

  lemma {:induction false} ToBitsPrefix(data: Octets, n: nat)
    requires n <= |data|
    ensures ToBits(data[..n]) == ToBits(data)[..n]
    decreases |data|
  {
    if n == |data| {
      assert data[..n] == data;
    } else {
      var init := data[..|data| - 1];
      ToBitsPrefix(init, n);
      assert init[..n] == data[..n];
      assert ToBits(data)[..n] == ToBits(init)[..n];
    }
  }

  lemma ToBitsAt(data: Octets, i: nat)
    requires i < |data|
    ensures ToBits(data)[i] == data[i] as bv8
  {
    ToBitsPrefix(data, i + 1);
    assert ToBits(data[..i + 1])[i] == data[i] as bv8;
  }

  function Checksum(data: Octets): (c: nat)
    ensures c < 0x10000
  {
    Run(INIT, ToBits(data)) as int
  }

  method Crc16(data: Octets) returns (crc: nat)
    ensures crc == Checksum(data)
  {
    var r: bv16 := INIT;
    for i := 0 to |data|
      invariant r == Run(INIT, ToBits(data)[..i])
    {
      r := r ^ (Wide(data[i] as bv8) << 8);
      ghost var r0 := r;
      for k := 0 to 8
        invariant r == ShiftBy(r0, k)
      {
        r := ShiftReg(r);
      }
      ToBitsAt(data, i);
      assert ToBits(data)[..i + 1][..i] == ToBits(data)[..i];
    }
    assert ToBits(data)[..|data|] == ToBits(data);
    crc := r as int;
  }

  // ----- the register as a polynomial

  /** The register with only bit `i` set. */
  function Mask(i: nat): bv16 {
    if i == 0 then 1 else Mask(i - 1) << 1
  }

  predicate Meets(r: bv16, m: bv16) { r & m != 0 }

  predicate Bit(r: bv16, i: nat) { i < 16 && Meets(r, Mask(i)) }

  function RegPoly(r: bv16): Poly { set i: nat | i < 16 && Bit(r, i) }

  lemma AllMasks()
    ensures Mask(0) == 0x1 && Mask(1) == 0x2 && Mask(2) == 0x4 && Mask(3) == 0x8
    ensures Mask(4) == 0x10 && Mask(5) == 0x20 && Mask(6) == 0x40 && Mask(7) == 0x80
    ensures Mask(8) == 0x100 && Mask(9) == 0x200 && Mask(10) == 0x400 && Mask(11) == 0x800
    ensures Mask(12) == 0x1000 && Mask(13) == 0x2000 && Mask(14) == 0x4000 && Mask(15) == 0x8000
  {
  }

  lemma MaskFacts(i: nat)
    requires i < 16
    ensures Mask(i) != 0 && Mask(i) & (Mask(i) - 1) == 0
    ensures i < 15 ==> Mask(i) & 0x8000 == 0
    ensures i < 8 <==> Mask(i) & 0xFF00 == 0
    ensures 0x1021 & Mask(i) != 0 <==> i == 0 || i == 5 || i == 12
  {
    AllMasks();
  }

  lemma SingleBit(i: nat)
    requires i < 16
    ensures Mask(i) & (Mask(i) - 1) == 0
    ensures Meets(0x1021, Mask(i)) <==> i == 0 || i == 5 || i == 12
  {
    MaskFacts(i);
  }

  lemma XorMask(r: bv16, s: bv16, m: bv16)
    requires m & (m - 1) == 0
    ensures Meets(r ^ s, m) <==> Meets(r, m) != Meets(s, m)
  {
  }

  lemma XorPoly(r: bv16, s: bv16)
    ensures RegPoly(r ^ s) == Add(RegPoly(r), RegPoly(s))
  {
    var t := r ^ s;
    hide Bit;
    forall i: nat | i < 16
      ensures Bit(t, i) <==> Bit(r, i) != Bit(s, i)
    {
      XorBit(r, s, i);
    }
  }

  lemma XorBit(r: bv16, s: bv16, i: nat)
    requires i < 16
    ensures Bit(r ^ s, i) <==> Bit(r, i) != Bit(s, i)
  {
    hide Mask, Meets;
    SingleBit(i);
    XorMask(r, s, Mask(i));
  }

  lemma SameBits(r: bv16, s: bv16)
    requires RegPoly(r) == RegPoly(s)
    ensures r == s
  {
    XorPoly(r, s);
    forall i: nat | i < 16 ensures (r ^ s) & Mask(i) == 0 {
      assert i !in RegPoly(r ^ s);
      assert !Bit(r ^ s, i);
    }
    AllMasks();
    assert (r ^ s) & Mask(0) == 0 && (r ^ s) & Mask(1) == 0 && (r ^ s) & Mask(2) == 0 && (r ^ s) & Mask(3) == 0;
    assert (r ^ s) & Mask(4) == 0 && (r ^ s) & Mask(5) == 0 && (r ^ s) & Mask(6) == 0 && (r ^ s) & Mask(7) == 0;
    assert (r ^ s) & Mask(8) == 0 && (r ^ s) & Mask(9) == 0 && (r ^ s) & Mask(10) == 0 && (r ^ s) & Mask(11) == 0;
    assert (r ^ s) & Mask(12) == 0 && (r ^ s) & Mask(13) == 0 && (r ^ s) & Mask(14) == 0 && (r ^ s) & Mask(15) == 0;
  }

  lemma ByteUpPoly(b: bv8)
    ensures RegPoly(Wide(b) << 8) == Times(RegPoly(Wide(b)), 8)
  {
    hide Bit, Times;
    var lo := Wide(b);
    var hi := lo << 8;
    forall i: nat
      ensures i in RegPoly(hi) <==> i in Times(RegPoly(lo), 8)
    {
      TimesIn(RegPoly(lo), 8, i);
      if i < 16 { ByteUpBit(b, i); }
      if i >= 8 && i - 8 < 16 { ByteUpBit(b, i - 8); }
    }
  }

  lemma ByteUpBit(b: bv8, i: nat)
    requires i < 16
    ensures Bit((b as bv16) << 8, i) <==> i >= 8 && Bit(b as bv16, i - 8)
    ensures i >= 8 ==> !Bit(b as bv16, i)
  {
    AllMasks();
    MaskFacts(i);
    if i >= 8 { MaskFacts(i - 8); }
  }

  lemma ShiftBit(r: bv16, i: nat, carry: bool)
    requires i < 16 && carry == (r & 0x8000 != 0)
    ensures Bit(ShiftReg(r), i) <==>
            ((i >= 1 && Bit(r, i - 1)) != (carry && (i == 0 || i == 5 || i == 12)))
  {
    var up := r << 1;
    UpBit(r, i);
    if carry { GeneratorBit(up, i); }
  }

  lemma UpBit(r: bv16, i: nat)
    requires i < 16
    ensures Bit(r << 1, i) <==> i >= 1 && Bit(r, i - 1)
  {
    if i >= 1 { UpBitAbove(r, r << 1, i); } else { LowBit(r); }
  }

  lemma UpBitAbove(r: bv16, up: bv16, i: nat)
    requires 1 <= i < 16 && up == r << 1
    ensures Bit(up, i) <==> Bit(r, i - 1)
  {
    hide Mask, Meets;
    MaskStep(i);
    BelowTop(i - 1);
    LeftMask(r, up, Mask(i - 1), Mask(i));
  }

  lemma BelowTop(i: nat)
    requires i < 15
    ensures Mask(i) & 0x8000 == 0
  {
    MaskFacts(i);
  }

  lemma MaskStep(i: nat)
    ensures Mask(0) == 1
    ensures i >= 1 ==> Mask(i) == Mask(i - 1) << 1
  {
  }

  lemma GeneratorBit(up: bv16, i: nat)
    requires i < 16
    ensures Bit(up ^ 0x1021, i) <==> Bit(up, i) != (i == 0 || i == 5 || i == 12)
  {
    hide Mask, Meets;
    SingleBit(i);
    XorMask(up, 0x1021, Mask(i));
  }

  lemma LeftMask(r: bv16, up: bv16, m: bv16, m': bv16)
    requires m & 0x8000 == 0 && m' == m << 1 && up == r << 1
    ensures Meets(up, m') <==> Meets(r, m)
  {
  }

  lemma LowBit(r: bv16)
    ensures (r << 1) & 1 == 0
  {
  }

  /** One shift of the register multiplies by x modulo G. */
  lemma ShiftPoly(r: bv16)
    ensures Congruent(RegPoly(ShiftReg(r)), Times(RegPoly(r), 1))
  {
    hide Bit, ShiftReg;
    var p, p' := RegPoly(r), RegPoly(ShiftReg(r));
    var carry := r & 0x8000 != 0;
    var top: Poly := if carry then G else {};
    assert Bit(r, 15) <==> carry by { TopBit(r); }
    forall i: nat
      ensures i in Add(p', Times(p, 1)) <==> i in top
    {
      TimesIn(p, 1, i);
      if i < 16 { ShiftBit(r, i, carry); }
    }
    assert Add(p', Times(p, 1)) == top;
    SmallMultiples(carry);
  }

  lemma TopBit(r: bv16)
    ensures Bit(r, 15) <==> r & 0x8000 != 0
  {
    AllMasks();
  }

  lemma SmallMultiples(carry: bool)
    ensures IsMultiple(if carry then G else {})
  {
    assert [true][..0] == [] && Times({}, 1) == {};
    assert Multiple([true]) == G && Multiple([]) == {};
  }

  lemma {:induction false} ShiftByPoly(r: bv16, n: nat)
    ensures Congruent(RegPoly(ShiftBy(r, n)), Times(RegPoly(r), n))
  {
    hide RegPoly, ShiftReg, Congruent;
    if n == 0 {
      TimesZero(RegPoly(r));
      CongruentReflexive(RegPoly(r));
    } else {
      var s := ShiftBy(r, n - 1);
      ShiftByPoly(r, n - 1);
      ShiftPoly(s);
      CongruentTimes(RegPoly(s), Times(RegPoly(r), n - 1), 1);
      TimesTimes(RegPoly(r), n - 1, 1);
      CongruentTransitive(RegPoly(ShiftReg(s)), Times(RegPoly(s), 1), Times(RegPoly(r), n));
    }
  }

  // ----- the checksum as a polynomial remainder

  /** The message, its first bit the highest power of x. */
  function MessagePoly(data: Bits): Poly {
    if data == [] then {}
    else Add(Times(MessagePoly(data[..|data| - 1]), 8), RegPoly(Wide(data[|data| - 1])))
  }

  /** What is divided: the message times x^16, plus the preset `r` in front of it. */
  function Dividend(r: bv16, data: Bits): Poly {
    Add(Times(MessagePoly(data), 16), Times(RegPoly(r), 8 * |data|))
  }

  lemma {:induction false} RunIsRemainder(r: bv16, data: Bits)
    ensures Congruent(RegPoly(Run(r, data)), Dividend(r, data))
  {
    if data == [] {
      TimesZero(RegPoly(r));
      assert Times({}, 16) == {};
      AddAssoc(RegPoly(r), {}, {});
      CongruentReflexive(RegPoly(r));
    } else {
      var init, b := data[..|data| - 1], data[|data| - 1];
      var s, w := Run(r, init), Wide(b);
      RunIsRemainder(r, init);
      FeedPoly(s, b);
      var d := Add(Dividend(r, init), Times(RegPoly(w), 8));
      CongruentAdd(RegPoly(s), Dividend(r, init), Times(RegPoly(w), 8));
      CongruentTimes(Add(RegPoly(s), Times(RegPoly(w), 8)), d, 8);
      CongruentTransitive(RegPoly(Feed(s, b)), Times(Add(RegPoly(s), Times(RegPoly(w), 8)), 8), Times(d, 8));
      DividendStep(r, init, b);
      assert init + [b] == data;
    }
  }

  lemma FeedPoly(s: bv16, b: bv8)
    ensures Congruent(RegPoly(Feed(s, b)), Times(Add(RegPoly(s), Times(RegPoly(Wide(b)), 8)), 8))
  {
    XorPoly(s, Wide(b) << 8);
    ByteUpPoly(b);
    ShiftByPoly(s ^ (Wide(b) << 8), 8);
  }

  lemma DividendStep(r: bv16, init: Bits, b: bv8)
    ensures Times(Add(Dividend(r, init), Times(RegPoly(Wide(b)), 8)), 8) == Dividend(r, init + [b])
  {
    hide RegPoly, Times, Wide;
    var m, p, w := MessagePoly(init), RegPoly(r), RegPoly(Wide(b));
    assert (init + [b])[..|init|] == init;
    TimesAdd(Dividend(r, init), Times(w, 8), 8);
    TimesAdd(Times(m, 16), Times(p, 8 * |init|), 8);
    TimesTimes(m, 16, 8);
    TimesTimes(p, 8 * |init|, 8);
    TimesTimes(w, 8, 8);
    TimesAdd(Times(m, 8), w, 16);
    TimesTimes(m, 8, 16);
    assert 8 * |init| + 8 == 8 * |init + [b]|;
    var a, c, d := Times(m, 24), Times(p, 8 * |init| + 8), Times(w, 16);
    assert Add(Add(a, c), d) == Add(Add(a, d), c);
  }

  /** The checksum is the remainder, and the only one: nothing else of degree below 16 is congruent. */
  lemma ChecksumIsTheRemainder(data: Bits, p: Poly)
    requires DegreeBelow(p, 16)
    ensures Congruent(p, Dividend(INIT, data)) <==> p == RegPoly(Run(INIT, data))
  {
    var c := RegPoly(Run(INIT, data));
    RunIsRemainder(INIT, data);
    if Congruent(p, Dividend(INIT, data)) {
      assert Add(c, Dividend(INIT, data)) == Add(Dividend(INIT, data), c);
      CongruentTransitive(p, Dividend(INIT, data), c);
      RemainderUnique(p, c);
    }
  }
}
