/** What the frame check catches: composition, bursts, and odd numbers of flipped bits. */
module Detect {
  import opened Poly
  import opened Crc

  // ----- composition and affinity

  lemma {:induction false} RunAppend(r: bv16, a: Bits, b: Bits)
    ensures Run(r, a + b) == Run(Run(r, a), b)
    decreases |b|
  {
    if b == [] {
      assert a + b == a;
    } else {
      assert (a + b)[..|a + b| - 1] == a + b[..|b| - 1];
      RunAppend(r, a, b[..|b| - 1]);
    }
  }

  lemma CongruentSum(p: Poly, q: Poly, r: Poly, s: Poly)
    requires Congruent(p, q) && Congruent(r, s)
    ensures Congruent(Add(p, r), Add(q, s))
  {
    CongruentAdd(p, q, r);
    CongruentAdd(r, s, q);
    assert Add(q, r) == Add(r, q) && Add(q, s) == Add(s, q);
    CongruentTransitive(Add(p, r), Add(q, r), Add(q, s));
  }

  lemma RegDegree(r: bv16)
    ensures DegreeBelow(RegPoly(r), 16)
  {
  }

  function Difference(a: Bits, b: Bits): Poly { Add(MessagePoly(a), MessagePoly(b)) }

  /** How two runs from `r` differ depends only on how their messages differ. */
  lemma RunDifference(r: bv16, a: Bits, b: Bits)
    requires |a| == |b|
    ensures Congruent(Add(RegPoly(Run(r, a)), RegPoly(Run(r, b))), Times(Difference(a, b), 16))
  {
    RunIsRemainder(r, a);
    RunIsRemainder(r, b);
    CongruentSum(RegPoly(Run(r, a)), Dividend(r, a), RegPoly(Run(r, b)), Dividend(r, b));
    TimesAdd(MessagePoly(a), MessagePoly(b), 16);
    assert Add(Dividend(r, a), Dividend(r, b)) == Times(Difference(a, b), 16);
  }

  lemma SumUnique(p: bv16, q: bv16, d: Poly, t: Poly)
    requires Congruent(Add(RegPoly(p), RegPoly(q)), t) && Congruent(d, t) && DegreeBelow(d, 16)
    ensures RegPoly(p ^ q) == d
  {
    var s := Add(RegPoly(p), RegPoly(q));
    XorPoly(p, q);
    assert Add(d, t) == Add(t, d);
    CongruentTransitive(s, t, d);
    RemainderUnique(s, d);
  }

  /** The checksum is affine: equal differences in give equal differences out. */
  lemma ChecksumAffine(a: Bits, b: Bits, c: Bits, d: Bits)
    requires |a| == |b| == |c| == |d| && Difference(a, b) == Difference(c, d)
    ensures Run(INIT, a) ^ Run(INIT, b) == Run(INIT, c) ^ Run(INIT, d)
  {
    var p, q, r, s := Run(INIT, a), Run(INIT, b), Run(INIT, c), Run(INIT, d);
    var t := Times(Difference(a, b), 16);
    RunDifference(INIT, a, b);
    RunDifference(INIT, c, d);
    SumUnique(p, q, Add(RegPoly(r), RegPoly(s)), t);
    XorPoly(r, s);
    SameBits(p ^ q, r ^ s);
  }

  function XorBytes(a: Bits, b: Bits): (c: Bits)
    requires |a| == |b|
    ensures |c| == |a| && forall i :: 0 <= i < |a| ==> c[i] == a[i] ^ b[i]
  {
    seq(|a|, i requires 0 <= i < |a| => a[i] ^ b[i])
  }

  /** Differences are bytewise xor. */
  lemma {:induction false} XorIsSum(a: Bits, b: Bits)
    requires |a| == |b|
    ensures MessagePoly(XorBytes(a, b)) == Difference(a, b)
    decreases |a|
  {
    if a == [] {
      assert XorBytes(a, b) == [] && a == b == [];
    } else {
      hide RegPoly, Times, Add;
      var n := |a| - 1;
      XorIsSum(a[..n], b[..n]);
      assert XorBytes(a, b)[..n] == XorBytes(a[..n], b[..n]);
      WideXor(a[n], b[n]);
      XorPoly(Wide(a[n]), Wide(b[n]));
      TimesAdd(MessagePoly(a[..n]), MessagePoly(b[..n]), 8);
      var p, q := Times(MessagePoly(a[..n]), 8), Times(MessagePoly(b[..n]), 8);
      SumByParts(p, q, RegPoly(Wide(a[n])), RegPoly(Wide(b[n])));
    }
  }

  lemma SumByParts(p: Poly, q: Poly, v: Poly, w: Poly)
    ensures Add(Add(p, q), Add(v, w)) == Add(Add(p, v), Add(q, w))
  {
  }

  function Xor(r: bv16, s: bv16): bv16 { r ^ s }

  /** The affine law on bytes: the checksum of the xor of three messages is the xor of their checksums. */
  lemma ChecksumOfXor(a: Bits, b: Bits, c: Bits)
    requires |a| == |b| == |c|
    ensures Run(INIT, XorBytes(XorBytes(a, b), c)) == Xor(Xor(Run(INIT, a), Run(INIT, b)), Run(INIT, c))
  {
    hide Run, Difference, Xor;
    var x := XorBytes(XorBytes(a, b), c);
    ThirdCancels(a, b, c);
    AffineXor(x, c, a, b);
    XorMoves(Run(INIT, x), Run(INIT, c), Run(INIT, a), Run(INIT, b));
  }

  lemma AffineXor(a: Bits, b: Bits, c: Bits, d: Bits)
    requires |a| == |b| == |c| == |d| && Difference(a, b) == Difference(c, d)
    ensures Xor(Run(INIT, a), Run(INIT, b)) == Xor(Run(INIT, c), Run(INIT, d))
  {
    hide Run, Difference;
    ChecksumAffine(a, b, c, d);
  }

  lemma ThirdCancels(a: Bits, b: Bits, c: Bits)
    requires |a| == |b| == |c|
    ensures Difference(XorBytes(XorBytes(a, b), c), c) == Difference(a, b)
  {
    hide MessagePoly;
    XorIsSum(a, b);
    XorIsSum(XorBytes(a, b), c);
  }

  lemma XorMoves(x: bv16, c: bv16, a: bv16, b: bv16)
    requires Xor(x, c) == Xor(a, b)
    ensures x == Xor(Xor(a, b), c)
  {
  }

  /** Feeding any message is a one-to-one map on registers. */
  lemma RunInjective(r: bv16, s: bv16, data: Bits)
    requires Run(r, data) == Run(s, data)
    ensures r == s
  {
    var v, n := RegPoly(Run(r, data)), 8 * |data|;
    RunIsRemainder(r, data);
    RunIsRemainder(s, data);
    assert Add(v, Dividend(r, data)) == Add(Dividend(r, data), v);
    CongruentTransitive(Dividend(r, data), v, Dividend(s, data));
    TimesAdd(RegPoly(r), RegPoly(s), n);
    assert Add(Dividend(r, data), Dividend(s, data)) == Times(Add(RegPoly(r), RegPoly(s)), n);
    CancelTimes(Add(RegPoly(r), RegPoly(s)), n);
    RegDegree(r);
    RegDegree(s);
    RemainderUnique(RegPoly(r), RegPoly(s));
    SameBits(r, s);
  }

  // ----- bursts

  lemma {:induction false} MessageInjective(a: Bits, b: Bits)
    requires |a| == |b| && MessagePoly(a) == MessagePoly(b)
    ensures a == b
  {
    if a != [] {
      var n := |a| - 1;
      var p, q := MessagePoly(a[..n]), MessagePoly(b[..n]);
      var v, w := RegPoly(Wide(a[n])), RegPoly(Wide(b[n]));
      LowBitsOnly(a[n]);
      LowBitsOnly(b[n]);
      forall e: nat ensures (e in p <==> e in q) && (e in v <==> e in w) {
        TimesIn(p, 8, e + 8);
        TimesIn(q, 8, e + 8);
        TimesIn(p, 8, e);
        TimesIn(q, 8, e);
        assert e in MessagePoly(a) <==> e in MessagePoly(b);
        assert e + 8 in MessagePoly(a) <==> e + 8 in MessagePoly(b);
      }
      assert p == q && v == w;
      MessageInjective(a[..n], b[..n]);
      SameBits(Wide(a[n]), Wide(b[n]));
      WideInjective(a[n], b[n]);
      assert a == a[..n] + [a[n]] && b == b[..n] + [b[n]];
    }
  }

  lemma WideInjective(v: bv8, w: bv8)
    requires Wide(v) == Wide(w)
    ensures v == w
  {
  }

  lemma LowBitsOnly(b: bv8)
    ensures DegreeBelow(RegPoly(Wide(b)), 8)
  {
    forall e: nat | e in RegPoly(Wide(b)) ensures e < 8 {
      if e >= 8 { ByteUpBit(b, e); }
    }
  }

  /** All differing bits lie in one window of 16 consecutive bits. */
  ghost predicate Burst(a: Bits, b: Bits, k: nat) {
    |a| == |b| && forall e :: e in Difference(a, b) ==> k <= e < k + 16
  }

  lemma BurstDetected(a: Bits, b: Bits, k: nat)
    requires Burst(a, b, k) && a != b
    ensures Run(INIT, a) != Run(INIT, b)
  {
    if Run(INIT, a) == Run(INIT, b) {
      RunDifference(INIT, a, b);
      assert Add(RegPoly(Run(INIT, a)), RegPoly(Run(INIT, b))) == {};
      assert Add({}, Times(Difference(a, b), 16)) == Times(Difference(a, b), 16);
      CancelTimes(Difference(a, b), 16);
      NoShortMultiple(Difference(a, b), k);
      assert MessagePoly(a) == MessagePoly(b) by {
        forall e: nat ensures e in MessagePoly(a) <==> e in MessagePoly(b) { assert e !in Difference(a, b); }
      }
      MessageInjective(a, b);
    }
  }

  /** No nonzero multiple of G fits in 16 consecutive powers. */
  lemma NoShortMultiple(p: Poly, k: nat)
    requires IsMultiple(p) && forall e :: e in p ==> k <= e < k + 16
    ensures p == {}
  {
    var d := set e | e in p :: e - k;
    assert p == Times(d, k) by {
      forall e: nat ensures e in p <==> e in Times(d, k) {
        TimesIn(d, k, e);
        if e >= k && e - k in d { assert exists e' :: e' in p && e' - k == e - k; }
      }
    }
    CancelTimes(d, k);
    assert Add(d, {}) == d;
    RemainderUnique(d, {});
    assert Times({}, k) == {};
  }

  /** Two messages that differ only in two adjacent bytes differ by a burst. */
  lemma {:induction false} AdjacentBytesBurst(a: Bits, b: Bits, i: nat)
    requires |a| == |b| && i + 1 < |a| && a[..i] == b[..i] && a[i + 2..] == b[i + 2..]
    ensures Burst(a, b, 8 * (|a| - 2 - i))
    decreases |a|
  {
    var n := |a| - 1;
    var p, q := MessagePoly(a[..n]), MessagePoly(b[..n]);
    var v, w := RegPoly(Wide(a[n])), RegPoly(Wide(b[n]));
    LowBitsOnly(a[n]);
    LowBitsOnly(b[n]);
    TimesAdd(p, q, 8);
    assert Difference(a, b) == Add(Times(Add(p, q), 8), Add(v, w));
    assert Add(p, q) == Difference(a[..n], b[..n]);
    if i + 2 == |a| {
      assert a[..n][..i] == a[..i] && b[..n][..i] == b[..i];
      LastByteBurst(a[..n], b[..n], i);
    } else {
      assert a[n] == a[i + 2..][n - i - 2] && b[n] == b[i + 2..][n - i - 2];
      assert a[..n][i + 2..] == a[i + 2..][..n - i - 2] && b[..n][i + 2..] == b[i + 2..][..n - i - 2];
      assert a[..n][..i] == a[..i] && b[..n][..i] == b[..i];
      AdjacentBytesBurst(a[..n], b[..n], i);
      assert Add(v, w) == {};
    }
    forall e: nat | e in Difference(a, b)
      ensures 8 * (|a| - 2 - i) <= e < 8 * (|a| - 2 - i) + 16
    {
      TimesIn(Add(p, q), 8, e);
    }
  }

  lemma LastByteBurst(a: Bits, b: Bits, i: nat)
    requires |a| == |b| == i + 1 && a[..i] == b[..i]
    ensures Difference(a, b) == Add(RegPoly(Wide(a[i])), RegPoly(Wide(b[i])))
    ensures forall e :: e in Difference(a, b) ==> e < 8
  {
    LowBitsOnly(a[i]);
    LowBitsOnly(b[i]);
    var m := MessagePoly(a[..i]);
    assert Difference(a, b) == Add(RegPoly(Wide(a[i])), RegPoly(Wide(b[i])));
  }

  // ----- parity

  predicate OddNumber(n: nat) { n > 0 && !OddNumber(n - 1) }

  lemma {:induction false} OddIsMod(n: nat)
    ensures OddNumber(n) <==> n % 2 == 1
  {
    if n > 0 { OddIsMod(n - 1); }
  }

  lemma {:induction false} SumParity(m: nat, n: nat)
    ensures OddNumber(m + n) <==> OddNumber(m) != OddNumber(n)
  {
    OddIsMod(m);
    OddIsMod(n);
    OddIsMod(m + n);
  }

  predicate Odd(p: Poly) { OddNumber(|p|) }

  lemma OddAdd(p: Poly, q: Poly)
    ensures Odd(Add(p, q)) <==> Odd(p) != Odd(q)
  {
    assert p == (p - q) + (p * q) && q == (q - p) + (p * q);
    assert |p| == |p - q| + |p * q|;
    assert |q| == |q - p| + |p * q|;
    assert |Add(p, q)| == |p - q| + |q - p|;
    SumParity(|p - q|, |p * q|);
    SumParity(|q - p|, |p * q|);
    SumParity(|p - q|, |q - p|);
  }

  lemma {:induction false} TimesWeight(p: Poly, k: nat)
    ensures |Times(p, k)| == |p|
    decreases |p|
  {
    if p == {} {
      assert Times(p, k) == {};
    } else {
      var e :| e in p;
      TimesWeight(p - {e}, k);
      TimesIn(p - {e}, k, e + k);
      forall f: nat ensures f in Times(p, k) <==> f in Times(p - {e}, k) + {e + k} {
        TimesIn(p, k, f);
        TimesIn(p - {e}, k, f);
      }
      assert Times(p, k) == Times(p - {e}, k) + {e + k};
    }
  }

  /** x + 1 divides G, so every multiple of G has an even number of terms. */
  lemma {:induction false} MultipleIsEven(q: seq<bool>)
    ensures !Odd(Multiple(q))
  {
    if q != [] {
      var m := Multiple(q[..|q| - 1]);
      MultipleIsEven(q[..|q| - 1]);
      TimesWeight(m, 1);
      OddIsMod(0);
      OddIsMod(4);
      assert |G| == 4;
      OddAdd(Times(m, 1), if q[|q| - 1] then G else {});
    }
  }

  lemma CongruentParity(p: Poly, q: Poly)
    requires Congruent(p, q)
    ensures Odd(p) <==> Odd(q)
  {
    var m :| Add(p, q) == Multiple(m);
    MultipleIsEven(m);
    OddAdd(p, q);
  }

  /** The number of one bits. */
  function Ones(data: Bits): nat {
    if data == [] then 0 else Ones(data[..|data| - 1]) + Weight(Wide(data[|data| - 1]))
  }

  function Weight(r: bv16): nat { |RegPoly(r)| }

  lemma {:induction false} MessageParity(data: Bits)
    ensures Odd(MessagePoly(data)) <==> OddNumber(Ones(data))
  {
    if data == [] {
      assert MessagePoly(data) == {};
      assert Ones(data) == 0;
      assert !Odd({});
      assert !OddNumber(0);
    } else {
      var init := data[..|data| - 1];
      var q := RegPoly(Wide(data[|data| - 1]));
      MessageParity(init);
      AppendParity(MessagePoly(init), Ones(init), q);
      assert MessagePoly(data) == Add(Times(MessagePoly(init), 8), q);
      assert Ones(data) == Ones(init) + |q|;
      assert Odd(MessagePoly(data)) <==> OddNumber(Ones(data));
    }
  }

  lemma AppendParity(p: Poly, ones: nat, q: Poly)
    requires Odd(p) <==> OddNumber(ones)
    ensures Odd(Add(Times(p, 8), q)) <==> OddNumber(ones + |q|)
  {
    OddStep(p, q, 8);
    SumParity(ones, |q|);
  }

  lemma OddStep(p: Poly, q: Poly, k: nat)
    ensures Odd(Add(Times(p, k), q)) <==> Odd(p) != Odd(q)
  {
    TimesWeight(p, k);
    OddAdd(Times(p, k), q);
  }

  /** The checksum has the parity of the message. */
  lemma ChecksumParity(data: Bits)
    ensures Odd(RegPoly(Run(INIT, data))) <==> OddNumber(Ones(data))
  {
    RunIsRemainder(INIT, data);
    CongruentParity(RegPoly(Run(INIT, data)), Dividend(INIT, data));
    TimesWeight(RegPoly(INIT), 8 * |data|);
    OddStep(MessagePoly(data), Times(RegPoly(INIT), 8 * |data|), 16);
    PresetIsEven();
    MessageParity(data);
  }

  lemma PresetIsEven()
    ensures !Odd(RegPoly(INIT))
  {
    var lo := Wide(255);
    XorPoly(lo << 8, lo);
    ByteUpPoly(255);
    OddStep(RegPoly(lo), RegPoly(lo), 8);
    AllOnes(lo);
  }

  lemma AllOnes(w: bv16)
    requires w == 0xFF
    ensures (w << 8) ^ w == INIT
  {
  }

  /** Splitting a word into bytes keeps its parity. */
  lemma WordParity(r: bv16, lo: bv8, hi: bv8)
    requires r == (Wide(hi) << 8) ^ Wide(lo)
    ensures Odd(RegPoly(r)) <==> OddNumber(Weight(Wide(hi)) + Weight(Wide(lo)))
  {
    var up := Wide(hi) << 8;
    XorPoly(up, Wide(lo));
    ByteUpPoly(hi);
    AppendParity(RegPoly(Wide(hi)), Weight(Wide(hi)), RegPoly(Wide(lo)));
  }

  /** The number of bits in which two messages differ. */
  function Flipped(a: Bits, b: Bits): nat
    requires |a| == |b|
  {
    if a == [] then 0
    else Flipped(a[..|a| - 1], b[..|b| - 1]) + |Add(RegPoly(Wide(a[|a| - 1])), RegPoly(Wide(b[|b| - 1])))|
  }

  lemma {:induction false} FlippedParity(a: Bits, b: Bits)
    requires |a| == |b|
    ensures OddNumber(Flipped(a, b)) <==> OddNumber(Ones(a)) != OddNumber(Ones(b))
  {
    hide RegPoly, Add;
    if a != [] {
      var n := |a| - 1;
      FlippedParity(a[..n], b[..n]);
      OddAdd(RegPoly(Wide(a[n])), RegPoly(Wide(b[n])));
      FlippedStep(Flipped(a[..n], b[..n]), Ones(a[..n]), Ones(b[..n]),
                  |Add(RegPoly(Wide(a[n])), RegPoly(Wide(b[n])))|, Weight(Wide(a[n])), Weight(Wide(b[n])));
      assert Flipped(a, b) == Flipped(a[..n], b[..n]) + |Add(RegPoly(Wide(a[n])), RegPoly(Wide(b[n])))|;
    }
  }

  lemma FlippedStep(f: nat, p: nat, q: nat, f': nat, p': nat, q': nat)
    requires OddNumber(f) <==> OddNumber(p) != OddNumber(q)
    requires OddNumber(f') <==> OddNumber(p') != OddNumber(q')
    ensures OddNumber(f + f') <==> OddNumber(p + p') != OddNumber(q + q')
  {
    SumParity(f, f');
    SumParity(p, p');
    SumParity(q, q');
  }

  // ----- the last byte before the trailer

  lemma LastByteDifference(a: Bits, b: Bits, w: bv8)
    requires |a| == |b| > 0 && a[..|a| - 1] == b[..|b| - 1] && w == a[|a| - 1] ^ b[|b| - 1]
    ensures Run(INIT, a) ^ Run(INIT, b) == ShiftBy(Wide(w) << 8, 8)
  {
    var p, q, t := Run(INIT, a), Run(INIT, b), ShiftBy(Wide(w) << 8, 8);
    LastDifferencePoly(a, b, w);
    RunDifference(INIT, a, b);
    TableEntry(w);
    RegDegree(t);
    SumUnique(p, q, RegPoly(t), Times(Difference(a, b), 16));
    SameBits(p ^ q, t);
  }

  lemma LastDifferencePoly(a: Bits, b: Bits, w: bv8)
    requires |a| == |b| > 0 && a[..|a| - 1] == b[..|b| - 1] && w == a[|a| - 1] ^ b[|b| - 1]
    ensures Difference(a, b) == RegPoly(Wide(w))
  {
    var n := |a| - 1;
    WideXor(a[n], b[n]);
    XorPoly(Wide(a[n]), Wide(b[n]));
    LastByteBurst(a, b, n);
  }

  lemma TableEntry(w: bv8)
    ensures Congruent(RegPoly(ShiftBy(Wide(w) << 8, 8)), Times(RegPoly(Wide(w)), 16))
  {
    ShiftByPoly(Wide(w) << 8, 8);
    ByteUpPoly(w);
    TimesTimes(RegPoly(Wide(w)), 8, 8);
  }

  lemma WideXor(a: bv8, b: bv8)
    ensures Wide(a) ^ Wide(b) == Wide(a ^ b)
  {
  }

  /** Changing one byte changes the high half of the register, except by the pattern 0x89. */
  lemma HighHalf(w: bv8)
    ensures ShiftBy(Wide(w) << 8, 8) & 0xFF00 == 0 <==> w == 0 || w == 0x89
    ensures w == 0 ==> ShiftBy(Wide(w) << 8, 8) == 0
    ensures w == 0x89 ==> ShiftBy(Wide(w) << 8, 8) == 0xA1
  {
    var r := Wide(w) << 8;
    var r4 := ShiftReg(ShiftReg(ShiftReg(ShiftReg(r))));
    assert ShiftBy(r, 1) == ShiftReg(r);
    assert ShiftBy(r, 2) == ShiftReg(ShiftReg(r));
    assert ShiftBy(r, 3) == ShiftReg(ShiftReg(ShiftReg(r)));
    assert ShiftBy(r, 4) == r4;
    assert ShiftBy(r, 5) == ShiftReg(r4);
    assert ShiftBy(r, 6) == ShiftReg(ShiftReg(r4));
    assert ShiftBy(r, 7) == ShiftReg(ShiftReg(ShiftReg(r4)));
    assert ShiftBy(r, 8) == ShiftReg(ShiftReg(ShiftReg(ShiftReg(r4))));
    EightShifts(w, r4);
  }

  lemma EightShifts(w: bv8, r4: bv16)
    requires r4 == ShiftReg(ShiftReg(ShiftReg(ShiftReg(Wide(w) << 8))))
    ensures ShiftReg(ShiftReg(ShiftReg(ShiftReg(r4)))) & 0xFF00 == 0 <==> w == 0 || w == 0x89
    ensures w == 0 ==> ShiftReg(ShiftReg(ShiftReg(ShiftReg(r4)))) == 0
    ensures w == 0x89 ==> ShiftReg(ShiftReg(ShiftReg(ShiftReg(r4)))) == 0xA1
  {
  }
}
