/** Up to three wrong bits anywhere in a frame are always noticed. */
module FewErrors {
  import opened Bytes
  import opened Poly
  import opened Crc
  import opened Detect
  import opened Order
  import opened Frame
  import opened FrameDetect

  // ----- a frame as one polynomial

  /** The frame with its trailer's high byte first, as the register has it. */
  function Codeword(x: Bits): Bits
    requires |x| >= 2
  {
    var n := |x| - 2;
    x[..n] + [x[n + 1]] + [x[n]]
  }

  lemma CodewordPoly(x: Bits)
    requires |x| >= 2
    ensures var n := |x| - 2;
            MessagePoly(Codeword(x)) == Add(Times(MessagePoly(x[..n]), 16), RegPoly(Joined(x[n], x[n + 1])))
  {
    hide RegPoly, Joined, Wide, Times, Add;
    var n := |x| - 2;
    var a, lo, hi := x[..n], x[n], x[n + 1];
    var m, h, l := MessagePoly(a), RegPoly(Wide(hi)), RegPoly(Wide(lo));
    assert (a + [hi])[..n] == a && (a + [hi] + [lo])[..n + 1] == a + [hi];
    assert MessagePoly(a + [hi]) == Add(Times(m, 8), h);
    assert MessagePoly(a + [hi] + [lo]) == Add(Times(MessagePoly(a + [hi]), 8), l);
    TimesAdd(Times(m, 8), h, 8);
    TimesTimes(m, 8, 8);
    JoinedPoly(lo, hi);
    ByteUpPoly(hi);
    assert Times(MessagePoly(a + [hi]), 8) == Add(Times(m, 16), Times(h, 8));
    AddAssoc(Times(m, 16), Times(h, 8), l);
    assert Codeword(x) == a + [hi] + [lo];
  }

  /** Two frames that pass the check differ by a multiple of the generator. */
  lemma CodewordsDiffer(x: Bits, y: Bits)
    requires Checks(x) && Checks(y) && |x| == |y|
    ensures IsMultiple(Difference(Codeword(x), Codeword(y)))
  {
    hide RegPoly, Joined, Run, Times, IsMultiple, MessagePoly;
    var n := |x| - 2;
    var a, b := x[..n], y[..n];
    var p, q := RegPoly(Run(INIT, a)), RegPoly(Run(INIT, b));
    CodewordPoly(x);
    CodewordPoly(y);
    RunDifference(INIT, a, b);
    TimesAdd(MessagePoly(a), MessagePoly(b), 16);
    Rearranged(Times(MessagePoly(a), 16), Times(MessagePoly(b), 16), p, q);
  }

  lemma Rearranged(s: Poly, t: Poly, p: Poly, q: Poly)
    ensures Add(Add(s, p), Add(t, q)) == Add(Add(p, q), Add(s, t))
  {
  }

  // ----- counting

  lemma Changed(v: Poly, w: Poly, p: Poly)
    requires DegreeBelow(v, 8) && DegreeBelow(w, 8)
    ensures |Add(Times(p, 8), Add(v, w))| == |p| + |Add(v, w)|
  {
    forall e | e in Times(p, 8) ensures e >= 8 { TimesIn(p, 8, e); }
    assert Add(Times(p, 8), Add(v, w)) == Times(p, 8) + Add(v, w);
    TimesWeight(p, 8);
  }

  lemma ShiftedDegree(p: Poly, q: Poly, n: nat)
    requires DegreeBelow(p, n) && DegreeBelow(q, 8)
    ensures DegreeBelow(Add(Times(p, 8), q), n + 8)
  {
    forall e | e in Times(p, 8) ensures e < n + 8 { TimesIn(p, 8, e); }
  }

  lemma {:induction false} DifferenceSize(a: Bits, b: Bits)
    requires |a| == |b|
    ensures |Difference(a, b)| == Flipped(a, b) && DegreeBelow(Difference(a, b), 8 * |a|)
    decreases |a|
  {
    hide RegPoly, Wide, Times, Add;
    if a == [] {
      AddAssoc({}, {}, {});
    } else {
      var n := |a| - 1;
      var p, q := MessagePoly(a[..n]), MessagePoly(b[..n]);
      var v, w := RegPoly(Wide(a[n])), RegPoly(Wide(b[n]));
      DifferenceSize(a[..n], b[..n]);
      LowBitsOnly(a[n]);
      LowBitsOnly(b[n]);
      TimesAdd(p, q, 8);
      SumByParts(Times(p, 8), Times(q, 8), v, w);
      SumDegree(v, w);
      Changed(v, w, Add(p, q));
      ShiftedDegree(Add(p, q), Add(v, w), 8 * n);
    }
  }

  lemma SumDegree(v: Poly, w: Poly)
    requires DegreeBelow(v, 8) && DegreeBelow(w, 8)
    ensures DegreeBelow(Add(v, w), 8)
  {
  }

  function FlippedIn(a: bv8, b: bv8): nat { |Add(RegPoly(Wide(a)), RegPoly(Wide(b)))| }

  lemma FlippedMore(a: Bits, b: Bits, c: bv8, d: bv8)
    requires |a| == |b|
    ensures Flipped(a + [c], b + [d]) == Flipped(a, b) + FlippedIn(c, d)
  {
    hide Add, RegPoly;
    assert (a + [c])[..|a|] == a && (b + [d])[..|b|] == b;
  }

  lemma FlippedCodeword(x: Bits, y: Bits)
    requires |x| == |y| >= 2
    ensures Flipped(Codeword(x), Codeword(y)) == Flipped(x, y)
  {
    hide Flipped, FlippedIn;
    var n := |x| - 2;
    var a, b := x[..n], y[..n];
    assert x == a + [x[n]] + [x[n + 1]] && y == b + [y[n]] + [y[n + 1]];
    FlippedMore(a, b, x[n], y[n]);
    FlippedMore(a + [x[n]], b + [y[n]], x[n + 1], y[n + 1]);
    FlippedMore(a, b, x[n + 1], y[n + 1]);
    FlippedMore(a + [x[n + 1]], b + [y[n + 1]], x[n], y[n]);
  }

  // ----- two terms

  lemma Pair(p: Poly) returns (i: nat, j: nat)
    requires |p| == 2
    ensures i < j && p == {i, j}
  {
    var e :| e in p;
    var rest := p - {e};
    assert |rest| == 1;
    var f :| f in rest;
    assert |rest - {f}| == 0;
    assert p == {e, f};
    if e < f { i, j := e, f; } else { i, j := f, e; }
  }

  /** x^i + x^j is a multiple of the generator exactly when 32767 divides the distance. */
  lemma TwoTerms(i: nat, j: nat)
    requires i < j
    ensures IsMultiple({i, j}) <==> (j - i) % 32767 == 0
  {
    hide IsMultiple, Times;
    var n := j - i;
    OrderOfX(n);
    assert Add({n}, {0}) == {n, 0};
    TimesOne(n, i);
    TimesOne(0, i);
    TimesAdd({n}, {0}, i);
    assert Add({j}, {i}) == {i, j};
    if IsMultiple({i, j}) { CancelTimes({n, 0}, i); }
    if IsMultiple({n, 0}) { MultipleMoves({n, 0}, i); }
  }

  lemma MultipleMoves(p: Poly, k: nat)
    requires IsMultiple(p)
    ensures IsMultiple(Times(p, k))
  {
    hide Times, IsMultiple;
    AddAssoc(p, {}, {});
    CongruentTimes(p, {}, k);
    assert Times({}, k) == {} by { forall e: nat ensures e !in Times({}, k) { TimesIn({}, k, e); } }
    AddAssoc(Times(p, k), {}, {});
  }

  lemma TwoBitsNoticed(x: Bits, y: Bits)
    requires Checks(x) && |x| == |y| <= 4095 && Flipped(x, y) == 2
    ensures !Checks(y)
  {
    hide Checks, Flipped, IsMultiple, Difference, MessagePoly;
    if Checks(y) {
      AtLeastTwo(x);
      var c, d := Codeword(x), Codeword(y);
      FlippedCodeword(x, y);
      DifferenceSize(c, d);
      CodewordsDiffer(x, y);
      var i, j := Pair(Difference(c, d));
      TwoTerms(i, j);
    }
  }

  lemma AtLeastTwo(x: Bits)
    requires Checks(x)
    ensures |x| >= 2
  {
  }

  /** One, two or three flipped bits in an accepted frame of up to 4095 bytes, fifteen times the longest the
      protocol has, make the check fail. */
  lemma FewErrorsRejected(d: Octets, e: Octets)
    requires Parse(d).Ok? && |e| == |d| <= 4095
    requires 1 <= Flipped(ToBits(d), ToBits(e)) <= 3
    ensures Parse(e) == Err(BadCrc)
  {
    hide Parse, Checks, ToBits, Flipped;
    if Flipped(ToBits(d), ToBits(e)) == 2 {
      AcceptedLength(d);
      CheckedFrame(d);
      CheckedFrame(e);
      TwoBitsNoticed(ToBits(d), ToBits(e));
    } else {
      OddErrorsRejected(d, e);
    }
  }
}
