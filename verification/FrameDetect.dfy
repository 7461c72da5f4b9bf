/** Error detection on whole frames: a frame that passed its check, and an altered copy of it. */
module FrameDetect {
  import opened Bytes
  import opened Poly
  import opened Crc
  import opened Detect
  import opened Frame
  import opened Words

  // ----- frames as bit strings: message bytes, then the low and the high byte of the register

  function Joined(lo: bv8, hi: bv8): bv16 { (Wide(hi) << 8) ^ Wide(lo) }

  predicate Checks(x: Bits) {
    |x| >= 2 && Run(INIT, x[..|x| - 2]) == Joined(x[|x| - 2], x[|x| - 1])
  }

  lemma JoinedInjective(a: bv8, b: bv8, c: bv8, d: bv8)
    requires Joined(a, b) == Joined(c, d)
    ensures a == c && b == d
  {
  }

  lemma CheckedIsEven(x: Bits)
    requires Checks(x)
    ensures !OddNumber(Ones(x))
  {
    var n := |x| - 2;
    var lo, hi := x[n], x[n + 1];
    var p, q := Weight(Wide(hi)), Weight(Wide(lo));
    ChecksumParity(x[..n]);
    WordParity(Joined(lo, hi), lo, hi);
    SumParity(Ones(x[..n]), p + q);
    OnesOfTwo(x, n);
  }

  lemma OnesOfTwo(x: Bits, n: nat)
    requires |x| == n + 2
    ensures Ones(x) == Ones(x[..n]) + (Weight(Wide(x[n + 1])) + Weight(Wide(x[n])))
  {
    var y := x[..n + 1];
    assert y[..n] == x[..n] && y[n] == x[n];
    assert Ones(y) == Ones(y[..n]) + Weight(Wide(y[n]));
    assert x[..|x| - 1] == y;
  }

  /** `y` is `x` with nothing changed outside bytes `i` and `i + 1`. */
  predicate OnlyBytes<T(==)>(x: seq<T>, y: seq<T>, i: nat) {
    i + 1 < |x| == |y| && x[..i] == y[..i] && x[i + 2..] == y[i + 2..]
  }

  lemma InBody(x: Bits, y: Bits, i: nat)
    requires Checks(x) && OnlyBytes(x, y, i) && x != y && i + 4 <= |x|
    ensures !Checks(y)
  {
    var n := |x| - 2;
    var a, b := x[..n], y[..n];
    var p, q := x[i + 2..], y[i + 2..];
    assert a[..i] == x[..i] && b[..i] == y[..i];
    assert a[i + 2..] == p[..n - i - 2] && b[i + 2..] == q[..n - i - 2];
    assert x[n] == p[n - i - 2] && y[n] == q[n - i - 2];
    assert x[n + 1] == p[n - i - 1] && y[n + 1] == q[n - i - 1];
    assert x == a + [x[n], x[n + 1]] && y == b + [y[n], y[n + 1]];
    AdjacentBytesBurst(a, b, i);
    BurstDetected(a, b, 8 * (n - 2 - i));
  }

  lemma BurstInBody(x: Bits, y: Bits, k: nat)
    requires Checks(x) && |x| == |y| && x != y && x[|x| - 2..] == y[|x| - 2..]
    requires Burst(x[..|x| - 2], y[..|x| - 2], k)
    ensures !Checks(y)
  {
    var n := |x| - 2;
    assert x[n] == x[n..][0] && x[n + 1] == x[n..][1] && y[n] == y[n..][0] && y[n + 1] == y[n..][1];
    assert x == x[..n] + x[n..] && y == y[..n] + y[n..];
    BurstDetected(x[..n], y[..n], k);
  }

  lemma InTrailer(x: Bits, y: Bits)
    requires Checks(x) && OnlyBytes(x, y, |x| - 2) && x != y
    ensures !Checks(y)
  {
    var n := |x| - 2;
    assert x == x[..n] + [x[n], x[n + 1]] && y == y[..n] + [y[n], y[n + 1]];
    if Checks(y) { JoinedInjective(x[n], x[n + 1], y[n], y[n + 1]); }
  }

  /** The trailer is sent low byte first, so the last message byte and the first trailer byte are not
      neighbours in the polynomial; one pattern across them goes unnoticed. */
  lemma AcrossBoundary(x: Bits, y: Bits)
    requires Checks(x) && |x| >= 3 && OnlyBytes(x, y, |x| - 3) && x != y
    ensures Checks(y) <==> x[|x| - 3] ^ y[|x| - 3] == 0x89 && x[|x| - 2] ^ y[|x| - 2] == 0xA1
  {
    var i := |x| - 3;
    assert x[i + 2] == x[i + 2..][0] && y[i + 2] == y[i + 2..][0];
    assert x == x[..i] + [x[i]] + [x[i + 1], x[i + 2]] && y == y[..i] + [y[i]] + [y[i + 1], y[i + 2]];
    AcrossPieces(x[..i], x[i], y[i], x[i + 1], y[i + 1], x[i + 2]);
  }

  lemma ChecksPieces(a: Bits, lo: bv8, hi: bv8)
    ensures Checks(a + [lo, hi]) <==> Run(INIT, a) == Joined(lo, hi)
  {
    assert (a + [lo, hi])[..|a|] == a;
  }

  lemma AcrossPieces(a: Bits, c: bv8, c': bv8, lo: bv8, lo': bv8, hi: bv8)
    requires Checks(a + [c] + [lo, hi]) && (c != c' || lo != lo')
    ensures Checks(a + [c'] + [lo', hi]) <==> c ^ c' == 0x89 && lo ^ lo' == 0xA1
  {
    hide Joined, Checks, Wide, Run, Feed;
    ChecksPieces(a + [c], lo, hi);
    ChecksPieces(a + [c'], lo', hi);
    var v, w := lo ^ lo', c ^ c';
    var t := LastByteChange(a + [c], a + [c'], w);
    XorZero(c, c');
    XorZero(lo, lo');
    JoinedChange(Run(INIT, a + [c]), Run(INIT, a + [c']), lo, lo', hi, v, t);
    PatternByte(w, v, t);
  }

  lemma JoinedChange(p: bv16, q: bv16, lo: bv8, lo': bv8, hi: bv8, v: bv8, t: bv16)
    requires p == Joined(lo, hi) && t == p ^ q && v == lo ^ lo'
    ensures q == Joined(lo', hi) <==> t == Wide(v)
  {
    hide Joined, RegPoly;
    var h, l, l' := RegPoly(Wide(hi) << 8), RegPoly(Wide(lo)), RegPoly(Wide(lo'));
    JoinedPoly(lo, hi);
    JoinedPoly(lo', hi);
    XorPoly(p, q);
    assert RegPoly(Wide(v)) == Add(l, l') by { WideXorPoly(lo, lo', v); }
    SumSwap(RegPoly(p), RegPoly(q), h, l, l', RegPoly(t));
    SameWordPoly(q, Joined(lo', hi));
    SameWordPoly(t, Wide(v));
  }

  lemma JoinedPoly(lo: bv8, hi: bv8)
    ensures RegPoly(Joined(lo, hi)) == Add(RegPoly(Wide(hi) << 8), RegPoly(Wide(lo)))
  {
    XorPoly(Wide(hi) << 8, Wide(lo));
  }

  lemma WideXorPoly(a: bv8, b: bv8, v: bv8)
    requires v == a ^ b
    ensures RegPoly(Wide(v)) == Add(RegPoly(Wide(a)), RegPoly(Wide(b)))
  {
    WideXor(a, b);
    XorPoly(Wide(a), Wide(b));
  }

  lemma SameWordPoly(r: bv16, s: bv16)
    ensures r == s <==> RegPoly(r) == RegPoly(s)
  {
    if RegPoly(r) == RegPoly(s) { SameBits(r, s); }
  }

  lemma SumSwap(p: Poly, q: Poly, h: Poly, l: Poly, l': Poly, t: Poly)
    requires p == Add(h, l) && t == Add(p, q)
    ensures q == Add(h, l') <==> t == Add(l, l')
  {
    assert q == Add(p, t);
    assert Add(Add(h, l), Add(l, l')) == Add(h, l');
    assert Add(Add(h, l), Add(h, l')) == Add(l, l');
  }

  lemma LastByteChange(a: Bits, b: Bits, w: bv8) returns (t: bv16)
    requires |a| == |b| > 0 && a[..|a| - 1] == b[..|b| - 1] && w == a[|a| - 1] ^ b[|b| - 1]
    ensures Run(INIT, a) ^ Run(INIT, b) == t
    ensures t & 0xFF00 == 0 <==> w == 0 || w == 0x89
    ensures w == 0 ==> t == 0
    ensures w == 0x89 ==> t == 0xA1
  {
    LastByteDifference(a, b, w);
    HighHalf(w);
    t := ShiftBy(Wide(w) << 8, 8);
  }

  lemma PatternByte(w: bv8, v: bv8, t: bv16)
    requires t & 0xFF00 == 0 <==> w == 0 || w == 0x89
    requires w == 0 ==> t == 0
    requires w == 0x89 ==> t == 0xA1
    requires !(w == 0 && v == 0)
    ensures t == Wide(v) <==> w == 0x89 && v == 0xA1
  {
  }

  lemma XorZero(a: bv8, b: bv8)
    ensures a ^ b == 0 <==> a == b
  {
  }

  // ----- bytes and register words as integers

  lemma JoinedHalves(r: bv16, lo: bv8, hi: bv8)
    requires r == Joined(lo, hi)
    ensures lo as bv16 == r & 0xFF && hi as bv16 == r >> 8
  {
  }

  /** The little-endian trailer names a register value. */
  lemma TrailerWord(lo: byte, hi: byte, r: bv16)
    ensures r as int == lo as int + 256 * (hi as int) <==> r == Joined(lo as bv8, hi as bv8)
  {
    var l: bv8, h: bv8 := lo as bv8, hi as bv8;
    var j := Joined(l, h);
    ByteAsBits(lo);
    ByteAsBits(hi);
    JoinedHalves(j, l, h);
    JoinedAsInt(j, l, h);
    SameWord(r, j);
  }

  lemma TwoBytes(t: Octets)
    requires |t| == 2
    ensures LeVal(t) == t[0] as int + 256 * (t[1] as int)
  {
    assert t[1..] == [t[1]] && LeVal([t[1]]) == t[1];
  }

  lemma ParseCheck(d: Octets)
    requires |d| >= 5
    ensures Parse(d).Ok? || Parse(d) == Err(BadCrc)
    ensures Parse(d).Ok? <==> Checksum(d[..|d| - 2]) == LeVal(d[|d| - 2..])
  {
  }

  /** The frame check, in terms of the register. */
  lemma CheckedFrame(d: Octets)
    requires |d| >= 5
    ensures Parse(d).Ok? || Parse(d) == Err(BadCrc)
    ensures Parse(d).Ok? <==> Checks(ToBits(d))
  {
    hide Joined, Run, Parse, Checks;
    ParseCheck(d);
    TrailerCheck(d, |d| - 2);
  }

  lemma TrailerCheck(d: Octets, n: nat)
    requires |d| == n + 2
    ensures Checksum(d[..n]) == LeVal(d[n..]) <==> Checks(ToBits(d))
  {
    hide Joined, Run;
    var r := Run(INIT, ToBits(d[..n]));
    TwoBytes(d[n..]);
    TrailerWord(d[n], d[n + 1], r);
    ToBitsPrefix(d, n);
    ToBitsAt(d, n);
    ToBitsAt(d, n + 1);
  }

  lemma SameOctets(d: Octets, e: Octets)
    ensures ToBits(d) == ToBits(e) <==> d == e
  {
    if ToBits(d) == ToBits(e) {
      forall i | 0 <= i < |d| ensures |d| == |e| && d[i] == e[i] {
        ToBitsAt(d, i);
        ToBitsAt(e, i);
        ByteAsBits(d[i]);
        ByteAsBits(e[i]);
      }
    }
  }

  // ----- what the check of a received frame notices

  /** Every accepted frame has an even number of one bits. */
  lemma AcceptedFrameIsEven(d: Octets)
    requires Parse(d).Ok?
    ensures Ones(ToBits(d)) % 2 == 0
  {
    CheckedFrame(d);
    CheckedIsEven(ToBits(d));
    OddIsMod(Ones(ToBits(d)));
  }

  /** Flipping an odd number of bits of an accepted frame, anywhere in it, is always noticed. */
  lemma OddErrorsRejected(d: Octets, e: Octets)
    requires Parse(d).Ok? && |e| == |d|
    requires Flipped(ToBits(d), ToBits(e)) % 2 == 1
    ensures Parse(e) == Err(BadCrc)
  {
    CheckedFrame(d);
    CheckedFrame(e);
    OddIsMod(Flipped(ToBits(d), ToBits(e)));
    FlippedParity(ToBits(d), ToBits(e));
    CheckedIsEven(ToBits(d));
    if Checks(ToBits(e)) { CheckedIsEven(ToBits(e)); }
  }

  /** A burst of up to 16 bits in the part the checksum covers is always noticed. */
  lemma BodyBurstRejected(d: Octets, e: Octets, k: nat)
    requires Parse(d).Ok? && |e| == |d| && e != d
    requires e[|e| - 2..] == d[|d| - 2..]
    requires Burst(ToBits(Body(d)), ToBits(Body(e)), k)
    ensures Parse(e) == Err(BadCrc)
  {
    hide Checks, Burst, ToBits;
    var n := |d| - 2;
    CheckedFrame(d);
    CheckedFrame(e);
    SameOctets(d, e);
    SameTail(d, e, n);
    ToBitsPrefix(d, n);
    ToBitsPrefix(e, n);
    BurstInBody(ToBits(d), ToBits(e), k);
  }

  lemma SameTail(d: Octets, e: Octets, n: nat)
    requires n <= |d| == |e| && d[n..] == e[n..]
    ensures ToBits(d)[n..] == ToBits(e)[n..]
  {
    forall i | n <= i < |d| ensures ToBits(d)[i] == ToBits(e)[i] {
      assert d[n..][i - n] == e[n..][i - n];
      ToBitsAt(d, i);
      ToBitsAt(e, i);
    }
  }

  predicate FlipsBits(x: bv8, y: bv8, pattern: bv8) { x ^ y == pattern }

  predicate Flips(d: byte, e: byte, pattern: bv8) { FlipsBits(d as bv8, e as bv8, pattern) }

  /** Changing two adjacent bytes of an accepted frame is noticed, except for one pattern in the last
      body byte and the first trailer byte. */
  lemma AdjacentBytesRejected(d: Octets, e: Octets, i: nat)
    requires Parse(d).Ok? && OnlyBytes(d, e, i) && d != e
    ensures Parse(e).Ok? || Parse(e) == Err(BadCrc)
    ensures Parse(e).Ok? <==> i + 3 == |d| && Flips(d[i], e[i], 0x89) && Flips(d[i + 1], e[i + 1], 0xA1)
  {
    AcceptedLength(d);
    hide Checks, Parse, ToBits, FlipsBits, OnlyBytes;
    CheckedFrame(d);
    CheckedFrame(e);
    SameOctets(d, e);
    OnlyBits(d, e, i);
    AdjacentBits(ToBits(d), ToBits(e), i);
    if i + 3 == |d| {
      ToBitsAt(d, i);
      ToBitsAt(e, i);
      ToBitsAt(d, i + 1);
      ToBitsAt(e, i + 1);
    }
  }

  lemma AcceptedLength(d: Octets)
    requires Parse(d).Ok?
    ensures |d| >= 5
  {
  }

  lemma AdjacentBits(x: Bits, y: Bits, i: nat)
    requires Checks(x) && OnlyBytes(x, y, i) && x != y && |x| >= 3
    ensures Checks(y) <==> i + 3 == |x| && FlipsBits(x[i], y[i], 0x89) && FlipsBits(x[i + 1], y[i + 1], 0xA1)
  {
    hide Checks;
    if i + 4 <= |x| {
      InBody(x, y, i);
    } else if i + 2 == |x| {
      InTrailer(x, y);
    } else {
      AcrossBoundary(x, y);
    }
  }

  lemma OnlyBits(d: Octets, e: Octets, i: nat)
    requires OnlyBytes(d, e, i)
    ensures |d| == |e| && i + 1 < |d| && OnlyBytes(ToBits(d), ToBits(e), i)
  {
    ToBitsPrefix(d, i);
    ToBitsPrefix(e, i);
    SameTail(d, e, i + 2);
  }

  function Flip(b: bv8, pattern: bv8): bv8 { b ^ pattern }

  lemma FlippedByte(b: byte, pattern: bv8) returns (c: byte)
    requires pattern != 0
    ensures c != b && Flips(b, c, pattern)
  {
    hide Flip, FlipsBits;
    var w := Flip(b as bv8, pattern);
    BitsAsByte(w);
    SelfInverse(b as bv8, pattern);
    c := w as int;
  }

  lemma SelfInverse(b: bv8, pattern: bv8)
    ensures FlipsBits(b, Flip(b, pattern), pattern)
    ensures pattern != 0 ==> Flip(b, pattern) != b
  {
  }

  /** The exception exists: every accepted frame has a neighbour, different in two adjacent bytes, that is
      accepted too. */
  lemma MissedNeighbour(d: Octets) returns (e: Octets)
    requires Parse(d).Ok?
    ensures |e| == |d| >= 5 && e != d && OnlyBytes(d, e, |d| - 3) && Parse(e).Ok?
  {
    hide Parse, Flips;
    assert |d| >= 5 by { AcceptedLength(d); }
    var i := |d| - 3;
    var b := FlippedByte(d[i], 0x89);
    var c := FlippedByte(d[i + 1], 0xA1);
    e := d[i := b][i + 1 := c];
    assert d[..i] == e[..i] && d[i + 2..] == e[i + 2..] && e[i] != d[i];
    AdjacentBytesRejected(d, e, i);
  }
}
