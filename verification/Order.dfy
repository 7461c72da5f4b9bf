/** The order of x modulo the generator is 32767: two bits are told apart over that distance. */
module Order {
  import opened Poly
  import opened Crc
  import opened Detect

  /** x^n is 1 modulo G. */
  ghost predicate Unit(n: nat) { Congruent({n}, {0}) }

  ghost predicate PowerIs(n: nat, r: bv16) { Congruent({n}, RegPoly(r)) }

  // ----- products of powers, on registers

  lemma TimesOne(m: nat, k: nat)
    ensures Times({m}, k) == {m + k}
  {
    forall e: nat ensures e in Times({m}, k) <==> e in {m + k} { TimesIn({m}, k, e); }
  }

  function Horner(acc: bv16, bit: bool, s: bv16): bv16 { if bit then Xor(ShiftReg(acc), s) else ShiftReg(acc) }

  /** Multiplication by Horner's rule on the bits of `r`, the highest first. */
  function Mul(r: bv16, s: bv16, i: nat): bv16
    requires i <= 16
  {
    if i == 0 then 0 else Horner(Mul(r, s, i - 1), Bit(r, 16 - i), s)
  }

  /** The `i` highest of sixteen coefficients. */
  function High(p: Poly, i: nat): Poly
    requires i <= 16
  {
    set e | e in p && e >= 16 - i :: e - (16 - i)
  }

  lemma HighIn(p: Poly, i: nat, e: nat)
    requires i <= 16
    ensures e in High(p, i) <==> e + 16 - i in p
  {
    if e + 16 - i in p { assert (e + 16 - i) - (16 - i) == e; }
  }

  lemma HighStep(p: Poly, i: nat)
    requires 0 < i <= 16
    ensures High(p, i) == Add(Times(High(p, i - 1), 1), if 16 - i in p then {0} else {})
  {
    forall e: nat
      ensures e in High(p, i) <==> e in Add(Times(High(p, i - 1), 1), if 16 - i in p then {0} else {})
    {
      HighIn(p, i, e);
      TimesIn(High(p, i - 1), 1, e);
      if e >= 1 { HighIn(p, i - 1, e - 1); }
    }
  }

  lemma ShiftedPower(acc: bv16, p: Poly, n: nat)
    requires Congruent(RegPoly(acc), Times(p, n))
    ensures Congruent(RegPoly(ShiftReg(acc)), Times(Times(p, 1), n))
  {
    hide RegPoly, ShiftReg, Congruent, Times;
    ShiftPoly(acc);
    CongruentTimes(RegPoly(acc), Times(p, n), 1);
    CongruentTransitive(RegPoly(ShiftReg(acc)), Times(RegPoly(acc), 1), Times(Times(p, n), 1));
    TimesTimes(p, n, 1);
    TimesTimes(p, 1, n);
  }

  lemma SumPoly(r: bv16, s: bv16)
    ensures RegPoly(Xor(r, s)) == Add(RegPoly(r), RegPoly(s))
  {
    hide RegPoly, Add;
    XorPoly(r, s);
  }

  lemma AddedPower(up: bv16, s: bv16, q: Poly, n: nat)
    requires Congruent(RegPoly(up), Times(q, n)) && PowerIs(n, s)
    ensures Congruent(RegPoly(Xor(up, s)), Times(Add(q, {0}), n))
  {
    hide RegPoly, Congruent, Times, Add, Xor;
    SumPoly(up, s);
    CongruentSym({n}, RegPoly(s));
    CongruentSum(RegPoly(up), Times(q, n), RegPoly(s), {n});
    TimesAdd(q, {0}, n);
    TimesOne(0, n);
  }

  lemma HornerPoly(acc: bv16, bit: bool, s: bv16, p: Poly, n: nat)
    requires Congruent(RegPoly(acc), Times(p, n)) && PowerIs(n, s)
    ensures Congruent(RegPoly(Horner(acc, bit, s)), Times(Add(Times(p, 1), if bit then {0} else {}), n))
  {
    hide RegPoly, ShiftReg, Congruent, Times, Add, Xor, PowerIs;
    ShiftedPower(acc, p, n);
    if bit {
      AddedPower(ShiftReg(acc), s, Times(p, 1), n);
    } else {
      AddAssoc(Times(p, 1), {}, {});
    }
  }

  lemma {:induction false} MulPoly(r: bv16, s: bv16, n: nat, i: nat)
    requires PowerIs(n, s) && i <= 16
    ensures Congruent(RegPoly(Mul(r, s, i)), Times(High(RegPoly(r), i), n))
  {
    hide RegPoly, Horner, Bit, Congruent, Add;
    if i == 0 {
      assert High(RegPoly(r), 0) == {} by { RegDegree(r); }
      assert Times({}, n) == {};
      ZeroReg();
      CongruentReflexive({});
    } else {
      hide Times, High;
      MulPoly(r, s, n, i - 1);
      HornerPoly(Mul(r, s, i - 1), Bit(r, 16 - i), s, High(RegPoly(r), i - 1), n);
      HighStep(RegPoly(r), i);
      BitInPoly(r, 16 - i);
    }
  }

  lemma ZeroReg()
    ensures RegPoly(0) == {}
  {
  }

  lemma BitInPoly(r: bv16, i: nat)
    requires i < 16
    ensures i in RegPoly(r) <==> Bit(r, i)
  {
  }

  lemma CongruentSym(p: Poly, q: Poly)
    requires Congruent(p, q)
    ensures Congruent(q, p)
  {
    assert Add(p, q) == Add(q, p);
  }

  lemma PowerProduct(m: nat, r: bv16, n: nat, s: bv16)
    requires PowerIs(m, r) && PowerIs(n, s)
    ensures PowerIs(m + n, Mul(r, s, 16))
  {
    hide RegPoly, Mul, Congruent;
    MulPoly(r, s, n, 16);
    HighAll(RegPoly(r));
    CongruentTimes({m}, RegPoly(r), n);
    TimesOne(m, n);
    CongruentSym(RegPoly(Mul(r, s, 16)), Times(RegPoly(r), n));
    CongruentTransitive({m + n}, Times(RegPoly(r), n), RegPoly(Mul(r, s, 16)));
  }

  lemma HighAll(p: Poly)
    ensures High(p, 16) == p
  {
    forall e: nat ensures e in High(p, 16) <==> e in p { HighIn(p, 16, e); }
  }

  // ----- the same on literals

  function Quarter(acc: bv16, r: bv16, s: bv16): bv16 {
    Horner(Horner(Horner(Horner(acc, Top(r, 0x8000), s), Top(r, 0x4000), s), Top(r, 0x2000), s), Top(r, 0x1000), s)
  }

  function Whole(r: bv16, s: bv16): bv16 {
    Quarter(Quarter(Quarter(Quarter(0, r, s), r << 4, s), r << 8, s), r << 12, s)
  }

  lemma FourMore(r: bv16, s: bv16, i: nat)
    requires i <= 12
    ensures Mul(r, s, i + 4) ==
              var half := Horner(Horner(Mul(r, s, i), Bit(r, 15 - i), s), Bit(r, 14 - i), s);
              Horner(Horner(half, Bit(r, 13 - i), s), Bit(r, 12 - i), s)
  {
    hide Horner, Bit;
    assert Mul(r, s, i + 1) == Horner(Mul(r, s, i), Bit(r, 15 - i), s);
    assert Mul(r, s, i + 2) == Horner(Mul(r, s, i + 1), Bit(r, 14 - i), s);
    assert Mul(r, s, i + 3) == Horner(Mul(r, s, i + 2), Bit(r, 13 - i), s);
  }

  predicate Top(r: bv16, m: bv16) { r & m != 0 }

  lemma Moved(r: bv16)
    ensures Meets(r, 0x800) == Top(r << 4, 0x8000) && Meets(r, 0x400) == Top(r << 4, 0x4000)
    ensures Meets(r, 0x200) == Top(r << 4, 0x2000) && Meets(r, 0x100) == Top(r << 4, 0x1000)
  {
    hide Meets, Top;
    MovedUpper(r);
    MovedLower(r);
  }

  lemma MovedUpper(r: bv16)
    ensures Meets(r, 0x800) == Top(r << 4, 0x8000) && Meets(r, 0x400) == Top(r << 4, 0x4000)
  {
  }

  lemma MovedLower(r: bv16)
    ensures Meets(r, 0x200) == Top(r << 4, 0x2000) && Meets(r, 0x100) == Top(r << 4, 0x1000)
  {
  }

  lemma MovedMore(r: bv16)
    ensures Meets(r, 0x80) == Top(r << 8, 0x8000) && Meets(r, 0x40) == Top(r << 8, 0x4000)
    ensures Meets(r, 0x20) == Top(r << 8, 0x2000) && Meets(r, 0x10) == Top(r << 8, 0x1000)
  {
  }

  lemma MovedMost(r: bv16)
    ensures Meets(r, 0x8) == Top(r << 12, 0x8000) && Meets(r, 0x4) == Top(r << 12, 0x4000)
    ensures Meets(r, 0x2) == Top(r << 12, 0x2000) && Meets(r, 0x1) == Top(r << 12, 0x1000)
  {
  }

  lemma NotMoved(r: bv16)
    ensures Meets(r, 0x8000) == Top(r, 0x8000) && Meets(r, 0x4000) == Top(r, 0x4000)
    ensures Meets(r, 0x2000) == Top(r, 0x2000) && Meets(r, 0x1000) == Top(r, 0x1000)
  {
  }

  lemma MulIsWhole(r: bv16, s: bv16)
    ensures Mul(r, s, 16) == Whole(r, s)
  {
    hide Horner, Meets, Mask, Top;
    AllMasks();
    NotMoved(r);
    Moved(r);
    MovedMore(r);
    MovedMost(r);
    FourMore(r, s, 0);
    FourMore(r, s, 4);
    FourMore(r, s, 8);
    FourMore(r, s, 12);
  }

  lemma Product(m: nat, r: bv16, n: nat, s: bv16, t: bv16)
    requires PowerIs(m, r) && PowerIs(n, s) && Whole(r, s) == t
    ensures PowerIs(m + n, t)
  {
    hide PowerIs, Whole, Mul;
    PowerProduct(m, r, n, s);
    MulIsWhole(r, s);
  }

  lemma PowerOne()
    ensures PowerIs(1, 0x0002)
  {
    hide Congruent;
    AllMasks();
    assert RegPoly(0x0002) == {1} by {
      forall i: nat ensures i in RegPoly(0x0002) <==> i in {1} { TwoBit(i); }
    }
    CongruentReflexive({1});
  }

  lemma TwoBit(i: nat)
    ensures i in RegPoly(0x0002) <==> i == 1
  {
    AllMasks();
    if i < 16 { MaskFacts(i); }
  }

  /** x to the powers of two. */
  lemma PowersOfTwo()
    ensures PowerIs(8, 0x0100) && PowerIs(16, 0x1021) && PowerIs(32, 0x3730) && PowerIs(64, 0xB861)
    ensures PowerIs(128, 0xAEFC) && PowerIs(512, 0x13FC) && PowerIs(1024, 0x36C4) && PowerIs(4096, 0xAA9E)
    ensures PowerIs(1, 0x0002) && PowerIs(32768, 0x0002)
  {
    hide PowerIs;
    PowerOne();
    Product(1, 0x0002, 1, 0x0002, 0x0004);
    Product(2, 0x0004, 2, 0x0004, 0x0010);
    Product(4, 0x0010, 4, 0x0010, 0x0100);
    Product(8, 0x0100, 8, 0x0100, 0x1021);
    Product(16, 0x1021, 16, 0x1021, 0x3730);
    Product(32, 0x3730, 32, 0x3730, 0xB861);
    Product(64, 0xB861, 64, 0xB861, 0xAEFC);
    Product(128, 0xAEFC, 128, 0xAEFC, 0x8E29);
    Product(256, 0x8E29, 256, 0x8E29, 0x13FC);
    Product(512, 0x13FC, 512, 0x13FC, 0x36C4);
    Product(1024, 0x36C4, 1024, 0x36C4, 0xFD50);
    Product(2048, 0xFD50, 2048, 0xFD50, 0xAA9E);
    Product(4096, 0xAA9E, 4096, 0xAA9E, 0x881C);
    Product(8192, 0x881C, 8192, 0x881C, 0x4458);
    Product(16384, 0x4458, 16384, 0x4458, 0x0002);
  }

  /** x to the largest proper divisors of 32767. */
  lemma PowersOfDivisors()
    ensures PowerIs(217, 0x48E3) && PowerIs(1057, 0xF2AF) && PowerIs(4681, 0x2C42)
  {
    hide PowerIs;
    PowersOfTwo();
    Product(128, 0xAEFC, 64, 0xB861, 0x650B);
    Product(192, 0x650B, 16, 0x1021, 0x45B4);
    Product(208, 0x45B4, 8, 0x0100, 0xAC61);
    Product(216, 0xAC61, 1, 0x0002, 0x48E3);
    Product(1024, 0x36C4, 32, 0x3730, 0xF147);
    Product(1056, 0xF147, 1, 0x0002, 0xF2AF);
    Product(4096, 0xAA9E, 512, 0x13FC, 0x54A0);
    Product(4608, 0x54A0, 64, 0xB861, 0x0106);
    Product(4672, 0x0106, 8, 0x0100, 0x1621);
    Product(4680, 0x1621, 1, 0x0002, 0x2C42);
  }

  // ----- the exponents at which x is 1

  lemma UnitSum(m: nat, n: nat)
    requires Unit(m) && Unit(n)
    ensures Unit(m + n)
  {
    hide Congruent;
    CongruentTimes({m}, {0}, n);
    TimesOne(m, n);
    TimesOne(0, n);
    CongruentTransitive({m + n}, {n}, {0});
  }

  lemma CancelPower(m: nat, n: nat, k: nat)
    requires Congruent({m + k}, {n + k})
    ensures Congruent({m}, {n})
  {
    hide Times, IsMultiple;
    TimesOne(m, k);
    TimesOne(n, k);
    TimesAdd({m}, {n}, k);
    CancelTimes(Add({m}, {n}), k);
  }

  lemma UnitDifference(m: nat, n: nat)
    requires Unit(m + n) && Unit(n)
    ensures Unit(m)
  {
    hide Congruent;
    CongruentSym({n}, {0});
    CongruentTransitive({m + n}, {0}, {n});
    CancelPower(m, 0, n);
  }

  lemma {:induction false} UnitMultiple(k: nat, n: nat)
    requires Unit(n)
    ensures Unit(k * n)
    decreases k
  {
    hide Unit;
    if k == 0 {
      UnitZero();
    } else {
      UnitMultiple(k - 1, n);
      UnitSum((k - 1) * n, n);
      assert (k - 1) * n + n == k * n;
    }
  }

  lemma UnitZero()
    ensures Unit(0)
  {
    CongruentReflexive({0});
  }

  lemma WholePeriod()
    ensures Unit(32767)
  {
    hide Congruent, RegPoly;
    PowersOfTwo();
    CongruentSym({1}, RegPoly(0x0002));
    CongruentTransitive({32768}, RegPoly(0x0002), {1});
    CancelPower(32767, 0, 1);
  }

  lemma NotUnit(n: nat, r: bv16)
    requires PowerIs(n, r) && r != 1
    ensures !Unit(n)
  {
    if Unit(n) {
      hide Congruent;
      OneReg();
      CongruentSym({n}, RegPoly(r));
      CongruentTransitive(RegPoly(r), {n}, {0});
      RegDegree(r);
      RemainderUnique(RegPoly(r), {0});
      SameBits(r, 1);
    }
  }

  lemma OneReg()
    ensures RegPoly(1) == {0}
  {
    forall i: nat ensures i in RegPoly(1) <==> i in {0} { OneBit(i); }
  }

  lemma OneBit(i: nat)
    ensures i in RegPoly(1) <==> i == 0
  {
    AllMasks();
    if i < 16 { MaskFacts(i); }
  }

  lemma NoSmallerPeriod()
    ensures !Unit(217) && !Unit(1057) && !Unit(4681)
  {
    hide PowerIs, Unit;
    PowersOfDivisors();
    NotUnit(217, 0x48E3);
    NotUnit(1057, 0xF2AF);
    NotUnit(4681, 0x2C42);
  }

  // ----- and no others

  function Mult(m: nat, k: nat): nat { m * k }

  ghost predicate Divides(k: nat, n: nat) { exists m: nat :: Mult(m, k) == n }

  ghost predicate Prime(p: nat) { p > 1 && forall k :: 2 <= k < p ==> !Divides(k, p) }

  lemma NoSmallFactor(k: nat, p: nat)
    requires p == 31 || p == 151
    ensures Mult(2, k) != p && Mult(3, k) != p && Mult(4, k) != p && Mult(5, k) != p && Mult(6, k) != p
    ensures Mult(7, k) != p && Mult(8, k) != p && Mult(9, k) != p && Mult(10, k) != p && Mult(11, k) != p
    ensures Mult(12, k) != p
  {
  }

  lemma NoFactorUpTo12(m: nat, k: nat, p: nat)
    requires p == 31 || p == 151
    requires 2 <= m <= 12
    ensures Mult(m, k) != p
  {
    hide Mult;
    NoSmallFactor(k, p);
    assert m == 2 || m == 3 || m == 4 || m == 5 || m == 6
        || m == 7 || m == 8 || m == 9 || m == 10 || m == 11 || m == 12;
  }

  lemma NoFactor(m: nat, k: nat, p: nat)
    requires p == 31 || p == 151
    requires 2 <= k < p
    ensures Mult(m, k) != p
  {
    if 2 <= m <= 12 {
      NoFactorUpTo12(m, k, p);
    } else if k <= 12 {
      NoFactorUpTo12(k, m, p);
      Commutes(m, k);
    } else {
      Extremes(m, k);
    }
  }

  lemma Commutes(m: nat, k: nat)
    ensures Mult(m, k) == Mult(k, m)
  {
  }

  lemma Extremes(m: nat, k: nat)
    ensures Mult(0, k) == 0 && Mult(1, k) == k
    ensures m >= 13 && k >= 13 ==> Mult(m, k) >= 169
  {
    if m >= 13 && k >= 13 { assert m * k >= 13 * k; }
  }

  lemma NoFactorOf7(m: nat, k: nat)
    requires 2 <= k < 7
    ensures Mult(m, k) != 7
  {
    Commutes(m, k);
    assert Mult(2, m) != 7 && Mult(3, m) != 7 && Mult(4, m) != 7 && Mult(5, m) != 7 && Mult(6, m) != 7;
    hide Mult;
    assert k == 2 || k == 3 || k == 4 || k == 5 || k == 6;
  }

  lemma Primes()
    ensures Prime(7) && Prime(31) && Prime(151)
  {
    hide Mult;
    forall k, m: nat | 2 <= k < 7 ensures Mult(m, k) != 7 { NoFactorOf7(m, k); }
    forall k, m: nat | 2 <= k < 31 ensures Mult(m, k) != 31 { NoFactor(m, k, 31); }
    forall k, m: nat | 2 <= k < 151 ensures Mult(m, k) != 151 { NoFactor(m, k, 151); }
  }

  lemma InverseStep(a: int, p: int, q: int, r: int, v: int, w: int)
    requires p == q * a + r && v * r == 1 + w * p
    ensures -(v * q) * a == 1 + (w - v) * p
  {
    assert v * p == v * (q * a) + v * r;
    assert v * (q * a) == (v * q) * a;
  }

  /** Modulo a prime, everything but zero has an inverse. */
  lemma {:induction false} Inverse(a: nat, p: nat) returns (u: int, t: int)
    requires Prime(p) && 0 < a < p
    ensures u * a == 1 + t * p
    decreases a
  {
    if a == 1 {
      u, t := 1, 0;
    } else {
      var q, r := p / a, p % a;
      assert Mult(q, a) + r == p && !Divides(a, p);
      var v, w := Inverse(r, p);
      u, t := -(v * q), w - v;
      InverseStep(a, p, q, r, v, w);
    }
  }

  /** If `n` is not a multiple of the prime `p`, and 32767 is `p` times `m`, then a period `n` gives a period `m`. */
  lemma PeriodWithout(n: nat, p: nat, m: nat)
    requires Unit(n) && Prime(p) && n % p != 0 && p * m == 32767
    ensures Unit(m)
  {
    hide Unit;
    var a, k := n % p, n / p;
    var u, t := Inverse(a, p);
    var v := u % p;
    var w := t + u * k - (u / p) * n;
    InverseOf(n, p, a, k, u, t, v, w);
    WholePeriod();
    UnitMultiple(m * v, n);
    UnitMultiple(w, 32767);
    assert (m * v) * n == m + w * 32767 by { Rescaled(m, v, n, w, p); }
    UnitDifference(m, w * 32767);
  }

  lemma InverseOf(n: nat, p: nat, a: nat, k: nat, u: int, t: int, v: nat, w: int)
    requires p > 1 && n == p * k + a && u * a == 1 + t * p && v == u % p && w == t + u * k - (u / p) * n
    ensures v * n == 1 + w * p && w >= 0
  {
    var q := u / p;
    assert u == q * p + v;
    Spread(u, p, k, a, n);
    Collect(q, p, v, n, u);
    Distribute(t, u * k, q * n, p);
    NotNegative(w, p, v * n);
  }

  lemma Spread(u: int, p: int, k: int, a: int, n: int)
    requires n == p * k + a
    ensures u * n == (u * k) * p + u * a
  {
    assert u * (p * k) == (u * k) * p;
  }

  lemma Collect(q: int, p: int, v: int, n: int, u: int)
    requires u == q * p + v
    ensures u * n == (q * n) * p + v * n
  {
    assert (q * p) * n == (q * n) * p;
  }

  lemma Distribute(t: int, x: int, y: int, p: int)
    ensures (t + x - y) * p == t * p + x * p - y * p
  {
  }

  lemma NotNegative(w: int, p: nat, n: nat)
    requires n == 1 + w * p && p > 1
    ensures w >= 0
  {
  }

  lemma Rescaled(m: nat, v: nat, n: nat, w: nat, p: nat)
    requires v * n == 1 + w * p && p * m == 32767
    ensures (m * v) * n == m + w * 32767
  {
    assert (m * v) * n == m * (v * n);
    assert m * (1 + w * p) == m + w * (p * m);
  }

  /** A multiple of 7, of 31 and of 151 is a multiple of 32767. */
  lemma AllThree(n: nat)
    requires n % 7 == 0 && n % 31 == 0 && n % 151 == 0
    ensures n % 32767 == 0
  {
    var a, b, c := n / 151, n / 31, n / 7;
    var d := 23 * b - 112 * a;
    TwoOfThem(n, a, b);
    ThirdToo(n, c, d);
    MultipleOf(n, 3 * c - 2006 * d);
  }

  lemma TwoOfThem(n: int, a: int, b: int)
    requires n == 151 * a && n == 31 * b
    ensures n == 4681 * (23 * b - 112 * a)
  {
    assert 3473 * n == 107663 * b;
    assert 3472 * n == 524272 * a;
  }

  lemma ThirdToo(n: int, c: int, d: int)
    requires n == 7 * c && n == 4681 * d
    ensures n == 32767 * (3 * c - 2006 * d)
  {
    assert 14043 * n == 98301 * c;
    assert 14042 * n == 65730602 * d;
  }

  lemma MultipleOf(n: int, e: int)
    requires n == 32767 * e
    ensures n % 32767 == 0
  {
  }

  /** x^n is 1 modulo G exactly when n is a multiple of 32767. */
  lemma OrderOfX(n: nat)
    ensures Unit(n) <==> n % 32767 == 0
  {
    hide Unit;
    if n % 32767 == 0 {
      WholePeriod();
      UnitMultiple(n / 32767, 32767);
      assert n / 32767 * 32767 == n;
    }
    if Unit(n) && n % 32767 != 0 {
      Primes();
      NoSmallerPeriod();
      if n % 151 != 0 {
        PeriodWithout(n, 151, 217);
      } else if n % 31 != 0 {
        PeriodWithout(n, 31, 1057);
      } else if n % 7 != 0 {
        PeriodWithout(n, 7, 4681);
      } else {
        AllThree(n);
        assert false;
      }
    }
  }
}
