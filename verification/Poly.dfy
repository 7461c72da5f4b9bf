/** Polynomials over GF(2), as finite sets of exponents, and congruence modulo the CRC generator. */
module Poly {
  type Poly = set<nat>

  function Add(p: Poly, q: Poly): Poly { (p - q) + (q - p) }

  /** x^k * p */
  function Times(p: Poly, k: nat): Poly { set e | e in p :: e + k }

  /** x^16 + x^12 + x^5 + 1 */
  const G: Poly := {16, 12, 5, 0}

  function Coefficient(c: bool): Poly { if c then G else {} }

  /** The product q(x) * G(x), by Horner's rule on the coefficients of q, highest power first. */
  function Multiple(q: seq<bool>): Poly {
    if q == [] then {}
    else Add(Times(Multiple(q[..|q| - 1]), 1), Coefficient(q[|q| - 1]))
  }

  ghost predicate IsMultiple(p: Poly) { exists q :: p == Multiple(q) }

  ghost predicate Congruent(p: Poly, q: Poly) { IsMultiple(Add(p, q)) }

  predicate DegreeBelow(p: Poly, n: nat) { forall e :: e in p ==> e < n }

  lemma TimesIn(p: Poly, k: nat, e: nat)
    ensures e in Times(p, k) <==> e >= k && e - k in p
  {
    if e >= k && e - k in p { assert (e - k) + k in Times(p, k); }
  }

  lemma TimesAdd(p: Poly, q: Poly, k: nat)
    ensures Times(Add(p, q), k) == Add(Times(p, k), Times(q, k))
  {
    forall e: nat
      ensures e in Times(Add(p, q), k) <==> e in Add(Times(p, k), Times(q, k))
    {
      TimesIn(Add(p, q), k, e);
      TimesIn(p, k, e);
      TimesIn(q, k, e);
    }
  }

  lemma TimesTimes(p: Poly, j: nat, k: nat)
    ensures Times(Times(p, j), k) == Times(p, j + k)
  {
    forall e: nat
      ensures e in Times(Times(p, j), k) <==> e in Times(p, j + k)
    {
      TimesIn(Times(p, j), k, e);
      if e >= k { TimesIn(p, j, e - k); }
      TimesIn(p, j + k, e);
    }
  }

  lemma TimesZero(p: Poly)
    ensures Times(p, 0) == p
  {
    forall e: nat ensures e in Times(p, 0) <==> e in p { TimesIn(p, 0, e); }
  }

  lemma AddAssoc(p: Poly, q: Poly, r: Poly)
    ensures Add(Add(p, q), r) == Add(p, Add(q, r))
    ensures Add(p, q) == Add(q, p)
    ensures Add(p, p) == {} && Add(p, {}) == p
  {
  }

  lemma SumStep(p: Poly, q: Poly, c: bool, d: bool)
    ensures Add(Add(Times(p, 1), Coefficient(c)), Add(Times(q, 1), Coefficient(d)))
         == Add(Times(Add(p, q), 1), Coefficient(c != d))
  {
    hide Times;
    TimesAdd(p, q, 1);
  }

  lemma {:induction false} SumOfMultiples(a: seq<bool>, b: seq<bool>)
    ensures IsMultiple(Add(Multiple(a), Multiple(b)))
    decreases |a|
  {
    if a == [] {
      assert Add(Multiple(a), Multiple(b)) == Multiple(b);
    } else if b == [] {
      assert Add(Multiple(a), Multiple(b)) == Multiple(a);
    } else {
      var a', b' := a[..|a| - 1], b[..|b| - 1];
      SumOfMultiples(a', b');
      var c' :| Add(Multiple(a'), Multiple(b')) == Multiple(c');
      var c := c' + [a[|a| - 1] != b[|b| - 1]];
      assert c[..|c| - 1] == c';
      SumStep(Multiple(a'), Multiple(b'), a[|a| - 1], b[|b| - 1]);
      assert Add(Multiple(a), Multiple(b)) == Multiple(c) by { hide Add, Times, Coefficient; }
    }
  }

  lemma TimesMultiple(p: Poly)
    requires IsMultiple(p)
    ensures IsMultiple(Times(p, 1))
  {
    var q :| p == Multiple(q);
    assert (q + [false])[..|q|] == q;
    assert Times(p, 1) == Multiple(q + [false]);
  }

  lemma CongruentReflexive(p: Poly)
    ensures Congruent(p, p)
  {
    assert Add(p, p) == Multiple([]);
  }

  lemma CongruentTransitive(p: Poly, q: Poly, r: Poly)
    requires Congruent(p, q) && Congruent(q, r)
    ensures Congruent(p, r)
  {
    var a :| Add(p, q) == Multiple(a);
    var b :| Add(q, r) == Multiple(b);
    SumOfMultiples(a, b);
    assert Add(Add(p, q), Add(q, r)) == Add(p, r);
  }

  lemma CongruentAdd(p: Poly, q: Poly, r: Poly)
    requires Congruent(p, q)
    ensures Congruent(Add(p, r), Add(q, r))
  {
    assert Add(Add(p, r), Add(q, r)) == Add(p, q);
  }

  lemma {:induction false} CongruentTimes(p: Poly, q: Poly, k: nat)
    requires Congruent(p, q)
    ensures Congruent(Times(p, k), Times(q, k))
  {
    if k == 0 {
      TimesZero(p);
      TimesZero(q);
    } else {
      CongruentTimes(p, q, k - 1);
      TimesMultiple(Add(Times(p, k - 1), Times(q, k - 1)));
      TimesAdd(Times(p, k - 1), Times(q, k - 1), 1);
      TimesTimes(p, k - 1, 1);
      TimesTimes(q, k - 1, 1);
    }
  }

  /** G has a constant term, so x is invertible modulo G. */
  lemma {:induction false} CancelTimes(p: Poly, k: nat)
    requires IsMultiple(Times(p, k))
    ensures IsMultiple(p)
  {
    if k == 0 {
      TimesZero(p);
    } else {
      TimesTimes(p, k - 1, 1);
      var p' := Times(p, k - 1);
      var q :| Times(p', 1) == Multiple(q);
      TimesIn(p', 1, 0);
      if q == [] {
        assert p' == {} by { forall e: nat ensures e !in p' { TimesIn(p', 1, e + 1); } }
        assert p' == Multiple([]);
      } else {
        var q' := q[..|q| - 1];
        TimesIn(Multiple(q'), 1, 0);
        assert !q[|q| - 1];
        assert Multiple(q) == Times(Multiple(q'), 1);
        forall e: nat ensures e in p' <==> e in Multiple(q') {
          TimesIn(p', 1, e + 1);
          TimesIn(Multiple(q'), 1, e + 1);
        }
        assert p' == Multiple(q');
      }
      CancelTimes(p, k - 1);
    }
  }

  lemma {:induction false} NonzeroMultipleIsLong(q: seq<bool>) returns (e: nat)
    requires Multiple(q) != {}
    ensures e in Multiple(q) && e >= 16
  {
    var m := Multiple(q[..|q| - 1]);
    if m == {} {
      assert Times(m, 1) == {};
      e := 16;
    } else {
      e := NonzeroMultipleIsLong(q[..|q| - 1]);
      TimesIn(m, 1, e + 1);
      e := e + 1;
    }
  }

  /** Remainders modulo G are unique. */
  lemma RemainderUnique(p: Poly, q: Poly)
    requires DegreeBelow(p, 16) && DegreeBelow(q, 16) && Congruent(p, q)
    ensures p == q
  {
    var m :| Add(p, q) == Multiple(m);
    if Multiple(m) != {} {
      var e := NonzeroMultipleIsLong(m);
    }
    assert Add(p, q) == {};
    forall e ensures e in p <==> e in q { assert e !in Add(p, q); }
  }
}
