/** Bytes and register words, as bit vectors and as integers. */
module Words {
  lemma BitsAsByte(w: bv8)
    ensures (w as int) as bv8 == w
  {
  }

  lemma Increment(w: bv8)
    requires w != 0xFF
    ensures (w + 1) as int == w as int + 1
  {
  }

  lemma Largest(w: bv8)
    requires w as int < 255
    ensures w != 0xFF
  {
  }

  lemma {:induction false} BitsOf(b: nat) returns (w: bv8)
    requires b < 256
    ensures w as int == b
  {
    if b == 0 {
      w := 0;
    } else {
      w := BitsOf(b - 1);
      Largest(w);
      Increment(w);
      w := w + 1;
    }
  }

  lemma ByteAsBits(b: int)
    requires 0 <= b < 256
    ensures (b as bv8) as int == b
  {
    var w := BitsOf(b);
    BitsAsByte(w);
  }

  lemma WordAsInt(r: bv16)
    ensures (r as int) as bv16 == r
  {
  }

  lemma JoinedAsInt(r: bv16, lo: bv8, hi: bv8)
    requires lo as bv16 == r & 0xFF && hi as bv16 == r >> 8
    ensures r as int == (lo as int) + 256 * (hi as int)
  {
  }

  lemma SameWord(r: bv16, s: bv16)
    ensures r as int == s as int <==> r == s
  {
    WordAsInt(r);
    WordAsInt(s);
  }
}
