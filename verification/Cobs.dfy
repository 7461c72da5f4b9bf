/** Consistent Overhead Byte Stuffing (Cheshire and Baker, SIGCOMM 1997). */
module Cobs {
  import opened Bytes

  predicate ZeroFree(s: Octets) { forall i :: 0 <= i < |s| ==> s[i] != 0 }

  /** Length of the longest zero-free prefix. */
  function RunLength(s: Octets): (n: nat)
    ensures n <= |s| && ZeroFree(s[..n])
    ensures n < |s| ==> s[n] == 0
  {
    if s == [] || s[0] == 0 then 0
    else
      assert s[1..][..RunLength(s[1..])] == s[1..][..RunLength(s[1..])];
      1 + RunLength(s[1..])
  }

  /** A full 254-byte block carries no zero; the block that ends the data carries none either, and
      none is added after data that end with a full block. */
  function Encode(d: Octets): (w: Octets)
    decreases |d|
  {
    hide RunLength, ZeroFree;
    var n := RunLength(d);
    if n >= 254 then
      [0xFF] + d[..254] + (if |d| == 254 then [] else Encode(d[254..]))
    else if n == |d| then [n + 1] + d
    else [n + 1] + d[..n] + Encode(d[n + 1..])
  }

  /** `None` where the library raises `DecodeError`. */
  function Decode(w: Octets): (r: Option<Octets>)
    decreases |w|
  {
    if w == [] then Some([])
    else if w[0] == 0 || w[0] > |w| || !ZeroFree(w[1..w[0]]) then None
    else
      var block, rest := w[1..w[0]], w[w[0]..];
      if rest == [] then Some(block)
      else match Decode(rest)
        case None => None
        case Some(d) => Some(block + (if w[0] < 0xFF then [0] else []) + d)
  }

  lemma {:induction false} EncodeShape(d: Octets)
    ensures ZeroFree(Encode(d)) && Encode(d) != []
    ensures |Encode(d)| <= |d| + (if d == [] then 1 else (|d| + 253) / 254)
    decreases |d|
  {
    var n := RunLength(d);
    if n >= 254 {
      assert ZeroFree(d[..254]) by { assert d[..254] == d[..n][..254]; }
      if |d| > 254 { EncodeShape(d[254..]); }
    } else if n < |d| {
      EncodeShape(d[n + 1..]);
    } else {
      assert d[..n] == d;
    }
  }

  lemma DecodeBlock(c: byte, block: Octets, rest: Octets)
    requires 0 < c && |block| == c - 1 && ZeroFree(block)
    ensures Decode([c] + block + rest) ==
            if rest == [] then Some(block)
            else match Decode(rest)
              case None => None
              case Some(d) => Some(block + (if c < 0xFF then [0] else []) + d)
  {
    var w := [c] + block + rest;
    assert w[1..c] == block && w[c..] == rest;
  }

  lemma RunLengthIs(s: Octets, n: nat)
    requires n <= |s| && ZeroFree(s[..n]) && (n < |s| ==> s[n] == 0)
    ensures RunLength(s) == n
  {
    assert forall i :: 0 <= i < n ==> s[..n][i] == s[i];
    assert forall i :: 0 <= i < RunLength(s) ==> s[..RunLength(s)][i] == s[i];
  }

  /** The three ways a block is written. */
  lemma EncodeLast(block: Octets)
    requires |block| < 254 && ZeroFree(block)
    ensures Encode(block) == [|block| + 1] + block
  {
    assert block[..|block|] == block;
    RunLengthIs(block, |block|);
  }

  lemma EncodeShort(block: Octets, d: Octets)
    requires |block| < 254 && ZeroFree(block)
    ensures Encode(block + [0] + d) == [|block| + 1] + block + Encode(d)
  {
    var e := block + [0] + d;
    assert e[..|block|] == block && e[|block| + 1..] == d;
    RunLengthIs(e, |block|);
  }

  lemma EncodeFull(block: Octets, d: Octets)
    requires |block| == 254 && ZeroFree(block)
    ensures Encode(block + d) == [0xFF] + block + (if d == [] then [] else Encode(d))
  {
    var e := block + d;
    assert e[..254] == block && e[254..] == d;
    assert forall i :: 0 <= i < 254 ==> e[i] == block[i];
    assert RunLength(e) >= 254;
  }

  lemma {:induction false} RoundTrip(d: Octets)
    ensures Decode(Encode(d)) == Some(d)
    decreases |d|
  {
    var n := RunLength(d);
    if n >= 254 {
      var block, d' := d[..254], d[254..];
      assert d == block + d' && ZeroFree(block) by { assert block == d[..n][..254]; }
      EncodeFull(block, d');
      if d' == [] {
        DecodeBlock(0xFF, block, []);
        assert Encode(d) == [0xFF] + block + [];
        assert d == block;
      } else {
        RoundTrip(d');
        EncodeShape(d');
        DecodeBlock(0xFF, block, Encode(d'));
        assert d == block + [] + d';
      }
    } else if n == |d| {
      assert d[..n] == d;
      DecodeBlock(n + 1, d, []);
      assert Encode(d) == [n + 1] + d + [];
    } else {
      var block, d' := d[..n], d[n + 1..];
      assert d == block + [0] + d';
      RoundTrip(d');
      EncodeShape(d');
      EncodeShort(block, d');
      DecodeBlock(n + 1, block, Encode(d'));
    }
  }

  /** The one redundancy of the format: an empty block after a final full block. */
  predicate Padded(w: Octets)
    decreases |w|
  {
    w != [] && 0 < w[0] <= |w| &&
    ((w[0] == 0xFF && w[0xFF..] == [1]) || Padded(w[w[0]..]))
  }

  /** Every accepted string is the encoding of what it decodes to, except the empty string and the padded ones. */
  lemma {:induction false} Canonical(w: Octets)
    requires Decode(w).Some?
    ensures Encode(Decode(w).value) == w <==> w != [] && !Padded(w)
    decreases |w|
  {
    hide Decode, Encode;
    if w == [] {
      NoData();
    } else {
      Accepted(w);
      var c, block, rest := w[0], w[1..w[0]], w[w[0]..];
      assert w == [c] + block + rest;
      DecodeBlock(c, block, rest);
      if rest == [] {
        assert !Padded(w);
        if c < 0xFF { EncodeLast(block); } else { EncodeFull(block, []); assert block + [] == block; }
        assert [c] + block + [] == [c] + block;
      } else {
        Canonical(rest);
        var d := Decode(rest).value;
        if c < 0xFF {
          EncodeShort(block, d);
          Prefixed([c] + block, Encode(d), rest);
        } else {
          assert block + [] + d == block + d;
          EncodeFull(block, d);
          AfterFull([c] + block, d, rest);
        }
      }
    }
  }

  lemma NoData()
    ensures Decode([]) == Some([]) && Encode([]) == [1]
  {
  }

  lemma Accepted(w: Octets)
    requires Decode(w).Some? && w != []
    ensures 0 < w[0] <= |w| && ZeroFree(w[1..w[0]])
  {
  }

  lemma Prefixed(p: Octets, s: Octets, t: Octets)
    ensures p + s == p + t <==> s == t
  {
    assert (p + s)[|p|..] == s && (p + t)[|p|..] == t;
  }

  lemma AfterFull(p: Octets, d: Octets, rest: Octets)
    requires rest != [] && Decode(rest) == Some(d)
    requires Encode(d) == rest <==> !Padded(rest)
    ensures p + (if d == [] then [] else Encode(d)) == p + rest <==> rest != [1] && !Padded(rest)
  {
    assert RunLength([]) == 0 && Encode([]) == [1];
    Prefixed(p, if d == [] then [] else Encode(d), rest);
    if rest == [1] {
      DecodeBlock(1, [], []);
      assert rest == [1] + [] + [];
    }
  }

  /** `d` is written with a full block at the end. */
  predicate EndsFull(d: Octets)
    decreases |d|
  {
    hide ZeroFree;
    var n := RunLength(d);
    if n >= 254 then |d| == 254 || EndsFull(d[254..]) else n < |d| && EndsFull(d[n + 1..])
  }

  lemma EndsFullParts(block: Octets, d: Octets)
    requires ZeroFree(block)
    ensures |block| == 254 ==> (EndsFull(block + d) <==> d == [] || EndsFull(d))
    ensures |block| < 254 ==> (EndsFull(block + [0] + d) <==> EndsFull(d))
  {
    if |block| == 254 {
      var e := block + d;
      assert e[..254] == block && e[254..] == d;
      assert forall i :: 0 <= i < 254 ==> e[i] == block[i];
      assert RunLength(e) >= 254;
    } else if |block| < 254 {
      var e := block + [0] + d;
      assert e[..|block|] == block && e[|block| + 1..] == d;
      RunLengthIs(e, |block|);
    }
  }

  lemma {:induction false} PaddedIs(w: Octets)
    requires Decode(w).Some? && Padded(w)
    ensures var d := Decode(w).value; EndsFull(d) && w == Encode(d) + [1]
    decreases |w|
  {
    var c, block, rest := w[0], w[1..w[0]], w[w[0]..];
    assert w == [c] + block + rest;
    DecodeBlock(c, block, rest);
    if c == 0xFF && rest == [1] {
      DecodeBlock(1, [], []);
      assert [1] + [] + [] == [1];
      assert block + [] + [] == block + [] == block;
      EncodeFull(block, []);
      EndsFullParts(block, []);
    } else {
      PaddedIs(rest);
      var d := Decode(rest).value;
      if c < 0xFF { EncodeShort(block, d); } else { assert block + [] + d == block + d; EncodeFull(block, d); }
      EndsFullParts(block, d);
      Extended([c] + block, Encode(d));
    }
  }

  lemma Extended(p: Octets, e: Octets)
    ensures p + (e + [1]) == (p + e) + [1]
  {
  }

  /** The last full block, and the blocks before it. */
  lemma PaddedLast(block: Octets)
    requires |block| == 254 && ZeroFree(block)
    ensures Decode(Encode(block) + [1]) == Some(block)
  {
    EncodeFull(block, []);
    assert block + [] == block;
    DecodeBlock(0xFF, block, [1]);
    DecodeBlock(1, [], []);
    assert [1] + [] + [] == [1];
    assert block + [] + [] == block;
    assert Encode(block) + [1] == [0xFF] + block + [1];
  }

  lemma PaddedBefore(c: byte, block: Octets, d: Octets)
    requires 0 < c && |block| == c - 1 && ZeroFree(block) && d != [] && Decode(Encode(d) + [1]) == Some(d)
    ensures var all := block + (if c < 0xFF then [0] else []) + d;
            Decode(Encode(all) + [1]) == Some(all)
  {
    hide Decode, Encode;
    if c < 0xFF { EncodeShort(block, d); } else { assert block + [] + d == block + d; EncodeFull(block, d); }
    DecodeBlock(c, block, Encode(d) + [1]);
    Extended([c] + block, Encode(d));
  }

  lemma {:induction false} PaddedDecodes(d: Octets)
    requires EndsFull(d)
    ensures Decode(Encode(d) + [1]) == Some(d)
    decreases |d|
  {
    hide Decode, Encode;
    var n := RunLength(d);
    if n >= 254 {
      var block, rest := d[..254], d[254..];
      assert d == block + [] + rest && ZeroFree(block) by { assert block == d[..n][..254]; }
      if rest == [] {
        assert d == block;
        PaddedLast(block);
      } else {
        PaddedDecodes(rest);
        PaddedBefore(0xFF, block, rest);
      }
    } else {
      var block, rest := d[..n], d[n + 1..];
      assert d == block + [0] + rest;
      PaddedDecodes(rest);
      NotEmpty(rest);
      PaddedBefore(n + 1, block, rest);
    }
  }

  lemma NotEmpty(d: Octets)
    requires EndsFull(d)
    ensures d != []
  {
  }

  /** All the strings that decode to `d`: its encoding, the same with an empty block added when it ends in a full
      one, and the empty string when `d` is empty. */
  lemma DecodesTo(w: Octets, d: Octets)
    ensures Decode(w) == Some(d) <==>
              w == Encode(d) || (EndsFull(d) && w == Encode(d) + [1]) || (w == [] && d == [])
  {
    hide Encode, EndsFull, Padded;
    RoundTrip(d);
    if EndsFull(d) { PaddedDecodes(d); }
    if Decode(w) == Some(d) {
      Canonical(w);
      if Padded(w) { PaddedIs(w); }
    }
  }
}
