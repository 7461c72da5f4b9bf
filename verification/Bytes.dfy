/** Bytes, little-endian integers, and the fixed-layout records of Python's `struct` module. */
module Bytes {
  type byte = x: int | 0 <= x < 256
  type Octets = seq<byte>

  datatype Option<+T> = None | Some(value: T)

  datatype Result<+T, +E> = Ok(value: T) | Err(error: E)

  /** The number of values an unsigned field of `width` bytes can hold. */
  function Pow256(width: nat): (p: nat)
    ensures p > 0
  {
    if width == 0 then 1 else 256 * Pow256(width - 1)
  }

  lemma Widths()
    ensures Pow256(1) == 0x100 && Pow256(2) == 0x1_0000 && Pow256(4) == 0x1_0000_0000
    ensures Pow256(8) == 0x1_0000_0000_0000_0000
  {
  }

  /** Little-endian bytes of the low `width` bytes of `n`. */
  function Le(n: nat, width: nat): (s: Octets)
    ensures |s| == width
    decreases width
  {
    if width == 0 then [] else [n % 256] + Le(n / 256, width - 1)
  }

  function LeVal(s: Octets): (n: nat)
    ensures n < Pow256(|s|)
  {
    if s == [] then 0 else s[0] + 256 * LeVal(s[1..])
  }

  lemma {:induction false} LeRoundTrip(n: nat, width: nat)
    requires n < Pow256(width)
    ensures LeVal(Le(n, width)) == n
    decreases width
  {
    if width > 0 {
      LeRoundTrip(n / 256, width - 1);
      assert Le(n, width)[1..] == Le(n / 256, width - 1);
    }
  }

  lemma {:induction false} LeValRoundTrip(s: Octets)
    ensures Le(LeVal(s), |s|) == s
  {
    if s != [] {
      LeValRoundTrip(s[1..]);
      assert LeVal(s) / 256 == LeVal(s[1..]) && LeVal(s) % 256 == s[0];
      assert s == [s[0]] + s[1..];
    }
  }

  /** One integer of a `struct` format: its byte width and whether it is signed. */
  datatype Field = U(width: nat) | S(width: nat) {
    predicate Fits(v: int) {
      match this
      case U(w) => 0 <= v < Pow256(w)
      case S(w) => 0 <= 2 * v + Pow256(w) && 2 * v < Pow256(w)
    }

    /** Two's complement for signed fields. */
    function Raw(v: int): (n: nat)
      requires Fits(v)
      ensures n < Pow256(width)
    {
      if v < 0 then v + Pow256(width) else v
    }

    function Value(n: nat): (v: int)
      requires n < Pow256(width)
      ensures Fits(v) && Raw(v) == n
    {
      if S? && 2 * n >= Pow256(width) then n - Pow256(width) else n
    }
  }

  const B := U(1)
  const H := U(2)
  const I := U(4)
  const Q := U(8)
  const SB := S(1)
  const SH := S(2)
  const SI := S(4)

  type Format = seq<Field>

  function Size(fmt: Format): nat {
    if fmt == [] then 0 else fmt[0].width + Size(fmt[1..])
  }

  predicate AllFit(fmt: Format, vals: seq<int>) {
    |vals| == |fmt| && forall i :: 0 <= i < |fmt| ==> fmt[i].Fits(vals[i])
  }

  /** `struct.pack`; `None` where Python raises because a value does not fit its field. */
  function Pack(fmt: Format, vals: seq<int>): (r: Option<Octets>)
    requires |vals| == |fmt|
    ensures r.Some? <==> AllFit(fmt, vals)
    ensures r.Some? ==> |r.value| == Size(fmt)
  {
    if fmt == [] then Some([])
    else if !fmt[0].Fits(vals[0]) then None
    else match Pack(fmt[1..], vals[1..])
      case None => None
      case Some(rest) => Some(Le(fmt[0].Raw(vals[0]), fmt[0].width) + rest)
  }

  /** `struct.unpack_from(fmt, data, 0)`. */
  function Unpack(fmt: Format, data: Octets): (vals: seq<int>)
    requires Size(fmt) <= |data|
    ensures AllFit(fmt, vals)
    decreases |fmt|
  {
    if fmt == [] then []
    else
      var w := fmt[0].width;
      [fmt[0].Value(LeVal(data[..w]))] + Unpack(fmt[1..], data[w..])
  }

  lemma ValueRaw(f: Field, v: int)
    requires f.Fits(v)
    ensures f.Value(f.Raw(v)) == v
  {
  }

  lemma {:induction false} UnpackPack(fmt: Format, vals: seq<int>, tail: Octets)
    requires |vals| == |fmt| && Pack(fmt, vals).Some?
    ensures Unpack(fmt, Pack(fmt, vals).value + tail) == vals
    decreases |fmt|
  {
    if fmt != [] {
      var w := fmt[0].width;
      var head := Le(fmt[0].Raw(vals[0]), w);
      var rest := Pack(fmt[1..], vals[1..]).value;
      var data := Pack(fmt, vals).value + tail;
      assert data[..w] == head && data[w..] == rest + tail by {
        assert data == head + (rest + tail);
      }
      LeRoundTrip(fmt[0].Raw(vals[0]), w);
      ValueRaw(fmt[0], vals[0]);
      UnpackPack(fmt[1..], vals[1..], tail);
      assert vals == [vals[0]] + vals[1..];
    }
  }

  lemma {:induction false} PackUnpack(fmt: Format, data: Octets)
    requires Size(fmt) <= |data|
    ensures Pack(fmt, Unpack(fmt, data)) == Some(data[..Size(fmt)])
    decreases |fmt|
  {
    if fmt != [] {
      var w := fmt[0].width;
      var vals := Unpack(fmt, data);
      LeValRoundTrip(data[..w]);
      PackUnpack(fmt[1..], data[w..]);
      assert vals[1..] == Unpack(fmt[1..], data[w..]);
      assert data[..Size(fmt)] == data[..w] + data[w..][..Size(fmt[1..])];
    }
  }
}
