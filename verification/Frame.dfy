/** The wire frame: COBS(type, tag, payload, CRC) and a closing zero byte. */
module Frame {
  import opened Bytes
  import opened Crc
  import Cobs

  const MAX_OTA_PAYLOAD := 255
  const MAX_PAYLOAD_FIELD := MAX_OTA_PAYLOAD + 20
  const FRAME_HEADER_SIZE := 3
  const FRAME_TRAILER_SIZE := 2
  const MAX_PRE_COBS_FRAME := FRAME_HEADER_SIZE + MAX_PAYLOAD_FIELD + FRAME_TRAILER_SIZE
  const MAX_COBS_OVERHEAD := 3
  const MAX_WIRE_FRAME := MAX_PRE_COBS_FRAME + MAX_COBS_OVERHEAD + 1

  const HEADER: Format := [B, H]

  datatype Frame = Frame(typeId: int, tag: int, payload: Octets)

  datatype EncodeError = TypeOutOfRange | TagOutOfRange | TooLarge

  datatype FrameError = BadCobs | TooShort | BadCrc

  function Header(f: Frame): (h: Octets)
    requires 0 <= f.typeId <= 0xFF && 0 <= f.tag <= 0xFFFF
    ensures |h| == FRAME_HEADER_SIZE
  {
    assert AllFit(HEADER, [f.typeId, f.tag]) by { Widths(); }
    assert Size(HEADER) == 3 by { HeaderSize(); }
    Pack(HEADER, [f.typeId, f.tag]).value
  }

  lemma HeaderSize()
    ensures Size(HEADER) == FRAME_HEADER_SIZE
  {
    assert HEADER[1..] == [H];
    assert Size([H]) == 2;
  }

  function PreCobs(f: Frame): Octets
    requires 0 <= f.typeId <= 0xFF && 0 <= f.tag <= 0xFFFF
  {
    var body := Header(f) + f.payload;
    body + Le(Checksum(body), FRAME_TRAILER_SIZE)
  }

  function EncodeFrame(f: Frame): Result<Octets, EncodeError> {
    if !(0 <= f.typeId <= 0xFF) then Err(TypeOutOfRange)
    else if !(0 <= f.tag <= 0xFFFF) then Err(TagOutOfRange)
    else if |f.payload| > MAX_PAYLOAD_FIELD then Err(TooLarge)
    else Ok(Cobs.Encode(PreCobs(f)) + [0])
  }

  /** The checks and field extraction that follow COBS decoding. */
  function Parse(decoded: Octets): Result<Frame, FrameError> {
    if |decoded| < FRAME_HEADER_SIZE + FRAME_TRAILER_SIZE then Err(TooShort)
    else
      var body, trailer := Body(decoded), decoded[|decoded| - FRAME_TRAILER_SIZE..];
      if Checksum(body) != LeVal(trailer) then Err(BadCrc)
      else
        HeaderSize();
        var fields := Unpack(HEADER, body);
        Ok(Frame(fields[0], fields[1], body[FRAME_HEADER_SIZE..]))
  }

  function Body(decoded: Octets): Octets
    requires |decoded| >= FRAME_TRAILER_SIZE
  {
    decoded[..|decoded| - FRAME_TRAILER_SIZE]
  }

  /** `wire` excludes the closing zero. */
  function DecodeFrame(wire: Octets): Result<Frame, FrameError> {
    match Cobs.Decode(wire)
    case None => Err(BadCobs)
    case Some(decoded) => Parse(decoded)
  }

  predicate Sendable(f: Frame) {
    0 <= f.typeId <= 0xFF && 0 <= f.tag <= 0xFFFF && |f.payload| <= MAX_PAYLOAD_FIELD
  }

  lemma ParsePreCobs(f: Frame)
    requires 0 <= f.typeId <= 0xFF && 0 <= f.tag <= 0xFFFF
    ensures Parse(PreCobs(f)) == Ok(f)
  {
    var body := Header(f) + f.payload;
    var c := Checksum(body);
    var d := PreCobs(f);
    assert Body(d) == body && d[|d| - 2..] == Le(c, 2);
    Widths();
    LeRoundTrip(c, 2);
    HeaderSize();
    UnpackPack(HEADER, [f.typeId, f.tag], f.payload);
    assert body[3..] == f.payload;
  }

  /** Encoding succeeds exactly on sendable frames, those with a number of one byte, a tag of two and up to 275
      bytes of payload, and what it puts on the wire decodes to the frame. Of several errors the first is told. */
  lemma FrameRoundTrip(f: Frame)
    ensures EncodeFrame(f).Ok? <==> Sendable(f)
    ensures Sendable(f) <==> 0 <= f.typeId < 0x100 && 0 <= f.tag < 0x1_0000 && |f.payload| <= 275
    ensures EncodeFrame(f) == Err(TypeOutOfRange) <==> !(0 <= f.typeId < 0x100)
    ensures EncodeFrame(f) == Err(TagOutOfRange) <==> 0 <= f.typeId < 0x100 && !(0 <= f.tag < 0x1_0000)
    ensures Sendable(f) ==>
              var wire := EncodeFrame(f).value;
              && 1 < |wire| < MAX_WIRE_FRAME == 284
              && (forall i :: 0 <= i < |wire| ==> (wire[i] == 0 <==> i == |wire| - 1))
              && DecodeFrame(wire[..|wire| - 1]) == Ok(f)
  {
    if Sendable(f) {
      var d := PreCobs(f);
      var wire := EncodeFrame(f).value;
      Cobs.EncodeShape(d);
      Cobs.RoundTrip(d);
      ParsePreCobs(f);
      assert wire[..|wire| - 1] == Cobs.Encode(d);
    }
  }

  lemma ParsedIsPreCobs(d: Octets)
    requires Parse(d).Ok?
    ensures var f := Parse(d).value;
            && 0 <= f.typeId <= 0xFF && 0 <= f.tag <= 0xFFFF
            && |f.payload| + 5 == |d|
            && PreCobs(f) == d
  {
    HeaderSize();
    var body, trailer := Body(d), d[|d| - 2..];
    HeaderFields(body);
    LeValRoundTrip(trailer);
    assert d == body + trailer;
  }

  lemma HeaderFields(body: Octets)
    requires |body| >= 3 && Size(HEADER) <= |body|
    ensures var fields := Unpack(HEADER, body);
            && 0 <= fields[0] <= 0xFF && 0 <= fields[1] <= 0xFFFF
            && Header(Frame(fields[0], fields[1], body[3..])) + body[3..] == body
  {
    HeaderSize();
    Widths();
    PackUnpack(HEADER, body);
    var fields := Unpack(HEADER, body);
    assert HEADER[0].Fits(fields[0]) && HEADER[1].Fits(fields[1]);
    assert fields == [fields[0], fields[1]];
    assert body[..3] + body[3..] == body;
  }

  /** What a decoded frame came from: re-encoding it gives back the same wire bytes,
      unless they end in the empty block COBS allows after a full one. */
  lemma DecodedFrameReencodes(wire: Octets)
    requires DecodeFrame(wire).Ok?
    ensures var f := DecodeFrame(wire).value;
            && (Sendable(f) <==> |f.payload| <= MAX_PAYLOAD_FIELD)
            && (Sendable(f) ==> (EncodeFrame(f) == Ok(wire + [0]) <==> !Cobs.Padded(wire)))
  {
    var d := Cobs.Decode(wire).value;
    ParsedIsPreCobs(d);
    Cobs.Canonical(wire);
    var e := Cobs.Encode(d);
    if e + [0] == wire + [0] {
      assert (e + [0])[..|e|] == e && (wire + [0])[..|wire|] == wire;
      assert e == wire;
    }
  }

  /** All the wire bytes that decode to a frame that can be sent: those it is sent as, and the same with an empty
      block added when they end in a full one. */
  lemma DecodesToFrame(wire: Octets, f: Frame)
    requires Sendable(f)
    ensures DecodeFrame(wire) == Ok(f) <==>
              || EncodeFrame(f) == Ok(wire + [0])
              || (Cobs.EndsFull(PreCobs(f)) && wire == Cobs.Encode(PreCobs(f)) + [1])
  {
    hide Cobs.Encode, Cobs.Decode, Cobs.EndsFull, Parse, PreCobs;
    var d, e := PreCobs(f), Cobs.Encode(PreCobs(f));
    ParsePreCobs(f);
    PreCobsNotEmpty(f);
    Cobs.DecodesTo(wire, d);
    if e + [0] == wire + [0] { assert (e + [0])[..|e|] == e && (wire + [0])[..|wire|] == wire; }
    if DecodeFrame(wire) == Ok(f) { ParsedIsPreCobs(Cobs.Decode(wire).value); }
  }

  lemma PreCobsNotEmpty(f: Frame)
    requires 0 <= f.typeId <= 0xFF && 0 <= f.tag <= 0xFFFF
    ensures PreCobs(f) != []
  {
  }

  lemma HeaderBytes(f: Frame)
    requires 0 <= f.typeId <= 0xFF && 0 <= f.tag <= 0xFFFF
    ensures Header(f) == [f.typeId, f.tag % 0x100, f.tag / 0x100]
  {
    assert HEADER[1..] == [H] && [H][1..] == [];
    assert [f.typeId, f.tag][1..] == [f.tag] && [f.tag][1..] == [];
    Widths();
    assert Le(f.tag / 0x100, 1) == [f.tag / 0x100] + Le(0, 0);
    assert Le(f.tag, 2) == [f.tag % 0x100] + Le(f.tag / 0x100, 1);
    assert Le(f.typeId, 1) == [f.typeId] + Le(0, 0);
    assert Pack([], []) == Some([]);
    assert Pack([H], [f.tag]) == Some(Le(f.tag, 2) + []);
  }
}
