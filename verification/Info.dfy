/** The GET_INFO response: a fixed header and two length-prefixed identifiers. */
module Info {
  import opened Bytes
  import opened Modulation

  const MAX_MCU_UID_LEN := 32
  const MAX_RADIO_UID_LEN := 16

  datatype Info = Info(
    protoMajor: int, protoMinor: int, fwMajor: int, fwMinor: int, fwPatch: int, radioChipId: int,
    capabilityBitmap: int, supportedSfBitmap: int, supportedBwBitmap: int, maxPayloadBytes: int,
    rxQueueCapacity: int, txQueueCapacity: int, freqMinHz: int, freqMaxHz: int,
    txPowerMinDbm: int, txPowerMaxDbm: int, mcuUid: Octets, radioUid: Octets)
  {
    function Fields(): seq<int> {
      [protoMajor, protoMinor, fwMajor, fwMinor, fwPatch, radioChipId, capabilityBitmap,
       supportedSfBitmap, supportedBwBitmap, maxPayloadBytes, rxQueueCapacity, txQueueCapacity,
       freqMinHz, freqMaxHz, txPowerMinDbm, txPowerMaxDbm, |mcuUid|]
    }

    function Encode(): Option<Octets> {
      if |mcuUid| > MAX_MCU_UID_LEN || |radioUid| > MAX_RADIO_UID_LEN then None
      else match Pack(HEADER, Fields())
        case None => None
        case Some(head) => Some(head + mcuUid + [|radioUid|] + radioUid)
    }

    static function Decode(data: Octets): Option<Info> {
      if |data| < 37 then None
      else
        HeaderSize();
        var v := Unpack(HEADER, data);
        HeaderFits(v);
        var at := 36 + v[16];
        if v[16] > MAX_MCU_UID_LEN || |data| < at + 1 then None
        else if data[at] > MAX_RADIO_UID_LEN || |data| < at + 1 + data[at] then None
        else
          Some(Info(v[0], v[1], v[2], v[3], v[4], v[5], v[6], v[7], v[8], v[9], v[10], v[11], v[12], v[13],
                    v[14], v[15], data[36..at], data[at + 1..at + 1 + data[at]]))
    }
  }

  const TAIL: Format := [H, H, H, H, H, I, I, SB, SB, B]
  const HEADER: Format := [B, B, B, B, B, H, Q] + TAIL

  lemma HeaderSize()
    ensures Size(HEADER) == 36 && |HEADER| == 17
  {
    assert Size([B]) == 1;
    assert Size([SB, B]) == 2;
    assert Size([SB, SB, B]) == 3;
    assert Size([I, SB, SB, B]) == 7;
    assert Size([I, I, SB, SB, B]) == 11;
    assert Size([H, I, I, SB, SB, B]) == 13;
    assert Size([H, H, I, I, SB, SB, B]) == 15;
    assert Size([H, H, H, I, I, SB, SB, B]) == 17;
    assert Size([H, H, H, H, I, I, SB, SB, B]) == 19;
    assert TAIL[1..] == [H, H, H, H, I, I, SB, SB, B];
    FrontSize();
  }

  lemma {:induction false} FrontSize()
    ensures Size(HEADER) == 15 + Size(TAIL)
  {
    Append([Q], TAIL, 1);
    assert Size([Q]) == 8;
    assert Size([H, Q]) == 10;
    assert Size([B, H, Q]) == 11;
    assert Size([B, B, H, Q]) == 12;
    assert Size([B, B, B, H, Q]) == 13;
    assert Size([B, B, B, B, H, Q]) == 14;
    assert Size([B, B, B, B, B, H, Q]) == 15;
    Append([B, B, B, B, B, H, Q], TAIL, 7);
  }

  lemma {:induction false} Append(f: Format, g: Format, n: nat)
    requires n == |f|
    ensures Size(f + g) == Size(f) + Size(g)
    decreases n
  {
    if n == 0 {
      assert f + g == g;
    } else {
      assert (f + g)[1..] == f[1..] + g;
      Append(f[1..], g, n - 1);
    }
  }

  lemma HeaderFits(v: seq<int>)
    requires |v| == 17
    ensures AllFit(HEADER, v) <==>
            && (forall i :: 0 <= i < 5 ==> 0 <= v[i] < 0x100)
            && 0 <= v[5] < 0x1_0000 && 0 <= v[6] < 0x1_0000_0000_0000_0000
            && (forall i :: 7 <= i < 12 ==> 0 <= v[i] < 0x1_0000)
            && 0 <= v[12] < 0x1_0000_0000 && 0 <= v[13] < 0x1_0000_0000
            && -0x80 <= v[14] < 0x80 && -0x80 <= v[15] < 0x80 && 0 <= v[16] < 0x100
  {
    Widths();
    assert forall i :: 0 <= i < 5 ==> HEADER[i] == B;
    assert HEADER[5] == H && HEADER[6] == Q;
    assert forall i :: 7 <= i < 12 ==> HEADER[i] == H;
    assert HEADER[12] == HEADER[13] == I && HEADER[14] == HEADER[15] == SB && HEADER[16] == B;
  }

  /** Decoding ignores whatever follows an encoded value, and otherwise gives the value back. */
  lemma InfoRoundTrip(info: Info, tail: Octets)
    requires info.Encode().Some?
    ensures Info.Decode(info.Encode().value + tail) == Some(info)
  {
    hide Pack, Unpack;
    HeaderSize();
    var head := Pack(HEADER, info.Fields()).value;
    var mcu, radio := info.mcuUid, info.radioUid;
    var data := info.Encode().value + tail;
    assert data == head + (mcu + ([|radio|] + (radio + tail)));
    UnpackPack(HEADER, info.Fields(), mcu + ([|radio|] + (radio + tail)));
    var at := 36 + |mcu|;
    Slices(head, mcu, |radio|, radio, tail);
    assert data[36..at] == mcu && data[at] == |radio| && data[at + 1..at + 1 + |radio|] == radio;
  }

  lemma Slices(head: Octets, mcu: Octets, n: byte, radio: Octets, tail: Octets)
    requires n == |radio|
    ensures var data := head + (mcu + ([n] + (radio + tail)));
            var at := |head| + |mcu|;
            && data[|head|..at] == mcu && data[at] == n && data[at + 1..at + 1 + n] == radio
  {
  }

  /** What decoding accepted, re-encoded, is the front of the input: only trailing bytes are lost. */
  lemma InfoCanonical(data: Octets)
    requires Info.Decode(data).Some?
    ensures var e := Info.Decode(data).value.Encode();
            e.Some? && e.value <= data
  {
    hide Pack, Unpack;
    HeaderSize();
    var v := Unpack(HEADER, data);
    HeaderFits(v);
    var info := Info.Decode(data).value;
    var at := 36 + v[16];
    var end := at + 1 + data[at];
    assert info.Fields() == v;
    PackUnpack(HEADER, data);
    Reassemble(data, at, end);
    assert info.Encode() == Some(data[..end]);
  }

  lemma Reassemble(data: Octets, at: nat, end: nat)
    requires 36 <= at < end <= |data|
    ensures data[..36] + data[36..at] + [data[at]] + data[at + 1..end] == data[..end]
  {
  }

  /** The ranges of the capability fields of a decoded value. */
  lemma DecodedRanges(data: Octets)
    requires Info.Decode(data).Some?
    ensures var info := Info.Decode(data).value;
            && 0 <= info.supportedSfBitmap < 0x1_0000 && 0 <= info.supportedBwBitmap < 0x1_0000
            && 0 <= info.freqMinHz < 0x1_0000_0000 && 0 <= info.freqMaxHz < 0x1_0000_0000
            && -0x80 <= info.txPowerMinDbm < 0x80 && -0x80 <= info.txPowerMaxDbm < 0x80
  {
    HeaderSize();
    HeaderFits(Unpack(HEADER, data));
  }
}
