/** Where each field stands in a payload, byte by byte. */
module Layouts {
  import opened Bytes
  import opened Modulation
  import opened Events
  import Info
  import Frame
  import Cobs
  import Crc

  // ----- little-endian integers at a position

  function U16(data: Octets, at: nat): nat
    requires at + 2 <= |data|
  {
    data[at] as int + 0x100 * (data[at + 1] as int)
  }

  function U32(data: Octets, at: nat): nat
    requires at + 4 <= |data|
  {
    U16(data, at) + 0x1_0000 * U16(data, at + 2)
  }

  function U64(data: Octets, at: nat): nat
    requires at + 8 <= |data|
  {
    U32(data, at) + 0x1_0000_0000 * U32(data, at + 4)
  }

  /** Two's complement of a field with `range` values. */
  function Signed(n: nat, range: nat): int { if 2 * n < range then n else n - range }

  function S8(data: Octets, at: nat): int
    requires at < |data|
  {
    Signed(data[at], 0x100)
  }

  function S16(data: Octets, at: nat): int
    requires at + 2 <= |data|
  {
    Signed(U16(data, at), 0x1_0000)
  }

  function S32(data: Octets, at: nat): int
    requires at + 4 <= |data|
  {
    Signed(U32(data, at), 0x1_0000_0000)
  }

  lemma Le1(s: Octets)
    requires |s| == 1
    ensures LeVal(s) == s[0]
  {
    assert s[1..] == [];
  }

  lemma Le2(s: Octets)
    requires |s| == 2
    ensures LeVal(s) == U16(s, 0)
  {
    Le1(s[1..]);
  }

  lemma Le4(s: Octets)
    requires |s| == 4
    ensures LeVal(s) == U32(s, 0)
  {
    Le2(s[2..]);
    assert s[1..][1..] == s[2..];
  }

  lemma Le8(s: Octets)
    requires |s| == 8
    ensures LeVal(s) == U64(s, 0)
  {
    Le4(s[4..]);
    assert s[1..][1..] == s[2..] && s[2..][1..] == s[3..] && s[3..][1..] == s[4..];
    assert LeVal(s) == s[0] + 0x100 * LeVal(s[1..]);
    assert LeVal(s[1..]) == s[1] + 0x100 * LeVal(s[2..]);
    assert LeVal(s[2..]) == s[2] + 0x100 * LeVal(s[3..]);
    assert LeVal(s[3..]) == s[3] + 0x100 * LeVal(s[4..]);
  }

  // ----- the fields of a format

  function Offset(fmt: Format, n: nat): nat
    requires n <= |fmt|
  {
    if n == 0 then 0 else Offset(fmt, n - 1) + fmt[n - 1].width
  }

  lemma {:induction false} OffsetShift(fmt: Format, n: nat)
    requires 0 < n <= |fmt|
    ensures Offset(fmt, n) == fmt[0].width + Offset(fmt[1..], n - 1)
    decreases n
  {
    if n > 1 { OffsetShift(fmt, n - 1); }
  }

  lemma UnpackLater(fmt: Format, data: Octets, i: nat)
    requires Size(fmt) <= |data| && 0 < i < |fmt|
    ensures fmt[0].width + Size(fmt[1..]) == Size(fmt)
    ensures Unpack(fmt, data)[i] == Unpack(fmt[1..], data[fmt[0].width..])[i - 1]
  {
    hide LeVal, Field.Value, Field.Fits;
  }

  lemma UnpackFirst(fmt: Format, data: Octets)
    requires Size(fmt) <= |data| && fmt != []
    ensures fmt[0].width <= |data| && Unpack(fmt, data)[0] == fmt[0].Value(LeVal(data[..fmt[0].width]))
  {
    hide LeVal, Field.Value, Field.Fits;
  }

  lemma {:induction false} UnpackAt(fmt: Format, data: Octets, i: nat)
    requires Size(fmt) <= |data| && i < |fmt|
    ensures Offset(fmt, i) + fmt[i].width <= |data|
    ensures var at := Offset(fmt, i);
            Unpack(fmt, data)[i] == fmt[i].Value(LeVal(data[at..at + fmt[i].width]))
    decreases i
  {
    hide Unpack, Size, LeVal, Field.Value, Field.Fits;
    if i == 0 {
      assert Offset(fmt, 0) == 0;
      UnpackFirst(fmt, data);
    } else {
      var w := fmt[0].width;
      OffsetShift(fmt, i);
      UnpackLater(fmt, data, i);
      UnpackAt(fmt[1..], data[w..], i - 1);
      var at := Offset(fmt[1..], i - 1);
      assert data[w..][at..at + fmt[i].width] == data[w + at..w + at + fmt[i].width];
    }
  }

  lemma SmallValue(f: Field, s: Octets)
    requires f.width == |s| == 1 || f.width == |s| == 2
    ensures f == B ==> f.Value(LeVal(s)) == s[0]
    ensures f == SB ==> f.Value(LeVal(s)) == S8(s, 0)
    ensures f == H ==> f.Value(LeVal(s)) == U16(s, 0)
    ensures f == SH ==> f.Value(LeVal(s)) == S16(s, 0)
  {
    hide LeVal;
    Widths();
    if |s| == 1 { Le1(s); } else { Le2(s); }
  }

  lemma WideValue(f: Field, s: Octets)
    requires f.width == |s| == 4 || f.width == |s| == 8
    ensures f == I ==> f.Value(LeVal(s)) == U32(s, 0)
    ensures f == SI ==> f.Value(LeVal(s)) == S32(s, 0)
    ensures f == Q ==> f.Value(LeVal(s)) == U64(s, 0)
  {
    hide LeVal, U32, U64;
    Widths();
    if |s| == 4 { Le4(s); } else { Le8(s); }
  }

  lemma SliceValues(data: Octets, at: nat, w: nat)
    requires at + w <= |data|
    ensures var s := data[at..at + w];
            && (w == 1 ==> s[0] == data[at] && S8(s, 0) == S8(data, at))
            && (w == 2 ==> U16(s, 0) == U16(data, at) && S16(s, 0) == S16(data, at))
            && (w == 4 ==> U32(s, 0) == U32(data, at) && S32(s, 0) == S32(data, at))
            && (w == 8 ==> U64(s, 0) == U64(data, at))
  {
  }

  /** A field of a known kind at a known place. */
  lemma FieldAt(fmt: Format, data: Octets, i: nat, at: nat)
    requires Size(fmt) <= |data| && i < |fmt| && Offset(fmt, i) == at
    ensures at + fmt[i].width <= |data|
    ensures var v := Unpack(fmt, data)[i];
            && (fmt[i] == B ==> v == data[at]) && (fmt[i] == H ==> v == U16(data, at))
            && (fmt[i] == I ==> v == U32(data, at)) && (fmt[i] == Q ==> v == U64(data, at))
            && (fmt[i] == SB ==> v == S8(data, at)) && (fmt[i] == SH ==> v == S16(data, at))
            && (fmt[i] == SI ==> v == S32(data, at))
  {
    hide Unpack, LeVal, Field.Value, Offset, Size, U16, U32, U64, S8, S16, S32;
    UnpackAt(fmt, data, i);
    var s := data[at..at + fmt[i].width];
    SliceValues(data, at, fmt[i].width);
    if |s| == 1 || |s| == 2 { SmallValue(fmt[i], s); }
    if |s| == 4 || |s| == 8 { WideValue(fmt[i], s); }
  }

  // ----- LoRa

  lemma LoRaOffsets()
    ensures Offset(LORA, 0) == 0 && Offset(LORA, 1) == 4 && Offset(LORA, 2) == 5 && Offset(LORA, 3) == 6
    ensures Offset(LORA, 4) == 7 && Offset(LORA, 5) == 9 && Offset(LORA, 6) == 11 && Offset(LORA, 7) == 12
    ensures Offset(LORA, 8) == 13 && Offset(LORA, 9) == 14
  {
    assert Offset(LORA, 1) == Offset(LORA, 0) + LORA[0].width;
    assert Offset(LORA, 3) == 6;
    assert Offset(LORA, 5) == 9;
    assert Offset(LORA, 7) == 12;
  }

  lemma LoRaValues(data: Octets)
    requires |data| == 15 && Size(LORA) == 15
    ensures Unpack(LORA, data) ==
              [U32(data, 0), data[4], data[5], data[6], U16(data, 7), U16(data, 9), S8(data, 11), data[12],
               data[13], data[14]]
  {
    hide Unpack, Offset, Size, U16, U32, U64, S8, S16, S32;
    LoRaOffsets();
    FieldAt(LORA, data, 0, 0);
    FieldAt(LORA, data, 1, 4);
    FieldAt(LORA, data, 2, 5);
    FieldAt(LORA, data, 3, 6);
    FieldAt(LORA, data, 4, 7);
    FieldAt(LORA, data, 5, 9);
    FieldAt(LORA, data, 6, 11);
    FieldAt(LORA, data, 7, 12);
    FieldAt(LORA, data, 8, 13);
    FieldAt(LORA, data, 9, 14);
  }

  /** The 15 bytes of a LoRa configuration. */
  lemma LoRaLayout(data: Octets, c: LoRaConfig)
    ensures LoRaConfig.Decode(data) ==
              if |data| == 15 && data[5] <= 13 && data[6] <= 3 && data[12] <= 1 && data[13] <= 1 && data[14] <= 1 then
                Some(LoRaConfig(U32(data, 0), data[4], data[5], data[6], U16(data, 7), U16(data, 9), S8(data, 11),
                                data[12], data[13] == 1, data[14] == 1))
              else None
    ensures c.Encode() == Some(data) <==> LoRaConfig.Decode(data) == Some(c)
  {
    hide Unpack, Pack, S8, U16, U32;
    LoRaSize();
    if |data| == 15 { LoRaValues(data); }
    LoRaDecodeEncode(c);
    if LoRaConfig.Decode(data) == Some(c) { LoRaEncodeDecode(data); }
  }

  // ----- FSK

  lemma FskOffsets()
    ensures Offset(FSK, 0) == 0 && Offset(FSK, 1) == 4 && Offset(FSK, 2) == 8 && Offset(FSK, 3) == 12
    ensures Offset(FSK, 4) == 13 && Offset(FSK, 5) == 15
  {
    assert Offset(FSK, 1) == 4;
    assert Offset(FSK, 3) == 12;
    assert Offset(FSK, 5) == 15;
  }

  lemma FskValues(data: Octets)
    requires |data| >= 16 && Size(FSK) == 16
    ensures Unpack(FSK, data) ==
              [U32(data, 0), U32(data, 4), U32(data, 8), data[12], U16(data, 13), data[15]]
  {
    hide Unpack, Offset, Size, U16, U32, U64, S8, S16, S32;
    FskOffsets();
    FieldAt(FSK, data, 0, 0);
    FieldAt(FSK, data, 1, 4);
    FieldAt(FSK, data, 2, 8);
    FieldAt(FSK, data, 3, 12);
    FieldAt(FSK, data, 4, 13);
    FieldAt(FSK, data, 5, 15);
  }

  /** The 16 bytes of an FSK configuration and its sync word. */
  lemma FskLayout(data: Octets, c: FskConfig)
    ensures FskConfig.Decode(data) ==
              if |data| >= 16 && data[15] <= 8 && |data| == 16 + data[15] then
                Some(FskConfig(U32(data, 0), U32(data, 4), U32(data, 8), data[12], U16(data, 13), data[16..]))
              else None
    ensures c.Encode() == Some(data) <==> FskConfig.Decode(data) == Some(c)
  {
    hide Unpack, Pack, U16, U32;
    FskSize();
    if |data| >= 16 { FskValues(data); }
    FskDecodeEncode(c);
    if FskConfig.Decode(data) == Some(c) { FskEncodeDecode(data); }
  }

  // ----- LR-FHSS

  lemma LrFhssOffsets()
    ensures Offset(LR_FHSS, 0) == 0 && Offset(LR_FHSS, 1) == 4 && Offset(LR_FHSS, 2) == 5 && Offset(LR_FHSS, 3) == 6
    ensures Offset(LR_FHSS, 4) == 7 && Offset(LR_FHSS, 5) == 8 && Offset(LR_FHSS, 6) == 9
  {
    assert Offset(LR_FHSS, 1) == 4;
    assert Offset(LR_FHSS, 3) == 6;
    assert Offset(LR_FHSS, 5) == 8;
  }

  lemma LrFhssValues(data: Octets)
    requires |data| == 10 && Size(LR_FHSS) == 10
    ensures Unpack(LR_FHSS, data) ==
              [U32(data, 0), data[4], data[5], data[6], data[7], S8(data, 8), data[9]]
  {
    hide Unpack, Offset, Size, U16, U32, U64, S8, S16, S32;
    LrFhssOffsets();
    FieldAt(LR_FHSS, data, 0, 0);
    FieldAt(LR_FHSS, data, 1, 4);
    FieldAt(LR_FHSS, data, 2, 5);
    FieldAt(LR_FHSS, data, 3, 6);
    FieldAt(LR_FHSS, data, 4, 7);
    FieldAt(LR_FHSS, data, 5, 8);
    FieldAt(LR_FHSS, data, 6, 9);
  }

  /** The 10 bytes of an LR-FHSS configuration; the last is reserved. */
  lemma LrFhssLayout(data: Octets, c: LrFhssConfig)
    ensures LrFhssConfig.Decode(data) ==
              if |data| == 10 && data[4] <= 7 && data[5] <= 3 && data[6] <= 1 && data[7] <= 1 && data[9] == 0 then
                Some(LrFhssConfig(U32(data, 0), data[4], data[5], data[6], data[7] == 1, S8(data, 8)))
              else None
    ensures c.Encode() == Some(data) <==> LrFhssConfig.Decode(data) == Some(c)
  {
    hide Unpack, Pack, S8, U32;
    LrFhssSize();
    if |data| == 10 { LrFhssValues(data); }
    LrFhssDecodeEncode(c);
    if LrFhssConfig.Decode(data) == Some(c) { LrFhssEncodeDecode(data); }
  }

  // ----- FLRC

  lemma FlrcOffsets()
    ensures Offset(FLRC, 0) == 0 && Offset(FLRC, 1) == 4 && Offset(FLRC, 2) == 5 && Offset(FLRC, 3) == 6
    ensures Offset(FLRC, 4) == 7 && Offset(FLRC, 5) == 8 && Offset(FLRC, 6) == 12
  {
    assert Offset(FLRC, 1) == 4;
    assert Offset(FLRC, 3) == 6;
    assert Offset(FLRC, 5) == 8;
  }

  lemma FlrcValues(data: Octets)
    requires |data| == 13 && Size(FLRC) == 13
    ensures Unpack(FLRC, data) ==
              [U32(data, 0), data[4], data[5], data[6], data[7], U32(data, 8), S8(data, 12)]
  {
    hide Unpack, Offset, Size, U16, U32, U64, S8, S16, S32;
    FlrcOffsets();
    FieldAt(FLRC, data, 0, 0);
    FieldAt(FLRC, data, 1, 4);
    FieldAt(FLRC, data, 2, 5);
    FieldAt(FLRC, data, 3, 6);
    FieldAt(FLRC, data, 4, 7);
    FieldAt(FLRC, data, 5, 8);
    FieldAt(FLRC, data, 6, 12);
  }

  /** The 13 bytes of an FLRC configuration. */
  lemma FlrcLayout(data: Octets, c: FlrcConfig)
    ensures FlrcConfig.Decode(data) ==
              if |data| == 13 && data[4] <= 7 && data[5] <= 2 && data[6] <= 2 && data[7] <= 6 then
                Some(FlrcConfig(U32(data, 0), data[4], data[5], data[6], data[7], U32(data, 8), S8(data, 12)))
              else None
    ensures c.Encode() == Some(data) <==> FlrcConfig.Decode(data) == Some(c)
  {
    hide Unpack, Pack, S8, U32;
    FlrcSize();
    if |data| == 13 { FlrcValues(data); }
    FlrcDecodeEncode(c);
    if FlrcConfig.Decode(data) == Some(c) { FlrcEncodeDecode(data); }
  }

  // ----- the tagged union

  /** The first byte says which modulation it is: 1 is LoRa, 2 FSK, 3 LR-FHSS, 4 FLRC; nothing else is accepted. */
  lemma ModulationLayout(data: Octets, m: Modulation)
    ensures EncodeModulation(m) == Some(data) <==> DecodeModulation(data) == Some(m)
    ensures DecodeModulation(data) == Some(m) <==>
              && data != []
              && match m
                 case LoRa(c) => data[0] == 1 && LoRaConfig.Decode(data[1..]) == Some(c)
                 case Fsk(c) => data[0] == 2 && FskConfig.Decode(data[1..]) == Some(c)
                 case LrFhss(c) => data[0] == 3 && LrFhssConfig.Decode(data[1..]) == Some(c)
                 case Flrc(c) => data[0] == 4 && FlrcConfig.Decode(data[1..]) == Some(c)
  {
    hide LoRaConfig.Decode, FskConfig.Decode, LrFhssConfig.Decode, FlrcConfig.Decode;
    if EncodeModulation(m) == Some(data) { ModulationRoundTrip(m); }
    if DecodeModulation(data) == Some(m) { ModulationCanonical(data); }
  }

  // ----- device-to-host payloads

  lemma SetConfigResultLayout(data: Octets, r: SetConfigResult)
    ensures r.Encode() == Some(data) <==> SetConfigResult.Decode(data) == Some(r)
    ensures SetConfigResult.Decode(data) == Some(r) <==>
              && |data| >= 2 && r.result == data[0] && r.owner == data[1]
              && DecodeModulation(data[2..]) == Some(r.current)
  {
    hide DecodeModulation, EncodeModulation;
    if r.Encode() == Some(data) { SetConfigResultRoundTrip(r); }
    if SetConfigResult.Decode(data) == Some(r) { SetConfigResultCanonical(data); }
  }

  lemma TxDoneOffsets()
    ensures Offset(TX_DONE, 0) == 0 && Offset(TX_DONE, 1) == 1
  {
    assert Offset(TX_DONE, 1) == 1;
  }

  lemma TxDoneValues(data: Octets)
    requires |data| == 5 && Size(TX_DONE) == 5
    ensures Unpack(TX_DONE, data) ==
              [data[0], U32(data, 1)]
  {
    hide Unpack, Offset, Size, U16, U32, U64, S8, S16, S32;
    TxDoneOffsets();
    FieldAt(TX_DONE, data, 0, 0);
    FieldAt(TX_DONE, data, 1, 1);
  }

  lemma TxDoneLayout(data: Octets, t: TxDone)
    ensures TxDone.Decode(data) ==
              if |data| == 5 && data[0] <= 2 then Some(TxDone(data[0], U32(data, 1))) else None
    ensures t.Encode() == Some(data) <==> TxDone.Decode(data) == Some(t)
  {
    hide Unpack, Pack, U32;
    TxDoneSize();
    if |data| == 5 { TxDoneValues(data); }
    TxDoneCodec(t, data);
  }

  lemma ErrLayout(data: Octets, code: int)
    ensures DecodeErr(data) == if |data| == 2 then Some(U16(data, 0)) else None
    ensures EncodeErr(code) == Some(data) <==> DecodeErr(data) == Some(code)
  {
    hide LeVal;
    if |data| == 2 { Le2(data); }
    ErrCodec(code, data);
  }

  lemma RxOffsets()
    ensures Offset(RX, 0) == 0 && Offset(RX, 1) == 2 && Offset(RX, 2) == 4 && Offset(RX, 3) == 8
    ensures Offset(RX, 4) == 16 && Offset(RX, 5) == 17 && Offset(RX, 6) == 19
  {
    assert Offset(RX, 1) == 2;
    assert Offset(RX, 3) == 8;
    assert Offset(RX, 5) == 17;
  }

  lemma RxValues(data: Octets)
    requires |data| >= 20 && Size(RX) == 20
    ensures Unpack(RX, data) ==
              [S16(data, 0), S16(data, 2), S32(data, 4), U64(data, 8), data[16], U16(data, 17),
               data[19]]
  {
    hide Unpack, Offset, Size, U16, U32, U64, S8, S16, S32;
    RxOffsets();
    FieldAt(RX, data, 0, 0);
    FieldAt(RX, data, 1, 2);
    FieldAt(RX, data, 2, 4);
    FieldAt(RX, data, 3, 8);
    FieldAt(RX, data, 4, 16);
    FieldAt(RX, data, 5, 17);
    FieldAt(RX, data, 6, 19);
  }

  /** The 20 bytes in front of a received packet. */
  lemma RxEventLayout(data: Octets, rx: RxEvent)
    ensures RxEvent.Decode(data) ==
              if |data| >= 20 && data[16] <= 1 && data[19] <= 1 then
                Some(RxEvent(S16(data, 0), S16(data, 2), S32(data, 4), U64(data, 8), data[16] == 1, U16(data, 17),
                             data[19], data[20..]))
              else None
    ensures rx.Encode() == Some(data) <==> RxEvent.Decode(data) == Some(rx)
  {
    hide Unpack, Pack, S16, S32, U64, U16;
    RxSize();
    if |data| >= 20 { RxValues(data); }
    if rx.Encode() == Some(data) { RxEventRoundTrip(rx); }
    if RxEvent.Decode(data) == Some(rx) { RxEventCanonical(data); }
  }

  // ----- info

  lemma InfoKinds()
    ensures |Info.HEADER| == 17 && Info.HEADER == [B, B, B, B, B, H, Q, H, H, H, H, H, I, I, SB, SB, B]
  {
  }

  lemma InfoOffsets()
    ensures |Info.HEADER| == 17
    ensures Offset(Info.HEADER, 0) == 0 && Offset(Info.HEADER, 1) == 1 && Offset(Info.HEADER, 2) == 2
    ensures Offset(Info.HEADER, 3) == 3 && Offset(Info.HEADER, 4) == 4 && Offset(Info.HEADER, 5) == 5
    ensures Offset(Info.HEADER, 6) == 7 && Offset(Info.HEADER, 7) == 15 && Offset(Info.HEADER, 8) == 17
    ensures Offset(Info.HEADER, 9) == 19 && Offset(Info.HEADER, 10) == 21 && Offset(Info.HEADER, 11) == 23
    ensures Offset(Info.HEADER, 12) == 25 && Offset(Info.HEADER, 13) == 29 && Offset(Info.HEADER, 14) == 33
    ensures Offset(Info.HEADER, 15) == 34 && Offset(Info.HEADER, 16) == 35
  {
    InfoKinds();
    assert Offset(Info.HEADER, 1) == 1;
    assert Offset(Info.HEADER, 3) == 3;
    assert Offset(Info.HEADER, 5) == 5;
    assert Offset(Info.HEADER, 7) == 15;
    assert Offset(Info.HEADER, 9) == 19;
    assert Offset(Info.HEADER, 11) == 23;
    assert Offset(Info.HEADER, 13) == 29;
    assert Offset(Info.HEADER, 15) == 34;
  }

  lemma InfoVersions(data: Octets)
    requires |data| >= 36 && Size(Info.HEADER) == 36
    ensures var v := Unpack(Info.HEADER, data);
            && v[0] == data[0] && v[1] == data[1] && v[2] == data[2]
            && v[3] == data[3] && v[4] == data[4] && v[5] == U16(data, 5)
  {
    hide Unpack, Offset, Size, U16, U32, U64, S8;
    InfoOffsets();
    InfoKinds();
    FieldAt(Info.HEADER, data, 0, 0);
    FieldAt(Info.HEADER, data, 1, 1);
    FieldAt(Info.HEADER, data, 2, 2);
    FieldAt(Info.HEADER, data, 3, 3);
    FieldAt(Info.HEADER, data, 4, 4);
    FieldAt(Info.HEADER, data, 5, 5);
  }

  lemma InfoCapabilities(data: Octets)
    requires |data| >= 36 && Size(Info.HEADER) == 36
    ensures var v := Unpack(Info.HEADER, data);
            && v[6] == U64(data, 7) && v[7] == U16(data, 15) && v[8] == U16(data, 17)
            && v[9] == U16(data, 19) && v[10] == U16(data, 21) && v[11] == U16(data, 23)
  {
    hide Unpack, Offset, Size, U16, U32, U64, S8;
    InfoOffsets();
    InfoKinds();
    FieldAt(Info.HEADER, data, 6, 7);
    FieldAt(Info.HEADER, data, 7, 15);
    FieldAt(Info.HEADER, data, 8, 17);
    FieldAt(Info.HEADER, data, 9, 19);
    FieldAt(Info.HEADER, data, 10, 21);
    FieldAt(Info.HEADER, data, 11, 23);
  }

  lemma InfoLimits(data: Octets)
    requires |data| >= 36 && Size(Info.HEADER) == 36
    ensures var v := Unpack(Info.HEADER, data);
            && v[12] == U32(data, 25) && v[13] == U32(data, 29) && v[14] == S8(data, 33)
            && v[15] == S8(data, 34) && v[16] == data[35]
  {
    hide Unpack, Offset, Size, U16, U32, U64, S8;
    InfoOffsets();
    InfoKinds();
    FieldAt(Info.HEADER, data, 12, 25);
    FieldAt(Info.HEADER, data, 13, 29);
    FieldAt(Info.HEADER, data, 14, 33);
    FieldAt(Info.HEADER, data, 15, 34);
    FieldAt(Info.HEADER, data, 16, 35);
  }

  /** The 36 bytes of an info up to the length of its first identifier, and the identifiers, each behind its length. */
  lemma InfoLayout(data: Octets)
    ensures Info.Info.Decode(data).Some? <==>
              && |data| >= 37 && data[35] <= 32 && |data| > 36 + data[35]
              && data[36 + data[35]] <= 16 && |data| >= 37 + data[35] + data[36 + data[35]]
    ensures Info.Info.Decode(data).Some? ==>
              var n, i := data[35], Info.Info.Decode(data).value;
              var k := data[36 + n];
              && [i.protoMajor, i.protoMinor, i.fwMajor, i.fwMinor, i.fwPatch] == data[..5]
              && i.radioChipId == U16(data, 5) && i.capabilityBitmap == U64(data, 7)
              && i.supportedSfBitmap == U16(data, 15) && i.supportedBwBitmap == U16(data, 17)
              && i.maxPayloadBytes == U16(data, 19)
              && i.rxQueueCapacity == U16(data, 21) && i.txQueueCapacity == U16(data, 23)
              && i.freqMinHz == U32(data, 25) && i.freqMaxHz == U32(data, 29)
              && i.txPowerMinDbm == S8(data, 33) && i.txPowerMaxDbm == S8(data, 34)
              && i.mcuUid == data[36..36 + n] && i.radioUid == data[37 + n..37 + n + k]
  {
    hide Unpack, Pack, S8, U16, U32, U64, Size;
    Info.HeaderSize();
    if |data| >= 37 {
      InfoVersions(data);
      InfoCapabilities(data);
      InfoLimits(data);
    }
  }

  // ----- what an OK carries

  /** By the number of the command it answers: nothing for 1, 4, 5 and 6, an info for 2, a SET_CONFIG result for 3. */
  lemma OkByNumber(cmd: int, payload: Octets, ok: OkPayload)
    ensures ParseOk(cmd, payload) == Some(ok) <==>
              match ok
              case Empty => (cmd == 1 || cmd == 4 || cmd == 5 || cmd == 6) && payload == []
              case OkInfo(i) => cmd == 2 && Info.Info.Decode(payload) == Some(i)
              case OkConfig(r) => cmd == 3 && SetConfigResult.Decode(payload) == Some(r)
  {
    hide Info.Info.Decode, SetConfigResult.Decode;
  }

  // ----- frames

  /** A frame off the wire: its number in the first byte, its tag in the next two, at the end the checksum of all
      that is in front of it, and the payload between. Each error has its cause. */
  lemma FrameLayout(wire: Octets)
    ensures var unstuffed, r := Cobs.Decode(wire), Frame.DecodeFrame(wire);
            match unstuffed
            case None => r == Err(Frame.BadCobs)
            case Some(d) =>
              if |d| < 5 then r == Err(Frame.TooShort)
              else if Crc.Checksum(d[..|d| - 2]) != U16(d, |d| - 2) then r == Err(Frame.BadCrc)
              else r == Ok(Frame.Frame(d[0], U16(d, 1), d[3..|d| - 2]))
  {
    hide Cobs.Decode, Crc.Checksum, Unpack, Size, LeVal;
    var unstuffed := Cobs.Decode(wire);
    if unstuffed.Some? && |unstuffed.value| >= 5 {
      var d := unstuffed.value;
      var body := d[..|d| - 2];
      Le2(d[|d| - 2..]);
      Frame.HeaderSize();
      FieldAt(Frame.HEADER, body, 0, 0);
      FieldAt(Frame.HEADER, body, 1, 1);
      assert body[3..] == d[3..|d| - 2];
    }
  }
}
