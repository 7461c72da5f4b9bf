/** Published vectors: the definitions are the intended ones. */
module Vectors {
  import opened Bytes
  import opened Crc
  import opened Frame
  import opened Events
  import opened Modulation
  import opened Layouts
  import Cobs

  // ----- checksums, byte after byte

  function Shift4(r: bv16): bv16 { ShiftReg(ShiftReg(ShiftReg(ShiftReg(r)))) }

  function Step(r: bv16, b: bv8): bv16 { Shift4(Shift4(r ^ (Wide(b) << 8))) }

  lemma Four(r: bv16)
    ensures ShiftBy(r, 4) == Shift4(r)
  {
    assert ShiftBy(r, 1) == ShiftReg(r);
    assert ShiftBy(r, 2) == ShiftReg(ShiftReg(r));
  }

  lemma Eight(r: bv16)
    ensures ShiftBy(r, 8) == Shift4(Shift4(r))
  {
    Four(r);
    assert ShiftBy(r, 6) == ShiftReg(ShiftReg(ShiftBy(r, 4)));
  }

  lemma FeedIsStep(r: bv16, b: bv8)
    ensures Feed(r, b) == Step(r, b)
  {
    Eight(r ^ (Wide(b) << 8));
  }

  /** The register is `r` after `n` bytes. */
  predicate RegisterAt(data: Octets, n: nat, r: bv16) { n <= |data| && Run(INIT, ToBits(data[..n])) == r }

  lemma Start(data: Octets)
    ensures RegisterAt(data, 0, 0xFFFF)
  {
    assert data[..0] == [];
  }

  lemma Feed1(data: Octets, k: nat, b: bv8, r: bv16, next: bv16)
    requires k < |data| && RegisterAt(data, k, r) && data[k] == b as int && Step(r, b) == next
    ensures RegisterAt(data, k + 1, next)
  {
    hide Feed, Step;
    var front, all := data[..k], data[..k + 1];
    assert all[..k] == front && all[k] == data[k];
    assert ToBits(all) == ToBits(front) + [b];
    assert ToBits(all)[..k] == ToBits(front);
    FeedIsStep(r, b);
  }

  lemma FeedOne(front: Octets, n: byte, b: bv8, r: bv16, next: bv16)
    requires Run(INIT, ToBits(front)) == r && n == b as int && Step(r, b) == next
    ensures Run(INIT, ToBits(front + [n])) == next
  {
    hide Run, ToBits, Step;
    var all := front + [n];
    assert all[..|front|] == front && all[..|front| + 1] == all;
    Feed1(all, |front|, b, r, next);
  }

  lemma Feed4(data: Octets, k: nat, bs: seq<bv8>, rs: seq<bv16>)
    requires |bs| == 4 && |rs| == 5 && k + 4 <= |data| && RegisterAt(data, k, rs[0])
    requires forall i :: 0 <= i < 4 ==> data[k + i] == bs[i] as int
    requires Step(rs[0], bs[0]) == rs[1] && Step(rs[1], bs[1]) == rs[2]
    requires Step(rs[2], bs[2]) == rs[3] && Step(rs[3], bs[3]) == rs[4]
    ensures RegisterAt(data, k + 4, rs[4])
  {
    hide RegisterAt, Step;
    Feed1(data, k, bs[0], rs[0], rs[1]);
    Feed1(data, k + 1, bs[1], rs[1], rs[2]);
    Feed1(data, k + 2, bs[2], rs[2], rs[3]);
    Feed1(data, k + 3, bs[3], rs[3], rs[4]);
  }

  const DIGITS: Octets := [0x31, 0x32, 0x33, 0x34, 0x35, 0x36, 0x37, 0x38, 0x39]

  /** The check value of CRC-16/IBM-3740 in the CRC RevEng catalogue. */
  lemma CheckValue()
    ensures Checksum([0x31, 0x32, 0x33, 0x34, 0x35, 0x36, 0x37, 0x38, 0x39]) == 0x29B1
  {
    hide Run, ToBits;
    Start(DIGITS);
    Feed4(DIGITS, 0, [0x31, 0x32, 0x33, 0x34], [0xFFFF, 0xC782, 0x3DBA, 0x5BCE, 0x5349]);
    Feed4(DIGITS, 4, [0x35, 0x36, 0x37, 0x38], [0x5349, 0x4560, 0x2EF4, 0x7718, 0xA12B]);
    Feed1(DIGITS, 8, 0x39, 0xA12B, 0x29B1);
    assert DIGITS[..9] == DIGITS;
  }

  // ----- frames

  /** Without full blocks, what goes on the wire is the data, each zero and the closing one replaced: a block of
      data `i` up to `j` without zeros stands behind its length, moved by one. */
  predicate Moved(d: Octets, w: Octets, i: nat, j: nat) {
    && i <= j <= |d| < 254 && |w| == |d| + 2 && w[|d| + 1] == 0 && w[i] == j - i + 1
    && forall k :: i <= k < j ==> d[k] != 0 && w[k + 1] == d[k]
  }

  predicate From(d: Octets, w: Octets, i: nat) { i <= |d| && i <= |w| && Cobs.Encode(d[i..]) + [0] == w[i..] }

  lemma LastBlock(d: Octets, w: Octets, i: nat)
    requires Moved(d, w, i, |d|)
    ensures From(d, w, i)
  {
    hide Cobs.Encode;
    Cobs.EncodeLast(d[i..]);
    assert w[i..] == [w[i]] + d[i..] + [0];
  }

  lemma Block(d: Octets, w: Octets, i: nat, j: nat)
    requires Moved(d, w, i, j) && j < |d| && d[j] == 0 && From(d, w, j + 1)
    ensures From(d, w, i)
  {
    hide Cobs.Encode;
    Cobs.EncodeShort(d[i..j], d[j + 1..]);
    assert d[i..] == d[i..j] + [0] + d[j + 1..];
    assert w[i..] == [w[i]] + d[i..j] + w[j + 1..];
  }

  lemma Framed(f: Frame, d: Octets, r: bv16, w: Octets)
    requires Sendable(f) && |d| == |f.payload| + 5 && d[..|d| - 2] == Header(f) + f.payload
    requires RegisterAt(d, |d| - 2, r) && Le(r as int, 2) == d[|d| - 2..]
    requires From(d, w, 0)
    ensures EncodeFrame(f) == Ok(w)
  {
    hide Header, Cobs.Encode, Run, ToBits;
    assert d[0..] == d && w[0..] == w;
    assert PreCobs(f) == d[..|d| - 2] + d[|d| - 2..] == d;
  }

  lemma Trailer(d: Octets, crc: nat)
    requires |d| >= 2 && crc == d[|d| - 2] as int + 0x100 * (d[|d| - 1] as int)
    ensures Le(crc, 2) == d[|d| - 2..]
  {
    var low, high := d[|d| - 2], d[|d| - 1];
    assert Le(high, 1) == [high] + Le(0, 0);
    assert d[|d| - 2..] == [low, high];
  }

  const PING_DATA: Octets :=
    [0x01, 0x01, 0x00, 0x9D, 0xC8]
  const PING_WIRE: Octets :=
    [0x03, 0x01, 0x01, 0x03, 0x9D, 0xC8, 0x00]

  lemma PingChecksum()
    ensures RegisterAt(PING_DATA, 3, 0xC89D)
  {
    hide RegisterAt;
    Start(PING_DATA);
    Feed1(PING_DATA, 0, 0x01, 0xFFFF, 0xF1D1);
    Feed1(PING_DATA, 1, 0x01, 0xF1D1, 0x3E1F);
    Feed1(PING_DATA, 2, 0x00, 0x3E1F, 0xC89D);
  }

  lemma PingStuffed()
    ensures From(PING_DATA, PING_WIRE, 0)
  {
    hide From;
    LastBlock(PING_DATA, PING_WIRE, 3);
    Block(PING_DATA, PING_WIRE, 0, 2);
  }

  /** PING with tag 1. */
  lemma PingFrame()
    ensures EncodeFrame(Frame(TYPE_PING, 1, []))
         == Ok([0x03, 0x01, 0x01, 0x03, 0x9D, 0xC8, 0x00])
  {
    hide RegisterAt, From, Header, Le;
    var f := Frame(TYPE_PING, 1, []);
    HeaderBytes(f);
    PingChecksum();
    PingStuffed();
    Trailer(PING_DATA, 0xC89D);
    assert PING_DATA[..3] == Header(f) + f.payload;
    Framed(f, PING_DATA, 0xC89D, PING_WIRE);
  }

  const OK_DATA: Octets :=
    [0x80, 0x01, 0x00, 0xF7, 0xC4]
  const OK_WIRE: Octets :=
    [0x03, 0x80, 0x01, 0x03, 0xF7, 0xC4, 0x00]

  lemma OkChecksum()
    ensures RegisterAt(OK_DATA, 3, 0xC4F7)
  {
    hide RegisterAt;
    Start(OK_DATA);
    Feed1(OK_DATA, 0, 0x80, 0xFFFF, 0x7078);
    Feed1(OK_DATA, 1, 0x01, 0x7078, 0x16B6);
    Feed1(OK_DATA, 2, 0x00, 0x16B6, 0xC4F7);
  }

  lemma OkStuffed()
    ensures From(OK_DATA, OK_WIRE, 0)
  {
    hide From;
    LastBlock(OK_DATA, OK_WIRE, 3);
    Block(OK_DATA, OK_WIRE, 0, 2);
  }

  /** OK to the command with tag 1. */
  lemma OkFrame()
    ensures EncodeFrame(Frame(TYPE_OK, 1, []))
         == Ok([0x03, 0x80, 0x01, 0x03, 0xF7, 0xC4, 0x00])
  {
    hide RegisterAt, From, Header, Le;
    var f := Frame(TYPE_OK, 1, []);
    HeaderBytes(f);
    OkChecksum();
    OkStuffed();
    Trailer(OK_DATA, 0xC4F7);
    assert OK_DATA[..3] == Header(f) + f.payload;
    Framed(f, OK_DATA, 0xC4F7, OK_WIRE);
  }

  const ALARM_DATA: Octets :=
    [0x81, 0x00, 0x00, 0x02, 0x01, 0xCE, 0xEF]
  const ALARM_WIRE: Octets :=
    [0x02, 0x81, 0x01, 0x05, 0x02, 0x01, 0xCE, 0xEF, 0x00]

  lemma AlarmChecksum()
    ensures RegisterAt(ALARM_DATA, 5, 0xEFCE)
  {
    hide RegisterAt;
    Start(ALARM_DATA);
    Feed4(ALARM_DATA, 0, [0x81, 0x00, 0x00, 0x02], [0xFFFF, 0x6059, 0x35A6, 0xC0F6, 0x0F0E]);
    Feed1(ALARM_DATA, 4, 0x01, 0x0F0E, 0xEFCE);
  }

  lemma AlarmStuffed()
    ensures From(ALARM_DATA, ALARM_WIRE, 0)
  {
    hide From;
    LastBlock(ALARM_DATA, ALARM_WIRE, 3);
    Block(ALARM_DATA, ALARM_WIRE, 2, 2);
    Block(ALARM_DATA, ALARM_WIRE, 0, 1);
  }

  /** The device reports an error of its own: a frame it could not read. */
  lemma AlarmFrame()
    ensures EncodeFrame(Frame(TYPE_ERR, 0, [0x02, 0x01]))
         == Ok([0x02, 0x81, 0x01, 0x05, 0x02, 0x01, 0xCE, 0xEF, 0x00])
  {
    hide RegisterAt, From, Header, Le;
    var f := Frame(TYPE_ERR, 0, [0x02, 0x01]);
    HeaderBytes(f);
    AlarmChecksum();
    AlarmStuffed();
    Trailer(ALARM_DATA, 0xEFCE);
    assert ALARM_DATA[..5] == Header(f) + f.payload;
    Framed(f, ALARM_DATA, 0xEFCE, ALARM_WIRE);
  }

  const LOST_DATA: Octets :=
    [0x81, 0x28, 0x00, 0x03, 0x00, 0x53, 0x7E]
  const LOST_WIRE: Octets :=
    [0x03, 0x81, 0x28, 0x02, 0x03, 0x03, 0x53, 0x7E, 0x00]

  lemma LostChecksum()
    ensures RegisterAt(LOST_DATA, 5, 0x7E53)
  {
    hide RegisterAt;
    Start(LOST_DATA);
    Feed4(LOST_DATA, 0, [0x81, 0x28, 0x00, 0x03], [0xFFFF, 0x6059, 0x90CC, 0x4FB9, 0x3048]);
    Feed1(LOST_DATA, 4, 0x00, 0x3048, 0x7E53);
  }

  lemma LostStuffed()
    ensures From(LOST_DATA, LOST_WIRE, 0)
  {
    hide From;
    LastBlock(LOST_DATA, LOST_WIRE, 5);
    Block(LOST_DATA, LOST_WIRE, 3, 4);
    Block(LOST_DATA, LOST_WIRE, 0, 2);
  }

  /** ERR to the command with tag 0x28: the device has no configuration, which is code 3. */
  lemma LostFrame()
    ensures EncodeFrame(Frame(TYPE_ERR, 0x28, [0x03, 0x00]))
         == Ok([0x03, 0x81, 0x28, 0x02, 0x03, 0x03, 0x53, 0x7E, 0x00])
  {
    hide RegisterAt, From, Header, Le;
    var f := Frame(TYPE_ERR, 0x28, [0x03, 0x00]);
    HeaderBytes(f);
    LostChecksum();
    LostStuffed();
    Trailer(LOST_DATA, 0x7E53);
    assert LOST_DATA[..5] == Header(f) + f.payload;
    Framed(f, LOST_DATA, 0x7E53, LOST_WIRE);
  }

  const TX_DONE_DATA: Octets :=
    [0xC1, 0x04, 0x00, 0x00, 0x00, 0x79, 0x00, 0x00, 0xE3, 0xFA]
  const TX_DONE_WIRE: Octets :=
    [0x03, 0xC1, 0x04, 0x01, 0x01, 0x02, 0x79, 0x01, 0x03, 0xE3, 0xFA, 0x00]

  lemma TxDoneChecksum()
    ensures RegisterAt(TX_DONE_DATA, 8, 0xFAE3)
  {
    hide RegisterAt;
    Start(TX_DONE_DATA);
    Feed4(TX_DONE_DATA, 0, [0xC1, 0x04, 0x00, 0x00], [0xFFFF, 0x289D, 0x78EE, 0x119F, 0x9D10]);
    Feed4(TX_DONE_DATA, 4, [0x00, 0x79, 0x00, 0x00], [0x9D10, 0x4214, 0x9338, 0x8BDA, 0xFAE3]);
  }

  lemma TxDoneStuffed()
    ensures From(TX_DONE_DATA, TX_DONE_WIRE, 0)
  {
    hide From;
    LastBlock(TX_DONE_DATA, TX_DONE_WIRE, 8);
    Block(TX_DONE_DATA, TX_DONE_WIRE, 7, 7);
    Block(TX_DONE_DATA, TX_DONE_WIRE, 5, 6);
    Block(TX_DONE_DATA, TX_DONE_WIRE, 4, 4);
    Block(TX_DONE_DATA, TX_DONE_WIRE, 3, 3);
    Block(TX_DONE_DATA, TX_DONE_WIRE, 0, 2);
  }

  /** TX_DONE for the command with tag 4: transmitted, 30976 microseconds on the air. */
  lemma TxDoneFrame()
    ensures EncodeFrame(Frame(TYPE_TX_DONE, 4, [0x00, 0x00, 0x79, 0x00, 0x00]))
         == Ok([0x03, 0xC1, 0x04, 0x01, 0x01, 0x02, 0x79, 0x01, 0x03, 0xE3, 0xFA, 0x00])
  {
    hide RegisterAt, From, Header, Le;
    var f := Frame(TYPE_TX_DONE, 4, [0x00, 0x00, 0x79, 0x00, 0x00]);
    HeaderBytes(f);
    TxDoneChecksum();
    TxDoneStuffed();
    Trailer(TX_DONE_DATA, 0xFAE3);
    assert TX_DONE_DATA[..8] == Header(f) + f.payload;
    Framed(f, TX_DONE_DATA, 0xFAE3, TX_DONE_WIRE);
  }

  const PACKET_DATA: Octets :=
    [0xC0, 0x00, 0x00, 0x21, 0xFD, 0x5F, 0x00, 0x83, 0xFF, 0xFF, 0xFF, 0x80, 0xDE, 0x80, 0x02, 0x00, 0x00, 0x00,
     0x00, 0x01, 0x00, 0x00, 0x00, 0x01, 0x02, 0x03, 0x04, 0xB9, 0x8E]
  const PACKET_WIRE: Octets :=
    [0x02, 0xC0, 0x01, 0x04, 0x21, 0xFD, 0x5F, 0x09, 0x83, 0xFF, 0xFF, 0xFF, 0x80, 0xDE, 0x80, 0x02, 0x01, 0x01,
     0x01, 0x02, 0x01, 0x01, 0x01, 0x07, 0x01, 0x02, 0x03, 0x04, 0xB9, 0x8E, 0x00]

  lemma PacketFirst()
    ensures RegisterAt(PACKET_DATA, 8, 0xED55)
  {
    hide RegisterAt;
    Start(PACKET_DATA);
    Feed4(PACKET_DATA, 0, [0xC0, 0x00, 0x00, 0x21], [0xFFFF, 0x38BC, 0x0B5B, 0xEA6B, 0x0327]);
    Feed4(PACKET_DATA, 4, [0xFD, 0x5F, 0x00, 0x83], [0x0327, 0x29D1, 0xCF51, 0x79A3, 0xED55]);
  }

  lemma PacketSecond()
    ensures RegisterAt(PACKET_DATA, 16, 0xA55D)
  {
    hide RegisterAt;
    PacketFirst();
    Feed4(PACKET_DATA, 8, [0xFF, 0xFF, 0xFF, 0x80], [0xED55, 0x6773, 0x71B1, 0xC146, 0x1EE5]);
    Feed4(PACKET_DATA, 12, [0xDE, 0x80, 0x02, 0x00], [0x1EE5, 0x3C4C, 0x2A57, 0xF26A, 0xA55D]);
  }

  lemma PacketThird()
    ensures RegisterAt(PACKET_DATA, 24, 0x74BA)
  {
    hide RegisterAt;
    PacketSecond();
    Feed4(PACKET_DATA, 16, [0x00, 0x00, 0x00, 0x01], [0xA55D, 0xB84F, 0x69D3, 0x2E8F, 0x5A8D]);
    Feed4(PACKET_DATA, 20, [0x00, 0x00, 0x00, 0x01], [0x5A8D, 0x76BF, 0xA151, 0xF4CB, 0x74BA]);
  }

  lemma PacketChecksum()
    ensures RegisterAt(PACKET_DATA, 27, 0x8EB9)
  {
    hide RegisterAt;
    PacketThird();
    Feed1(PACKET_DATA, 24, 0x02, 0x74BA, 0xA451);
    Feed1(PACKET_DATA, 25, 0x03, 0xA451, 0x940D);
    Feed1(PACKET_DATA, 26, 0x04, 0x940D, 0x8EB9);
  }

  lemma PacketTail()
    ensures From(PACKET_DATA, PACKET_WIRE, 16)
  {
    hide From;
    LastBlock(PACKET_DATA, PACKET_WIRE, 23);
    Block(PACKET_DATA, PACKET_WIRE, 22, 22);
    Block(PACKET_DATA, PACKET_WIRE, 21, 21);
    Block(PACKET_DATA, PACKET_WIRE, 19, 20);
    Block(PACKET_DATA, PACKET_WIRE, 18, 18);
    Block(PACKET_DATA, PACKET_WIRE, 17, 17);
    Block(PACKET_DATA, PACKET_WIRE, 16, 16);
  }

  lemma PacketMiddle()
    ensures From(PACKET_DATA, PACKET_WIRE, 7)
  {
    hide From;
    PacketTail();
    Block(PACKET_DATA, PACKET_WIRE, 7, 15);
  }

  lemma PacketStuffed()
    ensures From(PACKET_DATA, PACKET_WIRE, 0)
  {
    hide From;
    PacketMiddle();
    Block(PACKET_DATA, PACKET_WIRE, 3, 6);
    Block(PACKET_DATA, PACKET_WIRE, 2, 2);
    Block(PACKET_DATA, PACKET_WIRE, 0, 1);
  }

  /** A received packet; `PacketPayload` says which. */
  lemma PacketFrame()
    ensures EncodeFrame(Frame(TYPE_RX, 0, PACKET_DATA[3..27]))
         == Ok([0x02, 0xC0, 0x01, 0x04, 0x21, 0xFD, 0x5F, 0x09, 0x83, 0xFF, 0xFF, 0xFF, 0x80, 0xDE, 0x80, 0x02,
               0x01, 0x01, 0x01, 0x02, 0x01, 0x01, 0x01, 0x07, 0x01, 0x02, 0x03, 0x04, 0xB9, 0x8E, 0x00])
  {
    hide RegisterAt, From, Header, Le;
    var f := Frame(TYPE_RX, 0, PACKET_DATA[3..27]);
    HeaderBytes(f);
    PacketChecksum();
    PacketStuffed();
    Trailer(PACKET_DATA, 0x8EB9);
    assert PACKET_DATA[..27] == Header(f) + f.payload;
    Framed(f, PACKET_DATA, 0x8EB9, PACKET_WIRE);
  }

  // ----- payloads

  const DEFAULT_LORA: LoRaConfig := LoRaConfig(868_100_000, 7, 7, 0, 8, 0x1424, 14, 0, true, false)

  /** The default configuration: 868.1 MHz, preamble 8, sync word 0x1424, 14 dBm. */
  lemma DefaultLoRa()
    ensures DEFAULT_LORA.Encode() ==
              Some([0xA0, 0x27, 0xBE, 0x33, 0x07, 0x07, 0x00, 0x08, 0x00, 0x24, 0x14, 0x0E, 0x00, 0x01, 0x00])
  {
    hide LoRaConfig.Encode, LoRaConfig.Decode;
    LoRaLayout([0xA0, 0x27, 0xBE, 0x33, 0x07, 0x07, 0x00, 0x08, 0x00, 0x24, 0x14, 0x0E, 0x00, 0x01, 0x00],
               DEFAULT_LORA);
  }

  /** The device has applied it, and this host owns it. */
  lemma AppliedLoRa()
    ensures SetConfigResult(0, 1, LoRa(DEFAULT_LORA)).Encode() ==
              Some([0x00, 0x01, 0x01,
                    0xA0, 0x27, 0xBE, 0x33, 0x07, 0x07, 0x00, 0x08, 0x00, 0x24, 0x14, 0x0E, 0x00, 0x01, 0x00])
  {
    hide LoRaConfig.Encode;
    DefaultLoRa();
    var params := DEFAULT_LORA.Encode().value;
    assert EncodeModulation(LoRa(DEFAULT_LORA)) == Some([0x01] + params);
    assert [0x00, 0x01] + ([0x01] + params) ==
             [0x00, 0x01, 0x01,
              0xA0, 0x27, 0xBE, 0x33, 0x07, 0x07, 0x00, 0x08, 0x00, 0x24, 0x14, 0x0E, 0x00, 0x01, 0x00];
  }

  lemma TxDonePayload()
    ensures TxDone(TRANSMITTED, 30976).Encode() == Some([0x00, 0x00, 0x79, 0x00, 0x00])
  {
    hide TxDone.Encode, TxDone.Decode;
    TxDoneLayout([0x00, 0x00, 0x79, 0x00, 0x00], TxDone(TRANSMITTED, 30976));
  }

  /** -73.5 dBm, 9.5 dB, -125 Hz off, 42 seconds after the start, CRC valid, four bytes. */
  lemma PacketPayload()
    ensures RxEvent(-735, 95, -125, 42_000_000, true, 0, 0, [0x01, 0x02, 0x03, 0x04]).Encode()
         == Some(PACKET_DATA[3..27])
  {
    hide RxEvent.Encode, RxEvent.Decode;
    var d := PACKET_DATA[3..27];
    assert PACKET_DATA[3] == 0x21 && PACKET_DATA[4] == 0xFD && PACKET_DATA[5] == 0x5F && PACKET_DATA[6] == 0x00;
    assert PACKET_DATA[7] == 0x83 && PACKET_DATA[8] == 0xFF && PACKET_DATA[9] == 0xFF && PACKET_DATA[10] == 0xFF;
    assert PACKET_DATA[11] == 0x80 && PACKET_DATA[12] == 0xDE && PACKET_DATA[13] == 0x80 && PACKET_DATA[14] == 0x02;
    assert PACKET_DATA[15] == 0x00 && PACKET_DATA[16] == 0x00 && PACKET_DATA[17] == 0x00 && PACKET_DATA[18] == 0x00;
    assert PACKET_DATA[19] == 0x01 && PACKET_DATA[20] == 0x00 && PACKET_DATA[21] == 0x00 && PACKET_DATA[22] == 0x00;
    assert PACKET_DATA[23] == 0x01 && PACKET_DATA[24] == 0x02 && PACKET_DATA[25] == 0x03 && PACKET_DATA[26] == 0x04;
    assert U32(d, 8) == 42_000_000 && U32(d, 12) == 0;
    RxEventLayout(d, RxEvent(-735, 95, -125, 42_000_000, true, 0, 0, [0x01, 0x02, 0x03, 0x04]));
    assert d[20..] == [0x01, 0x02, 0x03, 0x04];
  }
}
