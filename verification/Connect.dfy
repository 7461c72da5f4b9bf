/** Checking a requested configuration against what the device says it can do. */
module Connect {
  import opened Bytes
  import opened Modulation
  import opened Info
  import Frame

  /** `NegativeShift` is Python's ValueError for `1 << sf` with a negative `sf`. */
  datatype PrepareError = FrequencyOutOfRange | SfNotSupported | BwNotSupported | NegativeShift

  function Pow2(n: nat): (p: nat)
    ensures p > 0
  {
    if n == 0 then 1 else 2 * Pow2(n - 1)
  }

  /** `bitmap & (1 << n)` is nonzero. */
  predicate BitSet(bitmap: nat, n: nat) { bitmap / Pow2(n) % 2 == 1 }

  function Clamp(info: Info, power: int): int {
    if power > info.txPowerMaxDbm then info.txPowerMaxDbm
    else if power < info.txPowerMinDbm then info.txPowerMinDbm
    else power
  }

  function Prepare(info: Info, config: Modulation): Result<Modulation, PrepareError>
    requires info.supportedSfBitmap >= 0 && info.supportedBwBitmap >= 0
  {
    match config
    case LoRa(c) =>
      if !(info.freqMinHz <= c.freqHz <= info.freqMaxHz) then Err(FrequencyOutOfRange)
      else if c.sf < 0 then Err(NegativeShift)
      else if !BitSet(info.supportedSfBitmap, c.sf) then Err(SfNotSupported)
      else if !BitSet(info.supportedBwBitmap, c.bw) then Err(BwNotSupported)
      else Ok(LoRa(c.(txPowerDbm := Clamp(info, c.txPowerDbm))))
    case _ => Ok(config)
  }

  /** Bit `n` of a bitmap is what stands between the multiples of twice its weight and what is below it. */
  lemma BitSetMeans(n: nat, high: nat, bit: bool, low: nat)
    requires low < Pow2(n)
    ensures BitSet(high * (2 * Pow2(n)) + (if bit then Pow2(n) else 0) + low, n) <==> bit
  {
    hide Pow2;
    var w, q := Pow2(n), 2 * high + if bit then 1 else 0;
    var bitmap := high * (2 * w) + (if bit then w else 0) + low;
    assert bitmap == q * w + low;
    Quotient(bitmap, w, q, low);
  }

  lemma Quotient(n: nat, w: nat, q: nat, low: nat)
    requires n == q * w + low && low < w
    ensures n / w == q
  {
    var d := n / w - q;
    assert w * d == low - n % w;
    assert d >= 1 ==> w * d >= w;
    assert d <= -1 ==> w * d + w <= 0;
  }

  function Distance(a: int, b: int): nat { if a < b then b - a else a - b }

  /** A LoRa request is accepted exactly when its frequency is in the device's range and the bits of its spreading
      factor and bandwidth are set; otherwise the error names the first of these that fails. An accepted one gets
      the power nearest to what was asked that the device allows. Any other modulation is passed on as it is. */
  lemma PrepareOutcome(info: Info, config: Modulation)
    requires info.supportedSfBitmap >= 0 && info.supportedBwBitmap >= 0
    ensures var r := Prepare(info, config);
            match config
            case LoRa(c) =>
              var inRange := info.freqMinHz <= c.freqHz && c.freqHz <= info.freqMaxHz;
              && (r == Err(FrequencyOutOfRange) <==> !inRange)
              && (r == Err(NegativeShift) <==> inRange && c.sf < 0)
              && (r == Err(SfNotSupported) <==> inRange && c.sf >= 0 && !BitSet(info.supportedSfBitmap, c.sf))
              && (r == Err(BwNotSupported) <==>
                    inRange && c.sf >= 0 && BitSet(info.supportedSfBitmap, c.sf)
                    && !BitSet(info.supportedBwBitmap, c.bw))
              && (r.Ok? <==>
                    inRange && c.sf >= 0 && BitSet(info.supportedSfBitmap, c.sf)
                    && BitSet(info.supportedBwBitmap, c.bw))
              && (r.Ok? ==>
                    && r.value.LoRa? && r.value == LoRa(c.(txPowerDbm := r.value.lora.txPowerDbm))
                    && var p, low, high := r.value.lora.txPowerDbm, info.txPowerMinDbm, info.txPowerMaxDbm;
                       && (low <= high ==>
                             && low <= p <= high
                             && forall q :: low <= q <= high ==> Distance(p, c.txPowerDbm) <= Distance(q, c.txPowerDbm))
                       && (low > high ==> p == if c.txPowerDbm > high then high else low))
            case _ => r == Ok(config)
  {
    hide BitSet;
  }

  lemma {:induction false} Pow2Grows(m: nat, n: nat)
    requires m <= n
    ensures Pow2(m) <= Pow2(n)
    decreases n
  {
    if m < n { Pow2Grows(m, n - 1); }
  }

  lemma HighBitsClear(bitmap: nat, p: nat)
    requires bitmap < p
    ensures bitmap / p % 2 == 0
  {
    assert bitmap / p == 0;
  }

  lemma Sixteenth()
    ensures Pow2(16) == 0x1_0000
  {
    assert Pow2(8) == 0x100;
  }

  /** A bit set in a 16-bit bitmap is one of the low sixteen. */
  lemma BitBelow16(bitmap: nat, n: nat)
    requires bitmap < 0x1_0000 && BitSet(bitmap, n)
    ensures n < 16
  {
    hide Pow2;
    if n >= 16 {
      Pow2Grows(16, n);
      Sixteenth();
      HighBitsClear(bitmap, Pow2(n));
    }
  }

  /** The device's own limits, for a LoRa configuration. */
  predicate WithinDevice(info: Info, c: LoRaConfig)
    requires info.supportedSfBitmap >= 0 && info.supportedBwBitmap >= 0
  {
    && info.freqMinHz <= c.freqHz <= info.freqMaxHz
    && c.sf >= 0 && BitSet(info.supportedSfBitmap, c.sf) && BitSet(info.supportedBwBitmap, c.bw)
    && info.txPowerMinDbm <= c.txPowerDbm <= info.txPowerMaxDbm
  }

  /** An accepted LoRa request differs from what was asked only in power, and can be sent: for any
      info read off the wire and any requested frequency, spreading factor and power. */
  lemma AdmittedIsSendable(data: Octets, c: LoRaConfig)
    requires Info.Decode(data).Some?
    requires 0 <= c.preambleLen < 0x1_0000 && 0 <= c.syncWord < 0x1_0000
    ensures Info.Decode(data).value.supportedSfBitmap >= 0 && Info.Decode(data).value.supportedBwBitmap >= 0
    ensures var info := Info.Decode(data).value;
            match Prepare(info, LoRa(c))
            case Err(_) => true
            case Ok(m) =>
              && m.LoRa? && m == LoRa(c.(txPowerDbm := m.lora.txPowerDbm))
              && m.lora.sf < 16
              && EncodeModulation(m).Some?
              && DecodeModulation(EncodeModulation(m).value) == Some(m)
              && |EncodeModulation(m).value| <= Frame.MAX_PAYLOAD_FIELD
  {
    hide LoRaConfig.Encode, LoRaConfig.Decode, Info.Decode, DecodeModulation;
    DecodedRanges(data);
    var info := Info.Decode(data).value;
    match Prepare(info, LoRa(c))
    case Err(_) =>
    case Ok(m) =>
      BitBelow16(info.supportedSfBitmap, c.sf);
      LoRaDecodeEncode(m.lora);
      ModulationRoundTrip(m);
      LoRaLength(m.lora);
  }

  lemma LoRaLength(c: LoRaConfig)
    ensures c.Encode().Some? ==> |c.Encode().value| == 15
  {
    LoRaSize();
  }

  /** The accepted configuration is inside the device's limits, and preparing it again changes nothing,
      exactly when the device's power limits are in order. */
  lemma PreparedWithinDevice(info: Info, c: LoRaConfig)
    requires info.supportedSfBitmap >= 0 && info.supportedBwBitmap >= 0
    requires Prepare(info, LoRa(c)).Ok?
    ensures var m := Prepare(info, LoRa(c)).value;
            && (WithinDevice(info, m.lora) <==> info.txPowerMinDbm <= info.txPowerMaxDbm)
            && (Prepare(info, m) == Ok(m) <==> info.txPowerMinDbm <= info.txPowerMaxDbm)
  {
  }

  /** A device whose minimum power is above its maximum. */
  function UnorderedInfo(): Info {
    Info(1, 0, 0, 0, 0, 0, 0, 0x80, 0x80, 255, 1, 1, 0, 0xFFFF_FFFF, 10, 5, [], [])
  }

  lemma UnorderedFits()
    ensures UnorderedInfo().Encode().Some?
  {
    hide Pack;
    HeaderSize();
    HeaderFits(UnorderedInfo().Fields());
  }

  lemma EighthBit()
    ensures BitSet(0x80, 7)
  {
    assert Pow2(7) == 0x80 by { assert Pow2(4) == 16; }
  }

  /** Such a device's info can be received, and then a request is accepted whose power is outside the limits,
      and preparing it again changes it again. */
  lemma UnorderedLimits() returns (data: Octets, c: LoRaConfig)
    ensures Info.Decode(data) == Some(UnorderedInfo())
    ensures var prepared := Prepare(UnorderedInfo(), LoRa(c));
            && prepared.Ok? && prepared.value.LoRa? && !WithinDevice(UnorderedInfo(), prepared.value.lora)
            && Prepare(UnorderedInfo(), prepared.value).Ok? && Prepare(UnorderedInfo(), prepared.value) != prepared
  {
    hide BitSet, Info.Decode, Info.Encode;
    UnorderedFits();
    data := UnorderedInfo().Encode().value;
    InfoRoundTrip(UnorderedInfo(), []);
    assert data + [] == data;
    c := LoRaConfig(868_100_000, 7, 7, 0, 8, 0x1424, 0, 0, true, false);
    EighthBit();
  }
}
