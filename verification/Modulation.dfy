/** The four radio configurations and their SET_CONFIG payloads. */
module Modulation {
  import opened Bytes

  // Enumerations carry their wire values.
  type LoRaBandwidth = n: int | 0 <= n <= 13
  type LoRaCodingRate = n: int | 0 <= n <= 3
  type LoRaHeaderMode = n: int | 0 <= n <= 1
  type LrFhssBandwidth = n: int | 0 <= n <= 7
  type LrFhssCodingRate = n: int | 0 <= n <= 3
  type LrFhssGrid = n: int | 0 <= n <= 1
  type FlrcBitrate = n: int | 0 <= n <= 7
  type FlrcCodingRate = n: int | 0 <= n <= 2
  type FlrcBt = n: int | 0 <= n <= 2
  type FlrcPreambleLen = n: int | 0 <= n <= 6

  function Flag(b: bool): byte { if b then 1 else 0 }

  // Encoders yield `None` where Python raises for a value that does not fit its field;
  // decoders yield `None` where they raise ValueError.

  datatype LoRaConfig = LoRaConfig(
    freqHz: int, sf: int, bw: LoRaBandwidth, cr: LoRaCodingRate, preambleLen: int, syncWord: int,
    txPowerDbm: int, headerMode: LoRaHeaderMode, payloadCrc: bool, iqInvert: bool)
  {
    function Fields(): seq<int> {
      [freqHz, sf, bw, cr, preambleLen, syncWord, txPowerDbm, headerMode, Flag(payloadCrc), Flag(iqInvert)]
    }

    function Encode(): Option<Octets> { Pack(LORA, Fields()) }

    static function Decode(data: Octets): Option<LoRaConfig> {
      if |data| != 15 then None
      else
        LoRaSize();
        var v := Unpack(LORA, data);
        if v[2] > 13 || v[3] > 3 || v[7] > 1 || v[8] > 1 || v[9] > 1 then None
        else
          LoRaFits(v);
          Some(LoRaConfig(v[0], v[1], v[2], v[3], v[4], v[5], v[6], v[7], v[8] == 1, v[9] == 1))
    }
  }

  const LORA: Format := [I, B, B, B, H, H, SB, B, B, B]

  lemma LoRaSize()
    ensures Size(LORA) == 15
  {
    assert Size([B]) == 1;
    assert Size([B, B]) == 2;
    assert Size([B, B, B]) == 3;
    assert Size([SB, B, B, B]) == 4;
    assert Size([H, SB, B, B, B]) == 6;
    assert Size([H, H, SB, B, B, B]) == 8;
    assert Size([B, H, H, SB, B, B, B]) == 9;
    assert Size([B, B, H, H, SB, B, B, B]) == 10;
    assert Size([B, B, B, H, H, SB, B, B, B]) == 11;
    assert LORA[1..] == [B, B, B, H, H, SB, B, B, B];
  }

  lemma LoRaFits(v: seq<int>)
    requires |v| == 10
    ensures AllFit(LORA, v) <==>
            && 0 <= v[0] < 0x1_0000_0000 && 0 <= v[1] < 0x100 && 0 <= v[2] < 0x100 && 0 <= v[3] < 0x100
            && 0 <= v[4] < 0x1_0000 && 0 <= v[5] < 0x1_0000 && -0x80 <= v[6] < 0x80
            && 0 <= v[7] < 0x100 && 0 <= v[8] < 0x100 && 0 <= v[9] < 0x100
  {
    Widths();
    assert LORA[0] == I && LORA[1] == LORA[2] == LORA[3] == LORA[7] == LORA[8] == LORA[9] == B;
    assert LORA[4] == LORA[5] == H && LORA[6] == SB;
  }

  /** Encoding loses nothing and succeeds exactly when every field fits its wire width. */
  lemma LoRaDecodeEncode(c: LoRaConfig)
    ensures c.Encode().Some? <==>
            && 0 <= c.freqHz < 0x1_0000_0000 && 0 <= c.sf < 0x100 && 0 <= c.preambleLen < 0x1_0000
            && 0 <= c.syncWord < 0x1_0000 && -0x80 <= c.txPowerDbm < 0x80
    ensures c.Encode().Some? ==> LoRaConfig.Decode(c.Encode().value) == Some(c)
  {
    LoRaFits(c.Fields());
    LoRaSize();
    if c.Encode().Some? {
      UnpackPack(LORA, c.Fields(), []);
      assert c.Encode().value + [] == c.Encode().value;
    }
  }

  lemma LoRaEncodeDecode(data: Octets)
    requires LoRaConfig.Decode(data).Some?
    ensures LoRaConfig.Decode(data).value.Encode() == Some(data)
  {
    LoRaSize();
    var v := Unpack(LORA, data);
    LoRaFits(v);
    assert LoRaConfig.Decode(data).value.Fields() == v;
    PackUnpack(LORA, data);
    assert data[..15] == data;
  }

  datatype FskConfig = FskConfig(
    freqHz: int, bitrateBps: int, freqDevHz: int, rxBw: int, preambleLen: int, syncWord: Octets)
  {
    function Fields(): seq<int> { [freqHz, bitrateBps, freqDevHz, rxBw, preambleLen, |syncWord|] }

    function Encode(): Option<Octets> {
      if |syncWord| > 8 then None
      else match Pack(FSK, Fields())
        case None => None
        case Some(head) => Some(head + syncWord)
    }

    static function Decode(data: Octets): Option<FskConfig> {
      if |data| < 16 then None
      else
        FskSize();
        var v := Unpack(FSK, data);
        if v[5] > 8 || |data| != 16 + v[5] then None
        else Some(FskConfig(v[0], v[1], v[2], v[3], v[4], data[16..]))
    }
  }

  const FSK: Format := [I, I, I, B, H, B]

  lemma FskSize()
    ensures Size(FSK) == 16
  {
    assert Size([B]) == 1;
    assert Size([H, B]) == 3;
    assert Size([B, H, B]) == 4;
    assert Size([I, B, H, B]) == 8;
    assert Size([I, I, B, H, B]) == 12;
    assert FSK[1..] == [I, I, B, H, B];
  }

  lemma FskFits(v: seq<int>)
    requires |v| == 6
    ensures AllFit(FSK, v) <==>
            && 0 <= v[0] < 0x1_0000_0000 && 0 <= v[1] < 0x1_0000_0000 && 0 <= v[2] < 0x1_0000_0000
            && 0 <= v[3] < 0x100 && 0 <= v[4] < 0x1_0000 && 0 <= v[5] < 0x100
  {
    Widths();
    assert FSK[0] == FSK[1] == FSK[2] == I && FSK[3] == FSK[5] == B && FSK[4] == H;
  }

  lemma FskDecodeEncode(c: FskConfig)
    ensures c.Encode().Some? <==>
            && 0 <= c.freqHz < 0x1_0000_0000 && 0 <= c.bitrateBps < 0x1_0000_0000
            && 0 <= c.freqDevHz < 0x1_0000_0000 && 0 <= c.rxBw < 0x100 && 0 <= c.preambleLen < 0x1_0000
            && |c.syncWord| <= 8
    ensures c.Encode().Some? ==> FskConfig.Decode(c.Encode().value) == Some(c)
  {
    FskFits(c.Fields());
    FskSize();
    if c.Encode().Some? {
      UnpackPack(FSK, c.Fields(), c.syncWord);
      assert c.Encode().value[16..] == c.syncWord;
    }
  }

  lemma FskEncodeDecode(data: Octets)
    requires FskConfig.Decode(data).Some?
    ensures FskConfig.Decode(data).value.Encode() == Some(data)
  {
    FskSize();
    var v := Unpack(FSK, data);
    assert FskConfig.Decode(data).value.Fields() == v;
    PackUnpack(FSK, data);
    assert data[..16] + data[16..] == data;
  }

  datatype LrFhssConfig = LrFhssConfig(
    freqHz: int, bw: LrFhssBandwidth, cr: LrFhssCodingRate, grid: LrFhssGrid, hopping: bool, txPowerDbm: int)
  {
    function Fields(): seq<int> { [freqHz, bw, cr, grid, Flag(hopping), txPowerDbm, 0] }

    function Encode(): Option<Octets> { Pack(LR_FHSS, Fields()) }

    static function Decode(data: Octets): Option<LrFhssConfig> {
      if |data| != 10 then None
      else
        LrFhssSize();
        var v := Unpack(LR_FHSS, data);
        if v[1] > 7 || v[2] > 3 || v[3] > 1 || v[4] > 1 || v[6] != 0 then None
        else
          LrFhssFits(v);
          Some(LrFhssConfig(v[0], v[1], v[2], v[3], v[4] == 1, v[5]))
    }
  }

  const LR_FHSS: Format := [I, B, B, B, B, SB, B]

  lemma LrFhssSize()
    ensures Size(LR_FHSS) == 10
  {
    assert Size([B]) == 1;
    assert Size([SB, B]) == 2;
    assert Size([B, SB, B]) == 3;
    assert Size([B, B, SB, B]) == 4;
    assert Size([B, B, B, SB, B]) == 5;
    assert Size([B, B, B, B, SB, B]) == 6;
    assert LR_FHSS[1..] == [B, B, B, B, SB, B];
  }

  lemma LrFhssFits(v: seq<int>)
    requires |v| == 7
    ensures AllFit(LR_FHSS, v) <==>
            && 0 <= v[0] < 0x1_0000_0000 && 0 <= v[1] < 0x100 && 0 <= v[2] < 0x100 && 0 <= v[3] < 0x100
            && 0 <= v[4] < 0x100 && -0x80 <= v[5] < 0x80 && 0 <= v[6] < 0x100
  {
    Widths();
    assert LR_FHSS[0] == I && LR_FHSS[1] == LR_FHSS[2] == LR_FHSS[3] == LR_FHSS[4] == LR_FHSS[6] == B;
    assert LR_FHSS[5] == SB;
  }

  lemma LrFhssDecodeEncode(c: LrFhssConfig)
    ensures c.Encode().Some? <==> 0 <= c.freqHz < 0x1_0000_0000 && -0x80 <= c.txPowerDbm < 0x80
    ensures c.Encode().Some? ==> LrFhssConfig.Decode(c.Encode().value) == Some(c)
  {
    LrFhssFits(c.Fields());
    LrFhssSize();
    if c.Encode().Some? {
      UnpackPack(LR_FHSS, c.Fields(), []);
      assert c.Encode().value + [] == c.Encode().value;
    }
  }

  lemma LrFhssEncodeDecode(data: Octets)
    requires LrFhssConfig.Decode(data).Some?
    ensures LrFhssConfig.Decode(data).value.Encode() == Some(data)
  {
    LrFhssSize();
    var v := Unpack(LR_FHSS, data);
    LrFhssFits(v);
    assert LrFhssConfig.Decode(data).value.Fields() == v;
    PackUnpack(LR_FHSS, data);
    assert data[..10] == data;
  }

  datatype FlrcConfig = FlrcConfig(
    freqHz: int, bitrate: FlrcBitrate, cr: FlrcCodingRate, bt: FlrcBt, preambleLen: FlrcPreambleLen,
    syncWord: int, txPowerDbm: int)
  {
    function Fields(): seq<int> { [freqHz, bitrate, cr, bt, preambleLen, syncWord, txPowerDbm] }

    function Encode(): Option<Octets> { Pack(FLRC, Fields()) }

    static function Decode(data: Octets): Option<FlrcConfig> {
      if |data| != 13 then None
      else
        FlrcSize();
        var v := Unpack(FLRC, data);
        if v[1] > 7 || v[2] > 2 || v[3] > 2 || v[4] > 6 then None
        else
          FlrcFits(v);
          Some(FlrcConfig(v[0], v[1], v[2], v[3], v[4], v[5], v[6]))
    }
  }

  const FLRC: Format := [I, B, B, B, B, I, SB]

  lemma FlrcSize()
    ensures Size(FLRC) == 13
  {
    assert Size([SB]) == 1;
    assert Size([I, SB]) == 5;
    assert Size([B, I, SB]) == 6;
    assert Size([B, B, I, SB]) == 7;
    assert Size([B, B, B, I, SB]) == 8;
    assert Size([B, B, B, B, I, SB]) == 9;
    assert FLRC[1..] == [B, B, B, B, I, SB];
  }

  lemma FlrcFits(v: seq<int>)
    requires |v| == 7
    ensures AllFit(FLRC, v) <==>
            && 0 <= v[0] < 0x1_0000_0000 && 0 <= v[1] < 0x100 && 0 <= v[2] < 0x100 && 0 <= v[3] < 0x100
            && 0 <= v[4] < 0x100 && 0 <= v[5] < 0x1_0000_0000 && -0x80 <= v[6] < 0x80
  {
    Widths();
    assert FLRC[0] == FLRC[5] == I && FLRC[1] == FLRC[2] == FLRC[3] == FLRC[4] == B && FLRC[6] == SB;
  }

  lemma FlrcDecodeEncode(c: FlrcConfig)
    ensures c.Encode().Some? <==>
            && 0 <= c.freqHz < 0x1_0000_0000 && 0 <= c.syncWord < 0x1_0000_0000 && -0x80 <= c.txPowerDbm < 0x80
    ensures c.Encode().Some? ==> FlrcConfig.Decode(c.Encode().value) == Some(c)
  {
    FlrcFits(c.Fields());
    FlrcSize();
    if c.Encode().Some? {
      UnpackPack(FLRC, c.Fields(), []);
      assert c.Encode().value + [] == c.Encode().value;
    }
  }

  lemma FlrcEncodeDecode(data: Octets)
    requires FlrcConfig.Decode(data).Some?
    ensures FlrcConfig.Decode(data).value.Encode() == Some(data)
  {
    FlrcSize();
    var v := Unpack(FLRC, data);
    FlrcFits(v);
    assert FlrcConfig.Decode(data).value.Fields() == v;
    PackUnpack(FLRC, data);
    assert data[..13] == data;
  }

  // ----- the tagged union

  datatype Modulation =
    | LoRa(lora: LoRaConfig) | Fsk(fsk: FskConfig) | LrFhss(lrFhss: LrFhssConfig) | Flrc(flrc: FlrcConfig)

  function Prefix(id: byte, params: Option<Octets>): Option<Octets> {
    if params.None? then None else Some([id] + params.value)
  }

  function EncodeModulation(m: Modulation): Option<Octets> {
    match m
    case LoRa(c) => Prefix(1, c.Encode())
    case Fsk(c) => Prefix(2, c.Encode())
    case LrFhss(c) => Prefix(3, c.Encode())
    case Flrc(c) => Prefix(4, c.Encode())
  }

  function Wrap<T>(r: Option<T>, f: T -> Modulation): Option<Modulation> {
    if r.None? then None else Some(f(r.value))
  }

  function DecodeModulation(data: Octets): Option<Modulation> {
    if data == [] then None
    else
      var params := data[1..];
      match data[0]
      case 1 => Wrap(LoRaConfig.Decode(params), c => LoRa(c))
      case 2 => Wrap(FskConfig.Decode(params), c => Fsk(c))
      case 3 => Wrap(LrFhssConfig.Decode(params), c => LrFhss(c))
      case 4 => Wrap(FlrcConfig.Decode(params), c => Flrc(c))
      case _ => None
  }

  /** Whatever can be sent is read back as sent. */
  lemma ModulationRoundTrip(m: Modulation)
    requires EncodeModulation(m).Some?
    ensures DecodeModulation(EncodeModulation(m).value) == Some(m)
  {
    var data := EncodeModulation(m).value;
    match m
    case LoRa(c) => LoRaDecodeEncode(c); assert data[1..] == c.Encode().value;
    case Fsk(c) => FskDecodeEncode(c); assert data[1..] == c.Encode().value;
    case LrFhss(c) => LrFhssDecodeEncode(c); assert data[1..] == c.Encode().value;
    case Flrc(c) => FlrcDecodeEncode(c); assert data[1..] == c.Encode().value;
  }

  /** Every accepted payload is the encoding of what it decodes to. */
  lemma ModulationCanonical(data: Octets)
    requires DecodeModulation(data).Some?
    ensures EncodeModulation(DecodeModulation(data).value) == Some(data)
  {
    assert data == [data[0]] + data[1..];
    match DecodeModulation(data).value
    case LoRa(c) => LoRaEncodeDecode(data[1..]);
    case Fsk(c) => FskEncodeDecode(data[1..]);
    case LrFhss(c) => LrFhssEncodeDecode(data[1..]);
    case Flrc(c) => FlrcEncodeDecode(data[1..]);
  }
}
