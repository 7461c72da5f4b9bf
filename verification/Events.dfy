/** Device-to-host payloads: OK, ERR, RX and TX_DONE. */
module Events {
  import opened Bytes
  import opened Modulation
  import Info

  const TYPE_PING := 0x01
  const TYPE_GET_INFO := 0x02
  const TYPE_SET_CONFIG := 0x03
  const TYPE_TX := 0x04
  const TYPE_RX_START := 0x05
  const TYPE_RX_STOP := 0x06

  const TYPE_OK := 0x80
  const TYPE_ERR := 0x81
  const TYPE_RX := 0xC0
  const TYPE_TX_DONE := 0xC1

  type SetConfigResultCode = n: int | 0 <= n <= 2
  type Owner = n: int | 0 <= n <= 2

  datatype SetConfigResult = SetConfigResult(result: SetConfigResultCode, owner: Owner, current: Modulation) {
    function Encode(): Option<Octets> {
      match EncodeModulation(current)
      case None => None
      case Some(m) => Some([result, owner] + m)
    }

    static function Decode(data: Octets): Option<SetConfigResult> {
      if |data| < 2 || data[0] > 2 || data[1] > 2 then None
      else match DecodeModulation(data[2..])
        case None => None
        case Some(m) => Some(SetConfigResult(data[0], data[1], m))
    }
  }

  lemma SetConfigResultRoundTrip(r: SetConfigResult)
    requires r.Encode().Some?
    ensures SetConfigResult.Decode(r.Encode().value) == Some(r)
  {
    ModulationRoundTrip(r.current);
    assert r.Encode().value[2..] == EncodeModulation(r.current).value;
  }

  lemma SetConfigResultCanonical(data: Octets)
    requires SetConfigResult.Decode(data).Some?
    ensures SetConfigResult.Decode(data).value.Encode() == Some(data)
  {
    ModulationCanonical(data[2..]);
    assert data == [data[0], data[1]] + data[2..];
  }

  type TxResult = n: int | 0 <= n <= 2
  const TRANSMITTED: TxResult := 0
  const CHANNEL_BUSY: TxResult := 1
  const CANCELLED: TxResult := 2

  const TX_DONE: Format := [B, I]

  lemma TxDoneSize()
    ensures Size(TX_DONE) == 5
  {
    assert Size([I]) == 4;
    assert TX_DONE[1..] == [I];
  }

  datatype TxDone = TxDone(result: TxResult, airtimeUs: int) {
    function Encode(): Option<Octets> { Pack(TX_DONE, [result, airtimeUs]) }

    static function Decode(data: Octets): Option<TxDone> {
      if |data| != 5 then None
      else
        TxDoneSize();
        var v := Unpack(TX_DONE, data);
        if v[0] > 2 then None
        else
          assert TX_DONE[0].Fits(v[0]);
          Some(TxDone(v[0], v[1]))
    }
  }

  /** Sent and read back, read and sent back: the same. */
  lemma TxDoneCodec(t: TxDone, data: Octets)
    ensures t.Encode().Some? ==> TxDone.Decode(t.Encode().value) == Some(t)
    ensures TxDone.Decode(data).Some? ==> TxDone.Decode(data).value.Encode() == Some(data)
  {
    TxDoneSize();
    if t.Encode().Some? {
      UnpackPack(TX_DONE, [t.result, t.airtimeUs], []);
      assert t.Encode().value + [] == t.Encode().value;
    }
    if TxDone.Decode(data).Some? {
      var v := Unpack(TX_DONE, data);
      PackUnpack(TX_DONE, data);
      assert v == [v[0], v[1]] && data[..5] == data;
    }
  }

  type RxOrigin = n: int | 0 <= n <= 1

  /** RSSI and SNR in tenths, as on the wire. */
  datatype RxEvent = RxEvent(
    rssiTenths: int, snrTenths: int, freqErrHz: int, timestampUs: int, crcValid: bool,
    packetsDropped: int, origin: RxOrigin, data: Octets)
  {
    function Fields(): seq<int> {
      [rssiTenths, snrTenths, freqErrHz, timestampUs, Flag(crcValid), packetsDropped, origin]
    }

    function Encode(): Option<Octets> {
      match Pack(RX, Fields())
      case None => None
      case Some(head) => Some(head + data)
    }

    static function Decode(data: Octets): Option<RxEvent> {
      if |data| < METADATA_SIZE then None
      else
        RxSize();
        var v := Unpack(RX, data);
        if v[4] > 1 || v[6] > 1 then None
        else
          assert RX[4].Fits(v[4]) && RX[6].Fits(v[6]);
          Some(RxEvent(v[0], v[1], v[2], v[3], v[4] == 1, v[5], v[6], data[METADATA_SIZE..]))
    }
  }

  const METADATA_SIZE := 20
  const RX: Format := [SH, SH, SI, Q, B, H, B]

  lemma RxSize()
    ensures Size(RX) == METADATA_SIZE
  {
    assert Size([B]) == 1;
    assert Size([H, B]) == 3;
    assert Size([B, H, B]) == 4;
    assert Size([Q, B, H, B]) == 12;
    assert Size([SI, Q, B, H, B]) == 16;
    assert Size([SH, SI, Q, B, H, B]) == 18;
    assert RX[1..] == [SH, SI, Q, B, H, B];
  }

  /** A packet event is read back as it was sent, and every accepted payload is one that is sent. */
  lemma RxEventRoundTrip(rx: RxEvent)
    requires rx.Encode().Some?
    ensures RxEvent.Decode(rx.Encode().value) == Some(rx)
    ensures |rx.Encode().value| == METADATA_SIZE + |rx.data|
  {
    RxSize();
    UnpackPack(RX, rx.Fields(), rx.data);
    assert rx.Encode().value[METADATA_SIZE..] == rx.data;
  }

  lemma RxEventCanonical(data: Octets)
    requires RxEvent.Decode(data).Some?
    ensures RxEvent.Decode(data).value.Encode() == Some(data)
  {
    RxSize();
    var v := Unpack(RX, data);
    assert RX[4].Fits(v[4]) && RX[6].Fits(v[6]);
    assert RxEvent.Decode(data).value.Fields() == v;
    PackUnpack(RX, data);
    assert data[..METADATA_SIZE] + data[METADATA_SIZE..] == data;
  }

  datatype OkPayload = Empty | OkInfo(info: Info.Info) | OkConfig(config: SetConfigResult)

  predicate EmptyReply(cmdType: int) {
    cmdType == TYPE_PING || cmdType == TYPE_TX || cmdType == TYPE_RX_START || cmdType == TYPE_RX_STOP
  }

  /** `None` where Python raises ValueError. */
  function ParseOk(cmdType: int, payload: Octets): Option<OkPayload> {
    if EmptyReply(cmdType) then (if payload != [] then None else Some(Empty))
    else if cmdType == TYPE_GET_INFO then
      (match Info.Info.Decode(payload) case None => None case Some(i) => Some(OkInfo(i)))
    else if cmdType == TYPE_SET_CONFIG then
      (match SetConfigResult.Decode(payload) case None => None case Some(r) => Some(OkConfig(r)))
    else None
  }

  /** What a device sends to accept a command. */
  function EncodeOk(cmdType: int, ok: OkPayload): Option<Octets> {
    match ok
    case Empty => if EmptyReply(cmdType) then Some([]) else None
    case OkInfo(i) => if cmdType == TYPE_GET_INFO then i.Encode() else None
    case OkConfig(r) => if cmdType == TYPE_SET_CONFIG then r.Encode() else None
  }

  /** An OK payload is read back as sent; and what is accepted is what a device sends for that command and
      no other, but for trailing bytes after an info. */
  lemma OkCodec(cmdType: int, ok: OkPayload, data: Octets)
    ensures EncodeOk(cmdType, ok).Some? ==> ParseOk(cmdType, EncodeOk(cmdType, ok).value) == Some(ok)
    ensures ParseOk(cmdType, data).Some? ==>
              var e := EncodeOk(cmdType, ParseOk(cmdType, data).value);
              e.Some? && e.value <= data && (cmdType != TYPE_GET_INFO ==> e.value == data)
  {
    hide Info.Info.Encode, Info.Info.Decode, SetConfigResult.Encode, SetConfigResult.Decode;
    if EncodeOk(cmdType, ok).Some? {
      match ok
      case Empty =>
      case OkInfo(i) =>
        Info.InfoRoundTrip(i, []);
        assert i.Encode().value + [] == i.Encode().value;
      case OkConfig(r) => SetConfigResultRoundTrip(r);
    }
    if ParseOk(cmdType, data).Some? {
      if cmdType == TYPE_GET_INFO { Info.InfoCanonical(data); }
      if cmdType == TYPE_SET_CONFIG { SetConfigResultCanonical(data); }
    }
  }

  /** Error codes are u16; unknown ones are kept as they are. */
  function EncodeErr(code: int): Option<Octets> { Pack([H], [code]) }

  function DecodeErr(data: Octets): Option<int> {
    if |data| != 2 then None else Some(LeVal(data))
  }

  lemma ErrCodec(code: int, data: Octets)
    ensures EncodeErr(code).Some? ==> DecodeErr(EncodeErr(code).value) == Some(code)
    ensures DecodeErr(data).Some? ==> EncodeErr(DecodeErr(data).value) == Some(data)
  {
    PackOne(code);
    if EncodeErr(code).Some? {
      LeRoundTrip(code, 2);
    }
    if DecodeErr(data).Some? {
      LeValRoundTrip(data);
      PackOne(LeVal(data));
    }
  }

  lemma PackOne(n: int)
    ensures EncodeErr(n) == if 0 <= n < Pow256(2) then Some(Le(n, 2)) else None
  {
    assert [H][1..] == [] && [n][1..] == [];
    if 0 <= n < Pow256(2) {
      assert H.Fits(n) && H.Raw(n) == n;
      assert Pack([], []) == Some([]);
      assert Le(n, 2) + [] == Le(n, 2);
    }
  }
}
