/** What the session's operations do, by message number and field by field. */
module Dispatching {
  import opened Bytes
  import opened Events
  import opened Frame
  import opened Layouts
  import opened Shared
  import opened Session
  import Operations = Shared

  /** A frame without a tag: number 0xC0 is a packet and is queued, 0x81 an error of the device and is recorded;
      any other leaves no trace. */
  lemma UntaggedByNumber(sh: Shared, f: Frame)
    requires WellFormed(sh) && f.tag == 0
    ensures Operations.Dispatch(sh, f) ==
              if f.typeId == 0xC0 then
                match RxEvent.Decode(f.payload)
                case None => sh.(asyncErrors := sh.asyncErrors + [BadRxPayload])
                case Some(rx) => sh.(rxQueue := sh.rxQueue + [Packet(rx)])
              else if f.typeId == 0x81 && |f.payload| == 2 then
                sh.(asyncErrors := sh.asyncErrors + [AsyncDeviceError(U16(f.payload, 0))])
              else sh
  {
    hide RxEvent.Decode, U16, DecodeErr, ReplyFor;
    ErrLayout(f.payload, 0);
  }

  /** What a frame makes of the slot of the command it answers: number 0x80 is OK, 0x81 an error of the device, 0xC1
      the end of a transmission, with its result in the first payload byte; any other changes nothing. */
  function AnsweredBy(slot: Slot, f: Frame): Slot {
    var p := f.payload;
    if f.typeId == 0x80 then
      match ParseOk(slot.cmd, p)
      case None => slot.(err := Some(BadOkPayload), event := true)
      case Some(ok) => slot.(ok := Some(ok), event := slot.event || slot.cmd != 4)
    else if f.typeId == 0x81 && |p| == 2 then
      slot.(err := Some(DeviceError(U16(p, 0), f.tag)), event := true)
    else if f.typeId == 0xC1 && (|p| != 5 || p[0] > 2) then slot.(err := Some(BadTxDonePayload), event := true)
    else if f.typeId == 0xC1 && p[0] == 0 then slot.(txDone := Some(TxDone(0, U32(p, 1))), event := true)
    else if f.typeId == 0xC1 && p[0] == 1 then slot.(err := Some(ChannelBusy), event := true)
    else if f.typeId == 0xC1 then slot.(err := Some(Cancelled), event := true)
    else slot
  }

  lemma GivenByNumber(slot: Slot, f: Frame)
    ensures Given(slot, f) == AnsweredBy(slot, f)
  {
    hide U16, U32, ParseOk, DecodeErr, TxDone.Decode;
    ErrLayout(f.payload, 0);
    TxDoneLayout(f.payload, TxDone(0, 0));
  }

  /** A tagged frame changes the slot its tag leads to, and nothing if it leads to none. */
  lemma TaggedByNumber(sh: Shared, f: Frame)
    requires WellFormed(sh) && f.tag != 0
    ensures Operations.Dispatch(sh, f) ==
              if f.tag !in sh.pending then sh
              else
                var id := sh.pending[f.tag];
                sh.(slots := sh.slots[id := AnsweredBy(sh.slots[id], f)])
  {
    hide AnsweredBy, Given, Replied;
    if f.tag in sh.pending {
      var id := sh.pending[f.tag];
      ReplyIsGiven(sh, id, f);
      GivenByNumber(sh.slots[id], f);
    }
  }

  /** What `close` leaves: every command in the table has its error replaced and is woken. */
  lemma CloseMeans(sh: Shared)
    requires WellFormed(sh)
    ensures var after := CloseAll(sh);
            && after.closed && after.pending == map[] && after.readerDead == sh.readerDead
            && after.nextTag == sh.nextTag && after.rxQueue == sh.rxQueue && after.asyncErrors == sh.asyncErrors
            && after.slots.Keys == sh.slots.Keys
            && (forall t :: t in sh.pending ==>
                  var id := sh.pending[t];
                  after.slots[id] == sh.slots[id].(err := Some(SessionClosed), event := true))
            && (forall id :: id in sh.slots && (forall t :: t in sh.pending ==> sh.pending[t] != id) ==>
                  after.slots[id] == sh.slots[id])
  {
  }

  /** What the reader's exit leaves: every command in the table is woken, with an error unless it already had one
      or a TX_DONE; and the sentinel is in the queue. */
  lemma ExitMeans(sh: Shared)
    requires WellFormed(sh)
    ensures var after := ExitReader(sh);
            && after.readerDead && after.pending == map[] && after.closed == sh.closed
            && after.nextTag == sh.nextTag && after.asyncErrors == sh.asyncErrors
            && after.rxQueue == sh.rxQueue + [DeadSentinel] && after.slots.Keys == sh.slots.Keys
            && (forall t :: t in sh.pending ==>
                  var id := sh.pending[t];
                  var slot := sh.slots[id];
                  after.slots[id] ==
                    if slot.err == None && slot.txDone == None then
                      slot.(err := Some(TransportClosed), event := true)
                    else slot.(event := true))
            && (forall id :: id in sh.slots && (forall t :: t in sh.pending ==> sh.pending[t] != id) ==>
                  after.slots[id] == sh.slots[id])
  {
  }
}
