/** The state a session shares between its threads, and the indivisible operations on it. */
module Shared {
  import opened Bytes
  import opened Events
  import opened Frame

  datatype CommandError =
    | SessionClosed | TransportClosed | BadOkPayload | BadTxDonePayload
    | DeviceError(code: int, tag: int) | ChannelBusy | Cancelled

  datatype AsyncError = FrameFailure(error: FrameError) | BadRxPayload | AsyncDeviceError(code: int)

  /** One outstanding command. */
  datatype Slot = Slot(
    tag: int, cmd: int, event: bool, ok: Option<OkPayload>, err: Option<CommandError>, txDone: Option<TxDone>)

  datatype QueueItem = Packet(rx: RxEvent) | DeadSentinel

  datatype Shared = Shared(
    nextTag: int, pending: map<int, nat>, slots: map<nat, Slot>,
    rxQueue: seq<QueueItem>, asyncErrors: seq<AsyncError>, closed: bool, readerDead: bool)

  const INITIAL := Shared(1, map[], map[], [], [], false, false)

  // ----- tags: a counter that wraps at 16 bits and skips zero

  function TagAfter(tag: int): int {
    var next := (tag + 1) % 0x1_0000;
    if next == 0 then 1 else next
  }

  /** The tag of the `n`-th command of a session, counting from zero. */
  function TagAt(n: nat): int { n % 0xFFFF + 1 }

  lemma RemainderIs(n: int, q: int, r: int)
    requires n == 0xFFFF * q + r && 0 <= r < 0xFFFF
    ensures n % 0xFFFF == r
  {
  }

  lemma TagSequence(n: nat)
    ensures TagAt(n + 1) == TagAfter(TagAt(n))
    ensures 1 <= TagAt(n) <= 0xFFFF
  {
    var q, r := n / 0xFFFF, n % 0xFFFF;
    if r == 0xFFFE { RemainderIs(n + 1, q + 1, 0); } else { RemainderIs(n + 1, q, r + 1); }
  }

  /** Two commands share a tag exactly when a multiple of 65535 allocations lies between them. */
  lemma TagRepeats(m: nat, n: nat)
    requires m <= n
    ensures TagAt(m) == TagAt(n) <==> (n - m) % 0xFFFF == 0
  {
    var p, q, r, s := m / 0xFFFF, n / 0xFFFF, m % 0xFFFF, n % 0xFFFF;
    if r <= s { RemainderIs(n - m, q - p, s - r); } else { RemainderIs(n - m, q - p - 1, s - r + 0xFFFF); }
  }

  lemma TagsDiffer(m: nat, n: nat)
    requires m < n && n - m < 0xFFFF
    ensures TagAt(m) != TagAt(n)
  {
    TagRepeats(m, n);
  }

  // ----- the pending table

  function Register(sh: Shared, id: nat, tag: int, cmd: int): Shared {
    sh.(slots := sh.slots[id := Slot(tag, cmd, false, None, None, None)], pending := sh.pending[tag := id])
  }

  function Forget(sh: Shared, tag: int): Shared { sh.(pending := sh.pending - {tag}) }

  /** The slots the table refers to. */
  function PendingIds(sh: Shared): set<nat> { set t | t in sh.pending :: sh.pending[t] }

  // ----- replies

  datatype Update = SetOk(ok: OkPayload) | SetErr(err: CommandError) | SetTxDone(txDone: TxDone)

  /** What a tagged frame does to the command it is for: nothing, or one field stored and perhaps the waiter woken. */
  datatype Reply = Ignore | Store(update: Update, wake: bool)

  function ReplyFor(cmd: int, f: Frame): Reply {
    if f.typeId == TYPE_OK then
      match ParseOk(cmd, f.payload)
      case None => Store(SetErr(BadOkPayload), true)
      case Some(ok) => Store(SetOk(ok), cmd != TYPE_TX)
    else if f.typeId == TYPE_ERR then
      match DecodeErr(f.payload)
      case None => Ignore
      case Some(code) => Store(SetErr(DeviceError(code, f.tag)), true)
    else if f.typeId == TYPE_TX_DONE then
      match TxDone.Decode(f.payload)
      case None => Store(SetErr(BadTxDonePayload), true)
      case Some(td) =>
        if td.result == CHANNEL_BUSY then Store(SetErr(ChannelBusy), true)
        else if td.result == CANCELLED then Store(SetErr(Cancelled), true)
        else Store(SetTxDone(td), true)
    else Ignore
  }

  function Put(slot: Slot, u: Update): Slot {
    match u
    case SetOk(ok) => slot.(ok := Some(ok))
    case SetErr(e) => slot.(err := Some(e))
    case SetTxDone(td) => slot.(txDone := Some(td))
  }

  function StoreIn(sh: Shared, id: nat, u: Update): Shared
    requires id in sh.slots
  {
    sh.(slots := sh.slots[id := Put(sh.slots[id], u)])
  }

  function SetEvent(sh: Shared, id: nat): Shared
    requires id in sh.slots
  {
    sh.(slots := sh.slots[id := sh.slots[id].(event := true)])
  }

  /** The closing thread overwrites `err`; the exiting reader only fills it in when nothing else answered. */
  function CloseSlot(slot: Slot, byReader: bool): Slot {
    if !byReader then slot.(err := Some(SessionClosed))
    else if slot.err.None? && slot.txDone.None? then slot.(err := Some(TransportClosed))
    else slot
  }

  /** A command whose waiter may be woken: an error, a TX_DONE, or for anything but TX an OK. */
  predicate HasOutcome(slot: Slot) {
    slot.err.Some? || slot.txDone.Some? || (slot.ok.Some? && slot.cmd != TYPE_TX)
  }

  // ----- asynchronous frames (tag zero)

  function PacketOf(f: Frame): Option<RxEvent> {
    if f.tag == 0 && f.typeId == TYPE_RX then RxEvent.Decode(f.payload) else None
  }

  function Async(sh: Shared, f: Frame): Shared {
    if f.typeId == TYPE_RX then
      match RxEvent.Decode(f.payload)
      case None => sh.(asyncErrors := sh.asyncErrors + [BadRxPayload])
      case Some(rx) => sh.(rxQueue := sh.rxQueue + [Packet(rx)])
    else if f.typeId == TYPE_ERR then
      match DecodeErr(f.payload)
      case None => sh
      case Some(code) => sh.(asyncErrors := sh.asyncErrors + [AsyncDeviceError(code)])
    else sh
  }

  /** `_dispatch` run without interruption. */
  function Dispatch(sh: Shared, f: Frame): Shared
    requires forall t :: t in sh.pending ==> sh.pending[t] in sh.slots
  {
    if f.tag == 0 then Async(sh, f)
    else if f.tag !in sh.pending then sh
    else
      Replied(sh, sh.pending[f.tag], f)
  }

  function Replied(sh: Shared, id: nat, f: Frame): Shared
    requires id in sh.slots
  {
    match ReplyFor(sh.slots[id].cmd, f)
    case Ignore => sh
    case Store(u, wake) => if wake then SetEvent(StoreIn(sh, id, u), id) else StoreIn(sh, id, u)
  }

  /** The slot after the dispatcher has treated a frame for it. */
  function Given(slot: Slot, f: Frame): Slot {
    match ReplyFor(slot.cmd, f)
    case Ignore => slot
    case Store(u, wake) => if wake then Put(slot, u).(event := true) else Put(slot, u)
  }

  lemma ReplyIsGiven(sh: Shared, id: nat, f: Frame)
    requires id in sh.slots
    ensures Replied(sh, id, f) == sh.(slots := sh.slots[id := Given(sh.slots[id], f)])
  {
    hide ReplyFor, Put;
  }
}
