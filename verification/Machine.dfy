/** The session as an interleaving of any number of commands, the reader thread, closers and packet
    consumers. One step is one access to shared state; lock sections that touch slots one by one are
    several steps taken while the lock is held. */
module Machine {
  import opened Bytes
  import opened Events
  import opened Frame
  import opened Shared

  datatype Ending =
    | TimedOut | WriteFailed | Raised(err: CommandError) | InternalError
    | ReturnedOk(ok: Option<OkPayload>) | ReturnedTx(txDone: TxDone)

  /** Where a command's thread is: tag allocated; slot in the table; waiting; event seen; about to raise
      `err`; about to return; result known but slot not yet removed; finished. */
  datatype Pc =
    | HasTag | Registered | Waiting | Awake | Raising | Returning
    | Leaving(ending: Ending) | Done(ending: Ending)

  /** Commands are numbered in the order they allocated their tags; slots are numbered like their commands. */
  datatype Command = Command(cmd: int, tag: int, pc: Pc)

  datatype ReaderPc =
    | Checking | Reading | Dispatching(frame: Frame) | Holding(held: Frame, id: nat) | Signalling(slot: nat)
    | Exiting | ExitLoop | Cleared | DeadSet | Gone

  /** The holder of the pending lock inside `close` or the reader's exit block, the slots it has still to
      treat, and the one whose fields it has written but not yet signalled. */
  datatype Lock = Free | Held(byReader: bool, todo: set<nat>, marked: Option<nat>)

  /** `dispatched`, `dequeued`, `drained` and `stores` are history: packets queued and taken so far, errors
      drained, and which frames the reader has stored into which slots. */
  datatype State = State(
    sh: Shared, commands: seq<Command>, reader: ReaderPc, lock: Lock, inHand: nat,
    dispatched: seq<RxEvent>, dequeued: seq<RxEvent>, drained: seq<AsyncError>, stores: set<(nat, Frame)>)

  const START := State(INITIAL, [], Checking, Free, 0, [], [], [], {})

  datatype CallerStep =
    | Alloc(cmd: int) | RegisterSlot(c: nat) | Write(c: nat, sent: bool) | Wake(c: nat) | GiveUp(c: nat)
    | CheckErr(c: nat) | Raise(c: nat) | Return(c: nat) | ForgetSlot(c: nat)

  datatype ReaderStep =
    | CheckClosed | ReadNothing | ReadCorrupt(error: FrameError) | ReadDropped | ReadFrame(frame: Frame)
    | DispatchAsync | Lookup | StoreReply | Signal | SetDead | PostSentinel

  /** `close` and the lock section of the reader's exit block. */
  datatype ShutdownStep = RequestClose | CloseLock | ExitLock | Mark(id: nat) | SignalMarked | ClearPending

  /** `next_rx`: take the head of the queue, put a taken sentinel back; draining: take the first error. */
  datatype ConsumerStep = Get | Repost | TakeError

  datatype Step =
    | Caller(caller: CallerStep) | Reader(reader: ReaderStep)
    | Shutdown(shutdown: ShutdownStep) | Consumer(consumer: ConsumerStep)

  predicate At(s: State, c: nat, pc: Pc) { c < |s.commands| && s.commands[c].pc == pc }

  predicate HasSlot(s: State, c: nat) { c < |s.commands| && c in s.sh.slots }

  predicate CallerCan(s: State, step: CallerStep) {
    match step
    case Alloc(_) => true
    case RegisterSlot(c) => At(s, c, HasTag) && s.lock == Free
    case Write(c, _) => At(s, c, Registered)
    case Wake(c) => At(s, c, Waiting) && HasSlot(s, c) && s.sh.slots[c].event
    case GiveUp(c) => At(s, c, Waiting)
    case CheckErr(c) => At(s, c, Awake) && HasSlot(s, c)
    case Raise(c) => At(s, c, Raising) && HasSlot(s, c) && s.sh.slots[c].err.Some?
    case Return(c) => At(s, c, Returning) && HasSlot(s, c)
    case ForgetSlot(c) => c < |s.commands| && s.commands[c].pc.Leaving? && s.lock == Free
  }

  function Move(s: State, c: nat, pc: Pc): State
    requires c < |s.commands|
  {
    s.(commands := s.commands[c := s.commands[c].(pc := pc)])
  }

  /** What the thread returns once it has seen its event set and no error. */
  function EndingOf(slot: Slot): Ending {
    if slot.cmd != TYPE_TX then ReturnedOk(slot.ok)
    else if slot.txDone == None then InternalError
    else ReturnedTx(slot.txDone.value)
  }

  function ByCaller(s: State, step: CallerStep): State
    requires CallerCan(s, step)
  {
    match step
    case Alloc(cmd) =>
      s.(sh := s.sh.(nextTag := TagAfter(s.sh.nextTag)), commands := s.commands + [Command(cmd, s.sh.nextTag, HasTag)])
    case RegisterSlot(c) =>
      Move(s, c, Registered).(sh := Register(s.sh, c, s.commands[c].tag, s.commands[c].cmd))
    case Write(c, sent) => Move(s, c, if sent then Waiting else Leaving(WriteFailed))
    case Wake(c) => Move(s, c, Awake)
    case GiveUp(c) => Move(s, c, Leaving(TimedOut))
    case CheckErr(c) => Move(s, c, if s.sh.slots[c].err.Some? then Raising else Returning)
    case Raise(c) => Move(s, c, Leaving(Raised(s.sh.slots[c].err.value)))
    case Return(c) => Move(s, c, Leaving(EndingOf(s.sh.slots[c])))
    case ForgetSlot(c) => Move(s, c, Done(s.commands[c].pc.ending)).(sh := Forget(s.sh, s.commands[c].tag))
  }

  predicate ReaderCan(s: State, step: ReaderStep) {
    match step
    case CheckClosed => s.reader == Checking
    case ReadNothing => s.reader == Reading
    case ReadCorrupt(_) => s.reader == Reading
    case ReadDropped => s.reader == Reading
    case ReadFrame(_) => s.reader == Reading
    case DispatchAsync => s.reader.Dispatching? && s.reader.frame.tag == 0
    case Lookup => s.reader.Dispatching? && s.reader.frame.tag != 0 && s.lock == Free
    case StoreReply => s.reader.Holding? && s.reader.id in s.sh.slots
    case Signal => s.reader.Signalling? && s.reader.slot in s.sh.slots
    case SetDead => s.reader == Cleared
    case PostSentinel => s.reader == DeadSet
  }

  function ByReader(s: State, step: ReaderStep): State
    requires ReaderCan(s, step)
  {
    match step
    case CheckClosed => s.(reader := if s.sh.closed then Exiting else Reading)
    case ReadNothing => s.(reader := Checking)
    case ReadCorrupt(e) =>
      s.(reader := Checking, sh := s.sh.(asyncErrors := s.sh.asyncErrors + [FrameFailure(e)]))
    case ReadDropped => s.(reader := Exiting)
    case ReadFrame(f) => s.(reader := Dispatching(f))
    case DispatchAsync => Asynchronous(s, s.reader.frame)
    case Lookup =>
      var f := s.reader.frame;
      s.(reader := if f.tag in s.sh.pending then Holding(f, s.sh.pending[f.tag]) else Checking)
    case StoreReply => Stored(s, s.reader.id, s.reader.held)
    case Signal => s.(reader := Checking, sh := SetEvent(s.sh, s.reader.slot))
    case SetDead => s.(reader := DeadSet, sh := s.sh.(readerDead := true))
    case PostSentinel => s.(reader := Gone, sh := s.sh.(rxQueue := s.sh.rxQueue + [DeadSentinel]))
  }

  function Asynchronous(s: State, f: Frame): State {
    s.(reader := Checking, sh := Async(s.sh, f),
       dispatched := s.dispatched + (match PacketOf(f) case None => [] case Some(rx) => [rx]))
  }

  function Stored(s: State, id: nat, f: Frame): State
    requires id in s.sh.slots
  {
    match ReplyFor(s.sh.slots[id].cmd, f)
    case Ignore => s.(reader := Checking)
    case Store(u, wake) =>
      s.(reader := if wake then Signalling(id) else Checking, sh := StoreIn(s.sh, id, u),
         stores := s.stores + {(id, f)})
  }

  predicate ShutdownCan(s: State, step: ShutdownStep) {
    match step
    case RequestClose => true
    case CloseLock => s.sh.closed && s.lock == Free
    case ExitLock => s.reader == Exiting && s.lock == Free
    case Mark(id) => s.lock.Held? && s.lock.marked == None && id in s.lock.todo && id in s.sh.slots
    case SignalMarked => s.lock.Held? && s.lock.marked.Some? && s.lock.marked.value in s.sh.slots
    case ClearPending => s.lock.Held? && s.lock.marked == None && s.lock.todo == {}
  }

  function ByShutdown(s: State, step: ShutdownStep): State
    requires ShutdownCan(s, step)
  {
    match step
    case RequestClose => s.(sh := s.sh.(closed := true))
    case CloseLock => s.(lock := Held(false, PendingIds(s.sh), None))
    case ExitLock => s.(reader := ExitLoop, lock := Held(true, PendingIds(s.sh), None))
    case Mark(id) =>
      s.(lock := s.lock.(marked := Some(id)),
         sh := s.sh.(slots := s.sh.slots[id := CloseSlot(s.sh.slots[id], s.lock.byReader)]))
    case SignalMarked =>
      var id := s.lock.marked.value;
      s.(lock := s.lock.(marked := None, todo := s.lock.todo - {id}), sh := SetEvent(s.sh, id))
    case ClearPending =>
      s.(lock := Free, reader := if s.lock.byReader then Cleared else s.reader, sh := s.sh.(pending := map[]))
  }

  predicate ConsumerCan(s: State, step: ConsumerStep) {
    match step
    case Get => s.sh.rxQueue != []
    case Repost => s.inHand > 0
    case TakeError => s.sh.asyncErrors != []
  }

  function ByConsumer(s: State, step: ConsumerStep): State
    requires ConsumerCan(s, step)
  {
    match step
    case Get =>
      var rest := s.(sh := s.sh.(rxQueue := s.sh.rxQueue[1..]));
      (match s.sh.rxQueue[0]
       case Packet(rx) => rest.(dequeued := s.dequeued + [rx])
       case DeadSentinel => rest.(inHand := s.inHand + 1))
    case Repost => s.(inHand := s.inHand - 1, sh := s.sh.(rxQueue := s.sh.rxQueue + [DeadSentinel]))
    case TakeError =>
      s.(sh := s.sh.(asyncErrors := s.sh.asyncErrors[1..]), drained := s.drained + [s.sh.asyncErrors[0]])
  }

  predicate Enabled(s: State, step: Step) {
    match step
    case Caller(k) => CallerCan(s, k)
    case Reader(k) => ReaderCan(s, k)
    case Shutdown(k) => ShutdownCan(s, k)
    case Consumer(k) => ConsumerCan(s, k)
  }

  function Apply(s: State, step: Step): State
    requires Enabled(s, step)
  {
    match step
    case Caller(k) => ByCaller(s, k)
    case Reader(k) => ByReader(s, k)
    case Shutdown(k) => ByShutdown(s, k)
    case Consumer(k) => ByConsumer(s, k)
  }

  function Successor(s: State, step: Step): Option<State> {
    if Enabled(s, step) then Some(Apply(s, step)) else None
  }

  // ----- the invariant

  predicate Live(pc: Pc) { !pc.Done? }

  predicate InTable(pc: Pc) { !pc.HasTag? && !pc.Done? }

  /** No command is still running 65535 allocations after its own. */
  predicate Window(s: State) {
    forall c :: 0 <= c < |s.commands| && Live(s.commands[c].pc) ==> |s.commands| - c <= 0xFFFF
  }

  predicate Tags(s: State) {
    && s.sh.nextTag == TagAt(|s.commands|)
    && forall c :: 0 <= c < |s.commands| ==> s.commands[c].tag == TagAt(c)
  }

  predicate Slots(s: State) {
    && (forall id :: id in s.sh.slots ==> id < |s.commands| && s.commands[id].pc != HasTag)
    && (forall c :: 0 <= c < |s.commands| && s.commands[c].pc != HasTag ==> c in s.sh.slots)
    && (forall id :: id in s.sh.slots ==> s.sh.slots[id].tag == TagAt(id) && s.sh.slots[id].cmd == s.commands[id].cmd)
  }

  /** The table maps a tag only to a command that has that tag and has not left. */
  predicate Table(s: State) {
    forall t :: t in s.sh.pending ==>
      var id := s.sh.pending[t];
      id < |s.commands| && TagAt(id) == t && InTable(s.commands[id].pc)
  }

  predicate Owns(s: State, c: nat) { TagAt(c) in s.sh.pending && s.sh.pending[TagAt(c)] == c }

  predicate Answered(s: State, c: nat) {
    c in s.sh.slots && s.sh.slots[c].event && HasOutcome(s.sh.slots[c])
  }

  /** No waiter is lost: a registered command is still in the table or has been woken with an outcome. */
  predicate Reachable(s: State) {
    forall c :: 0 <= c < |s.commands| && InTable(s.commands[c].pc) ==> Owns(s, c) || Answered(s, c)
  }

  predicate Woken(s: State) {
    forall id :: id in s.sh.slots && s.sh.slots[id].event ==> HasOutcome(s.sh.slots[id])
  }

  /** The reader holds or signals only slots that exist; what it holds has the frame's tag. */
  predicate ReaderOk(s: State) {
    && (s.reader.Holding? ==> s.reader.id in s.sh.slots && TagAt(s.reader.id) == s.reader.held.tag)
    && (s.reader.Signalling? ==> s.reader.slot in s.sh.slots && HasOutcome(s.sh.slots[s.reader.slot]))
  }

  predicate LockOk(s: State) {
    && (s.reader == ExitLoop <==> s.lock.Held? && s.lock.byReader)
    && (s.lock.Held? ==>
          && s.lock.todo <= PendingIds(s.sh)
          && (forall t :: t in s.sh.pending && s.sh.pending[t] !in s.lock.todo ==> Answered(s, s.sh.pending[t]))
          && (s.lock.marked.Some? ==>
                var id := s.lock.marked.value;
                id in s.lock.todo && id in s.sh.slots && HasOutcome(s.sh.slots[id])))
  }

  /** Some stored frame accounts for a field of slot `id`. */
  ghost predicate Explained(s: State, id: nat, cmd: int, u: Update) {
    exists f :: (id, f) in s.stores && ReplyFor(cmd, f).Store? && ReplyFor(cmd, f).update == u
  }

  predicate ShutdownError(e: CommandError) { e == SessionClosed || e == TransportClosed }

  /** `slot` holds nothing that the frames stored into slot `id`, or a shutdown, do not account for. */
  ghost predicate Accounted(s: State, id: nat, slot: Slot) {
    && (slot.ok.Some? ==> Explained(s, id, slot.cmd, SetOk(slot.ok.value)))
    && (slot.txDone.Some? ==> Explained(s, id, slot.cmd, SetTxDone(slot.txDone.value)))
    && (slot.err.Some? ==> ShutdownError(slot.err.value) || Explained(s, id, slot.cmd, SetErr(slot.err.value)))
  }

  ghost predicate Provenance(s: State) {
    && (forall id, f :: (id, f) in s.stores ==> id in s.sh.slots && f.tag == TagAt(id))
    && (forall id :: id in s.sh.slots ==> Accounted(s, id, s.sh.slots[id]))
  }

  /** An ending is accounted for by frames stored under the command's own tag, or by a shutdown. */
  ghost predicate EndingExplained(s: State, c: nat, cmd: int, r: Ending) {
    match r
    case TimedOut => true
    case WriteFailed => true
    case InternalError => false
    case Raised(e) => ShutdownError(e) || Explained(s, c, cmd, SetErr(e))
    case ReturnedOk(Some(ok)) => cmd != TYPE_TX && Explained(s, c, cmd, SetOk(ok))
    case ReturnedOk(None) => cmd != TYPE_TX && exists td :: Explained(s, c, cmd, SetTxDone(td))
    case ReturnedTx(td) => cmd == TYPE_TX && td.result == TRANSMITTED && Explained(s, c, cmd, SetTxDone(td))
  }

  ghost predicate PcOk(s: State, c: nat)
    requires c < |s.commands|
  {
    match s.commands[c].pc
    case Awake => Answered(s, c)
    case Raising => c in s.sh.slots && s.sh.slots[c].err.Some?
    case Returning =>
      c in s.sh.slots &&
      (s.sh.slots[c].txDone.Some? || (s.sh.slots[c].ok.Some? && s.sh.slots[c].cmd != TYPE_TX))
    case Leaving(r) => EndingExplained(s, c, s.commands[c].cmd, r)
    case Done(r) => EndingExplained(s, c, s.commands[c].cmd, r)
    case _ => true
  }

  ghost predicate Pcs(s: State) { forall c :: 0 <= c < |s.commands| ==> PcOk(s, c) }

  function PacketIn(item: QueueItem): seq<RxEvent> {
    match item
    case Packet(rx) => [rx]
    case DeadSentinel => []
  }

  function Packets(queue: seq<QueueItem>): seq<RxEvent> {
    if queue == [] then [] else PacketIn(queue[0]) + Packets(queue[1..])
  }

  predicate NoSentinel(queue: seq<QueueItem>) { DeadSentinel !in queue }

  /** Packets taken and packets waiting are the packets dispatched, in order; the sentinel exists once the
      reader is gone, exactly once, and always last. */
  predicate Queue(s: State) {
    && s.dequeued + Packets(s.sh.rxQueue) == s.dispatched
    && (s.reader != Gone ==> NoSentinel(s.sh.rxQueue) && s.inHand == 0)
    && (s.reader == Gone ==>
          || (s.inHand == 1 && s.sh.rxQueue == [])
          || (s.inHand == 0 && |s.sh.rxQueue| > 0 && s.sh.rxQueue[|s.sh.rxQueue| - 1] == DeadSentinel
              && NoSentinel(s.sh.rxQueue[..|s.sh.rxQueue| - 1])))
  }

  ghost predicate Inv(s: State) {
    && Tags(s) && Slots(s) && Table(s) && Woken(s) && ReaderOk(s) && LockOk(s)
    && Provenance(s) && Pcs(s) && Queue(s)
  }
}
