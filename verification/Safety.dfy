/** Every step of the session machine keeps the invariant. */
module Safety {
  import opened Sequences
  import opened Events
  import opened Frame
  import opened Shared
  import opened Machine

  // ----- what each kind of step leaves alone

  lemma AsyncFrame(sh: Shared, f: Frame)
    ensures var a := Async(sh, f);
            a.slots == sh.slots && a.pending == sh.pending && a.nextTag == sh.nextTag && a.closed == sh.closed
  {
    hide RxEvent.Decode, DecodeErr;
  }

  lemma StoredFrame(s: State, id: nat, f: Frame)
    requires id in s.sh.slots
    ensures var s' := Stored(s, id, f);
            && SameButSlots(s, s') && s'.sh.slots.Keys == s.sh.slots.Keys && s.stores <= s'.stores
            && s'.lock == s.lock && s'.commands == s.commands
  {
    hide ReplyFor;
  }

  predicate SameButSlots(s: State, s': State) {
    && s'.sh == s.sh.(slots := s'.sh.slots)
    && s'.inHand == s.inHand && s'.dispatched == s.dispatched && s'.dequeued == s.dequeued
  }

  lemma ReaderFrame(s: State, k: ReaderStep)
    requires ReaderCan(s, k)
    ensures var s' := ByReader(s, k);
            && s'.commands == s.commands && s'.lock == s.lock && s'.sh.pending == s.sh.pending
            && s'.sh.nextTag == s.sh.nextTag && s'.sh.slots.Keys == s.sh.slots.Keys
            && (k != StoreReply && k != Signal ==> s'.sh.slots == s.sh.slots)
            && s.stores <= s'.stores && (k != StoreReply ==> s'.stores == s.stores)
            && s'.reader != ExitLoop && (s.reader == ExitLoop ==> false)
  {
    hide ReplyFor, Async, PacketOf, StoreIn;
    if k == DispatchAsync { AsyncFrame(s.sh, s.reader.frame); }
    if k == StoreReply { StoredFrame(s, s.reader.id, s.reader.held); }
  }

  lemma ConsumerFrame(s: State, k: ConsumerStep)
    requires ConsumerCan(s, k)
    ensures var s' := ByConsumer(s, k);
            && s'.commands == s.commands && s'.lock == s.lock && s'.reader == s.reader && s'.stores == s.stores
            && s'.sh == s.sh.(rxQueue := s'.sh.rxQueue, asyncErrors := s'.sh.asyncErrors)
  {
  }

  lemma ShutdownFrame(s: State, k: ShutdownStep)
    requires ShutdownCan(s, k)
    ensures var s' := ByShutdown(s, k);
            && s'.commands == s.commands && s'.stores == s.stores && s'.sh.nextTag == s.sh.nextTag
            && s'.sh.slots.Keys == s.sh.slots.Keys
            && (!k.Mark? && !k.SignalMarked? ==> s'.sh.slots == s.sh.slots)
            && (k == ClearPending || s'.sh.pending == s.sh.pending)
            && s'.sh.rxQueue == s.sh.rxQueue && s'.inHand == s.inHand
            && s'.dispatched == s.dispatched && s'.dequeued == s.dequeued
  {
    hide CloseSlot;
  }

  lemma CallerFrame(s: State, k: CallerStep)
    requires CallerCan(s, k)
    ensures var s' := ByCaller(s, k);
            && s'.reader == s.reader && s'.lock == s.lock && s'.stores == s.stores
            && s'.sh.rxQueue == s.sh.rxQueue && s'.inHand == s.inHand
            && s'.dispatched == s.dispatched && s'.dequeued == s.dequeued
            && (!k.RegisterSlot? ==> s'.sh.slots == s.sh.slots)
            && (!k.RegisterSlot? && !k.ForgetSlot? ==> s'.sh.pending == s.sh.pending)
  {
    hide EndingOf, TagAfter;
  }

  /** How a slot may change: it keeps its command, loses no field, and its event is never cleared. */
  predicate SlotGrows(slot: Slot, slot': Slot) {
    && slot'.tag == slot.tag && slot'.cmd == slot.cmd && (slot.event ==> slot'.event)
    && (slot.ok.Some? ==> slot'.ok.Some?) && (slot.err.Some? ==> slot'.err.Some?)
    && (slot.txDone.Some? ==> slot'.txDone.Some?)
  }

  lemma ReaderSlots(s: State, k: ReaderStep, id: nat)
    requires ReaderCan(s, k) && id in s.sh.slots
    ensures id in ByReader(s, k).sh.slots && SlotGrows(s.sh.slots[id], ByReader(s, k).sh.slots[id])
  {
    hide ReplyFor, Async, PacketOf;
    ReaderFrame(s, k);
  }

  lemma ShutdownSlots(s: State, k: ShutdownStep, id: nat)
    requires ShutdownCan(s, k) && id in s.sh.slots
    ensures id in ByShutdown(s, k).sh.slots && SlotGrows(s.sh.slots[id], ByShutdown(s, k).sh.slots[id])
  {
    ShutdownFrame(s, k);
  }

  lemma OtherSlots(s: State, step: Step, id: nat)
    requires Enabled(s, step) && !step.Caller? && id in s.sh.slots
    ensures var s' := Apply(s, step);
            id in s'.sh.slots && SlotGrows(s.sh.slots[id], s'.sh.slots[id])
  {
    hide ByReader, ByShutdown, ByConsumer;
    match step
    case Reader(k) => ReaderSlots(s, k, id);
    case Shutdown(k) => ShutdownSlots(s, k, id);
    case Consumer(k) => ConsumerFrame(s, k);
  }

  lemma OtherFrame(s: State, step: Step)
    requires Enabled(s, step) && !step.Caller?
    ensures var s' := Apply(s, step);
            && s'.commands == s.commands && s'.sh.nextTag == s.sh.nextTag && s'.sh.slots.Keys == s.sh.slots.Keys
            && (s'.sh.pending == s.sh.pending || step == Shutdown(ClearPending))
            && s.stores <= s'.stores
  {
    hide ByReader, ByShutdown, ByConsumer;
    match step
    case Reader(k) => ReaderFrame(s, k);
    case Shutdown(k) => ShutdownFrame(s, k);
    case Consumer(k) => ConsumerFrame(s, k);
  }

  // ----- tags, slots and the table

  /** Two commands that are both still running have different tags. */
  lemma LiveTagsDiffer(s: State, c: nat, d: nat)
    requires Window(s) && c < |s.commands| && d < |s.commands| && c != d
    requires Live(s.commands[c].pc) && Live(s.commands[d].pc)
    ensures TagAt(c) != TagAt(d)
  {
    if c < d { TagsDiffer(c, d); } else { TagsDiffer(d, c); }
  }

  /** The table entry for a running command's tag can only be its own. */
  lemma TableEntryIsOwn(s: State, c: nat)
    requires Window(s) && Table(s) && c < |s.commands| && Live(s.commands[c].pc)
    ensures TagAt(c) in s.sh.pending ==> s.sh.pending[TagAt(c)] == c && InTable(s.commands[c].pc)
  {
    hide TagAt;
    if TagAt(c) in s.sh.pending {
      var d := s.sh.pending[TagAt(c)];
      if c != d { LiveTagsDiffer(s, c, d); }
    }
  }

  lemma TagsKept(s: State, step: Step)
    requires Enabled(s, step) && Tags(s)
    ensures Tags(Apply(s, step))
  {
    hide ByReader, ByShutdown, ByConsumer, TagAt, TagAfter;
    if step.Caller? { TagSequence(|s.commands|); } else { OtherFrame(s, step); }
  }

  lemma SlotsKept(s: State, step: Step)
    requires Enabled(s, step) && Tags(s) && Slots(s)
    ensures Slots(Apply(s, step))
  {
    hide ByCaller, ByReader, ByShutdown, ByConsumer;
    if step.Caller? { CallerSlots(s, step.caller); } else { OtherSlotsOk(s, step); }
  }

  lemma CallerSlots(s: State, k: CallerStep)
    requires CallerCan(s, k) && Tags(s) && Slots(s)
    ensures Slots(ByCaller(s, k))
  {
    hide TagAt, TagAfter, EndingOf;
  }

  lemma OtherSlotsOk(s: State, step: Step)
    requires Enabled(s, step) && !step.Caller? && Slots(s)
    ensures Slots(Apply(s, step))
  {
    hide Apply, TagAt;
    OtherFrame(s, step);
    forall id | id in s.sh.slots
      ensures id in Apply(s, step).sh.slots && SlotGrows(s.sh.slots[id], Apply(s, step).sh.slots[id])
    {
      OtherSlots(s, step, id);
    }
  }

  lemma TableKept(s: State, step: Step)
    requires Enabled(s, step) && Tags(s) && Table(s)
    ensures Table(Apply(s, step))
  {
    hide ByReader, ByShutdown, ByConsumer, TagAt, TagAfter, EndingOf;
    match step
    case Caller(k) => CallerTable(s, k);
    case _ =>
      OtherFrame(s, step);
      TableCleared(s, step);
  }

  lemma TableCleared(s: State, step: Step)
    requires Enabled(s, step)
    ensures step == Shutdown(ClearPending) ==> Apply(s, step).sh.pending == map[]
  {
    hide ByReader, ByCaller, ByConsumer, CloseSlot;
  }

  lemma CallerTable(s: State, k: CallerStep)
    requires CallerCan(s, k) && Tags(s) && Table(s)
    ensures Table(ByCaller(s, k))
  {
    hide TagAt, TagAfter, EndingOf;
    var s' := ByCaller(s, k);
    forall t | t in s'.sh.pending
      ensures var id := s'.sh.pending[t];
              id < |s'.commands| && TagAt(id) == t && InTable(s'.commands[id].pc)
    {
      if k.ForgetSlot? { assert TagAt(s.sh.pending[t]) == t; }
    }
  }

  // ----- no waiter is lost

  lemma ReachableKept(s: State, step: Step)
    requires Enabled(s, step) && Window(s) && Tags(s) && Slots(s) && Table(s) && Reachable(s) && LockOk(s)
    ensures Reachable(Apply(s, step))
  {
    hide Apply;
    forall c: nat | c < |Apply(s, step).commands| && InTable(Apply(s, step).commands[c].pc)
      ensures Owns(Apply(s, step), c) || Answered(Apply(s, step), c)
    {
      if step.Caller? {
        assert Apply(s, step) == ByCaller(s, step.caller) by { CallerApply(s, step.caller); }
        CallerReachable(s, step.caller, c);
      } else {
        OtherReachable(s, step, c);
      }
    }
  }

  lemma CallerApply(s: State, k: CallerStep)
    requires CallerCan(s, k)
    ensures Apply(s, Caller(k)) == ByCaller(s, k)
  {
    hide ByCaller;
  }

  lemma CallerReachable(s: State, k: CallerStep, c: nat)
    requires CallerCan(s, k) && Window(s) && Tags(s) && Slots(s) && Table(s) && Reachable(s)
    requires c < |ByCaller(s, k).commands| && InTable(ByCaller(s, k).commands[c].pc)
    ensures Owns(ByCaller(s, k), c) || Answered(ByCaller(s, k), c)
  {
    hide TagAt, TagAfter, EndingOf, Window, Table;
    match k
    case RegisterSlot(d) =>
      if c != d { LiveTagsDiffer(s, c, d); }
    case ForgetSlot(d) =>
      if c != d { LiveTagsDiffer(s, c, d); }
    case _ =>
  }

  lemma OtherReachable(s: State, step: Step, c: nat)
    requires Enabled(s, step) && !step.Caller? && Slots(s) && Reachable(s) && LockOk(s)
    requires c < |Apply(s, step).commands| && InTable(Apply(s, step).commands[c].pc)
    ensures Owns(Apply(s, step), c) || Answered(Apply(s, step), c)
  {
    hide Apply, TagAt;
    OtherFrame(s, step);
    OtherSlots(s, step, c);
    assert Answered(s, c) ==> Answered(Apply(s, step), c);
    if step == Shutdown(ClearPending) && Owns(s, c) {
      assert s.sh.pending[TagAt(c)] !in s.lock.todo;
    }
  }

  // ----- events, the reader and the lock

  lemma WokenKept(s: State, step: Step)
    requires Enabled(s, step) && Slots(s) && Woken(s) && ReaderOk(s) && LockOk(s)
    ensures Woken(Apply(s, step))
  {
    hide ByCaller, ByReader, ByShutdown, ByConsumer;
    match step
    case Caller(k) => CallerWoken(s, k);
    case Reader(k) => ReaderWoken(s, k);
    case Shutdown(k) => ShutdownWoken(s, k);
    case Consumer(k) => ConsumerFrame(s, k);
  }

  lemma CallerWoken(s: State, k: CallerStep)
    requires CallerCan(s, k) && Woken(s)
    ensures Woken(ByCaller(s, k))
  {
    hide TagAfter, EndingOf;
  }

  lemma ReaderWoken(s: State, k: ReaderStep)
    requires ReaderCan(s, k) && Woken(s) && ReaderOk(s)
    ensures Woken(ByReader(s, k))
  {
    hide ReplyFor, Async, PacketOf;
    ReaderFrame(s, k);
  }

  lemma ShutdownWoken(s: State, k: ShutdownStep)
    requires ShutdownCan(s, k) && Woken(s) && LockOk(s)
    ensures Woken(ByShutdown(s, k))
  {
  }

  lemma ReaderOkKept(s: State, step: Step)
    requires Enabled(s, step) && Slots(s) && Table(s) && ReaderOk(s)
    ensures ReaderOk(Apply(s, step))
  {
    hide ByCaller, ByReader, ByShutdown, ByConsumer, TagAt;
    match step
    case Caller(k) => CallerReaderOk(s, k);
    case Reader(k) => ReaderReaderOk(s, k);
    case Shutdown(k) => ShutdownReaderOk(s, k);
    case Consumer(k) => ConsumerFrame(s, k);
  }

  lemma CallerReaderOk(s: State, k: CallerStep)
    requires CallerCan(s, k) && Slots(s) && ReaderOk(s)
    ensures ReaderOk(ByCaller(s, k))
  {
    hide TagAt, TagAfter, EndingOf;
  }

  lemma ReaderReaderOk(s: State, k: ReaderStep)
    requires ReaderCan(s, k) && Slots(s) && Table(s) && ReaderOk(s)
    ensures ReaderOk(ByReader(s, k))
  {
    hide TagAt, Async, PacketOf;
  }

  lemma ShutdownReaderOk(s: State, k: ShutdownStep)
    requires ShutdownCan(s, k) && ReaderOk(s)
    ensures ReaderOk(ByShutdown(s, k))
  {
    hide TagAt;
  }

  lemma LockOkKept(s: State, step: Step)
    requires Enabled(s, step) && Slots(s) && Table(s) && LockOk(s)
    ensures LockOk(Apply(s, step))
  {
    hide ByCaller, ByReader, ByShutdown, ByConsumer;
    match step
    case Caller(k) => CallerLockOk(s, k);
    case Reader(k) => ReaderLockOk(s, k);
    case Shutdown(k) => ShutdownLockOk(s, k);
    case Consumer(k) => ConsumerFrame(s, k);
  }

  lemma CallerLockOk(s: State, k: CallerStep)
    requires CallerCan(s, k) && Slots(s) && Table(s) && LockOk(s)
    ensures LockOk(ByCaller(s, k))
  {
    hide TagAt, TagAfter, EndingOf, ByCaller;
    CallerFrame(s, k);
  }

  lemma ReaderLockOk(s: State, k: ReaderStep)
    requires ReaderCan(s, k) && Slots(s) && Table(s) && LockOk(s)
    ensures LockOk(ByReader(s, k))
  {
    hide TagAt, ByReader;
    ReaderFrame(s, k);
    forall id | id in s.sh.slots
      ensures id in ByReader(s, k).sh.slots && SlotGrows(s.sh.slots[id], ByReader(s, k).sh.slots[id])
    {
      ReaderSlots(s, k, id);
    }
  }

  lemma ShutdownLockOk(s: State, k: ShutdownStep)
    requires ShutdownCan(s, k) && Slots(s) && Table(s) && LockOk(s)
    ensures LockOk(ByShutdown(s, k))
  {
    hide TagAt;
  }

  // ----- every stored field and every ending comes from a frame with the command's own tag

  lemma NewExplanation(s: State, id: nat, cmd: int, f: Frame)
    requires (id, f) in s.stores && ReplyFor(cmd, f).Store?
    ensures Explained(s, id, cmd, ReplyFor(cmd, f).update)
  {
  }

  lemma AccountedGrows(s: State, s': State, id: nat, slot: Slot)
    requires s.stores <= s'.stores && Accounted(s, id, slot)
    ensures Accounted(s', id, slot)
  {
    hide ReplyFor;
  }

  lemma AccountedPut(s: State, id: nat, slot: Slot, f: Frame)
    requires Accounted(s, id, slot) && (id, f) in s.stores && ReplyFor(slot.cmd, f).Store?
    ensures Accounted(s, id, Put(slot, ReplyFor(slot.cmd, f).update))
  {
    NewExplanation(s, id, slot.cmd, f);
    hide ReplyFor, Explained;
  }

  lemma ProvenanceKept(s: State, step: Step)
    requires Enabled(s, step) && Slots(s) && Provenance(s) && ReaderOk(s)
    ensures Provenance(Apply(s, step))
  {
    hide ByCaller, ByReader, ByShutdown, ByConsumer;
    match step
    case Caller(k) => CallerProvenance(s, k);
    case Reader(k) => ReaderProvenance(s, k);
    case Shutdown(k) => ShutdownProvenance(s, k);
    case Consumer(k) => ConsumerFrame(s, k); SameProvenance(s, ByConsumer(s, k));
  }

  lemma SameProvenance(s: State, s': State)
    requires Provenance(s) && s'.sh.slots == s.sh.slots && s'.stores == s.stores
    ensures Provenance(s')
  {
    hide Explained, TagAt;
    forall id | id in s'.sh.slots ensures Accounted(s', id, s'.sh.slots[id]) {
      AccountedGrows(s, s', id, s.sh.slots[id]);
    }
  }

  lemma CallerProvenance(s: State, k: CallerStep)
    requires CallerCan(s, k) && Slots(s) && Provenance(s)
    ensures Provenance(ByCaller(s, k))
  {
    hide Explained, TagAt, TagAfter, EndingOf;
    CallerFrame(s, k);
    var s' := ByCaller(s, k);
    forall id | id in s'.sh.slots ensures Accounted(s', id, s'.sh.slots[id]) {
      if id in s.sh.slots { AccountedGrows(s, s', id, s.sh.slots[id]); }
    }
  }

  lemma ReaderProvenance(s: State, k: ReaderStep)
    requires ReaderCan(s, k) && Slots(s) && Provenance(s) && ReaderOk(s)
    ensures Provenance(ByReader(s, k))
  {
    hide Explained, TagAt;
    if k == StoreReply {
      StoredProvenance(s, s.reader.id, s.reader.held);
    } else if k == Signal {
      SignalledProvenance(s, s.reader.slot);
    } else {
      ReaderFrame(s, k);
      hide ByReader;
      SameProvenance(s, ByReader(s, k));
    }
  }

  lemma StoredProvenance(s: State, id: nat, f: Frame)
    requires Provenance(s) && id in s.sh.slots && f.tag == TagAt(id)
    ensures Provenance(Stored(s, id, f))
  {
    hide Explained, TagAt, ReplyFor, Put;
    var s' := Stored(s, id, f);
    StoredFrame(s, id, f);
    forall i | i in s'.sh.slots ensures Accounted(s', i, s'.sh.slots[i]) {
      AccountedGrows(s, s', i, s.sh.slots[i]);
      if i == id && ReplyFor(s.sh.slots[id].cmd, f).Store? { AccountedPut(s', id, s.sh.slots[id], f); }
    }
  }

  lemma SignalledProvenance(s: State, id: nat)
    requires Provenance(s) && id in s.sh.slots
    ensures Provenance(s.(reader := Checking, sh := SetEvent(s.sh, id)))
  {
    hide Explained, TagAt;
    var s' := s.(reader := Checking, sh := SetEvent(s.sh, id));
    forall i | i in s'.sh.slots ensures Accounted(s', i, s'.sh.slots[i]) {
      AccountedGrows(s, s', i, s.sh.slots[i]);
    }
  }

  lemma ShutdownProvenance(s: State, k: ShutdownStep)
    requires ShutdownCan(s, k) && Provenance(s)
    ensures Provenance(ByShutdown(s, k))
  {
    hide Explained, TagAt;
    ShutdownFrame(s, k);
    var s' := ByShutdown(s, k);
    forall i | i in s'.sh.slots ensures Accounted(s', i, s'.sh.slots[i]) {
      AccountedGrows(s, s', i, s.sh.slots[i]);
    }
  }

  lemma EndingKept(s: State, s': State, c: nat, cmd: int, r: Ending)
    requires s.stores <= s'.stores && EndingExplained(s, c, cmd, r)
    ensures EndingExplained(s', c, cmd, r)
  {
    hide ReplyFor;
  }

  lemma TransmittedOnly(s: State, id: nat, cmd: int, td: TxDone)
    requires Explained(s, id, cmd, SetTxDone(td))
    ensures td.result == TRANSMITTED
  {
  }

  lemma EndingIsExplained(s: State, c: nat)
    requires c in s.sh.slots && Accounted(s, c, s.sh.slots[c])
    requires s.sh.slots[c].txDone.Some? || (s.sh.slots[c].ok.Some? && s.sh.slots[c].cmd != TYPE_TX)
    ensures EndingExplained(s, c, s.sh.slots[c].cmd, EndingOf(s.sh.slots[c]))
  {
    hide ReplyFor, Explained;
    var slot := s.sh.slots[c];
    if slot.txDone.Some? { TransmittedOnly(s, c, slot.cmd, slot.txDone.value); }
  }

  lemma PcsKept(s: State, step: Step)
    requires Enabled(s, step) && Slots(s) && Woken(s) && Provenance(s) && Pcs(s)
    ensures Pcs(Apply(s, step))
  {
    hide Apply, PcOk;
    forall c: nat | c < |Apply(s, step).commands| ensures PcOk(Apply(s, step), c) {
      if step.Caller? {
        CallerApply(s, step.caller);
        CallerPc(s, step.caller, c);
      } else {
        OtherFrame(s, step);
        OtherPc(s, step, c);
      }
    }
  }

  lemma OtherPc(s: State, step: Step, c: nat)
    requires Enabled(s, step) && !step.Caller? && Slots(s) && c < |s.commands| && PcOk(s, c)
    requires Apply(s, step).commands == s.commands && Woken(s)
    ensures PcOk(Apply(s, step), c)
  {
    hide Apply, EndingExplained;
    OtherFrame(s, step);
    if c in s.sh.slots { OtherSlots(s, step, c); }
    match s.commands[c].pc
    case Leaving(r) => EndingKept(s, Apply(s, step), c, s.commands[c].cmd, r);
    case Done(r) => EndingKept(s, Apply(s, step), c, s.commands[c].cmd, r);
    case _ =>
  }

  lemma CallerPc(s: State, k: CallerStep, c: nat)
    requires CallerCan(s, k) && Slots(s) && Woken(s) && Provenance(s) && Pcs(s)
    requires c < |ByCaller(s, k).commands|
    ensures PcOk(ByCaller(s, k), c)
  {
    hide TagAt, TagAfter, EndingExplained, Explained, EndingOf, Accounted;
    CallerFrame(s, k);
    var s' := ByCaller(s, k);
    if c < |s.commands| {
      assert PcOk(s, c);
      var cmd := s.commands[c].cmd;
      PlainEndings(s', c, cmd);
      match s.commands[c].pc
      case Leaving(r) => EndingKept(s, s', c, cmd, r);
      case Done(r) => EndingKept(s, s', c, cmd, r);
      case Returning =>
        if k == Return(c) {
          EndingIsExplained(s, c);
          EndingKept(s, s', c, cmd, EndingOf(s.sh.slots[c]));
        }
      case Raising =>
        if k == Raise(c) {
          RaisedExplained(s, c);
          EndingKept(s, s', c, cmd, Raised(s.sh.slots[c].err.value));
        }
      case _ =>
    }
  }

  lemma RaisedExplained(s: State, c: nat)
    requires c in s.sh.slots && Accounted(s, c, s.sh.slots[c]) && s.sh.slots[c].err.Some?
    ensures EndingExplained(s, c, s.sh.slots[c].cmd, Raised(s.sh.slots[c].err.value))
  {
    hide Explained;
  }

  lemma PlainEndings(s: State, c: nat, cmd: int)
    ensures EndingExplained(s, c, cmd, TimedOut) && EndingExplained(s, c, cmd, WriteFailed)
  {
  }

  // ----- the packet queue

  lemma {:induction false} PacketsAppend(q: seq<QueueItem>, item: QueueItem)
    ensures Packets(q + [item]) == Packets(q) + PacketIn(item)
  {
    hide PacketIn;
    if q == [] {
      assert (q + [item])[1..] == [];
      assert PacketIn(item) + [] == PacketIn(item) == [] + PacketIn(item);
    } else {
      assert (q + [item])[1..] == q[1..] + [item];
      PacketsAppend(q[1..], item);
      Regroup(PacketIn(q[0]), Packets(q[1..]), PacketIn(item));
    }
  }

  lemma QueueKept(s: State, step: Step)
    requires Enabled(s, step) && Queue(s) && LockOk(s)
    ensures Queue(Apply(s, step))
  {
    hide ByCaller, ByReader, ByShutdown, ByConsumer, Packets;
    match step
    case Caller(k) => CallerFrame(s, k);
    case Reader(k) => ReaderQueue(s, k);
    case Shutdown(k) => ShutdownFrame(s, k); ReaderStays(s, k);
    case Consumer(Get) => HeadTaken(s);
    case Consumer(Repost) => Reposted(s);
    case Consumer(TakeError) => ErrorTaken(s);
  }

  lemma ReaderStays(s: State, k: ShutdownStep)
    requires ShutdownCan(s, k) && LockOk(s)
    ensures ByShutdown(s, k).reader == Gone <==> s.reader == Gone
  {
    hide CloseSlot, Answered;
  }

  lemma ReaderQueue(s: State, k: ReaderStep)
    requires ReaderCan(s, k) && Queue(s)
    ensures Queue(ByReader(s, k))
  {
    hide Packets;
    if k == DispatchAsync {
      PacketQueued(s, s.reader.frame);
    } else if k == PostSentinel {
      var q := s.sh.rxQueue;
      PacketsAppend(q, DeadSentinel);
      assert (q + [DeadSentinel])[..|q|] == q;
    } else if k == StoreReply {
      StoredFrame(s, s.reader.id, s.reader.held);
    }
  }

  lemma PacketQueued(s: State, f: Frame)
    requires Queue(s) && s.reader != Gone && f.tag == 0
    ensures Queue(Asynchronous(s, f))
  {
    hide RxEvent.Decode, DecodeErr;
    var q, rx := s.sh.rxQueue, PacketOf(f);
    if rx.Some? {
      PacketsAppend(q, Packet(rx.value));
      Regroup(s.dequeued, Packets(q), [rx.value]);
    }
  }

  lemma Reposted(s: State)
    requires ConsumerCan(s, Repost) && Queue(s)
    ensures Queue(ByConsumer(s, Repost))
  {
    PacketsAppend(s.sh.rxQueue, DeadSentinel);
  }

  lemma ErrorTaken(s: State)
    requires ConsumerCan(s, TakeError) && Queue(s)
    ensures Queue(ByConsumer(s, TakeError))
  {
    hide Packets;
  }

  lemma HeadIsPacket(q: seq<QueueItem>)
    requires |q| > 1 && NoSentinel(q[..|q| - 1])
    ensures q[0] != DeadSentinel
  {
    assert q[..|q| - 1][0] == q[0];
  }

  lemma HeadTaken(s: State)
    requires ConsumerCan(s, Get) && Queue(s)
    ensures Queue(ByConsumer(s, Get))
  {
    var q := s.sh.rxQueue;
    if s.reader == Gone && |q| > 1 {
      HeadIsPacket(q);
      assert q[1..][..|q| - 2] == q[..|q| - 1][1..];
    }
    if q[0].Packet? {
      Regroup(s.dequeued, [q[0].rx], Packets(q[1..]));
    }
  }

  lemma StepKeepsInv(s: State, step: Step)
    requires Inv(s) && Enabled(s, step)
    ensures Inv(Apply(s, step))
  {
    hide Apply, Tags, Slots, Table, Woken, ReaderOk, LockOk, Provenance, Pcs, Queue;
    TagsKept(s, step);
    SlotsKept(s, step);
    TableKept(s, step);
    WokenKept(s, step);
    ReaderOkKept(s, step);
    LockOkKept(s, step);
    ProvenanceKept(s, step);
    PcsKept(s, step);
    QueueKept(s, step);
  }
}
