/** Which frames make a command other than TX return without an answer, in any interleaving. */
module Returns {
  import opened Bytes
  import opened Events
  import opened Frame
  import opened Shared
  import opened Machine
  import opened Safety
  import opened Runs
  import opened Exchange

  // ----- every stored frame shows in the slot

  predicate Shows(slot: Slot, f: Frame) {
    match ReplyFor(slot.cmd, f)
    case Ignore => false
    case Store(SetOk(_), _) => slot.ok.Some?
    case Store(SetErr(_), _) => slot.err.Some?
    case Store(SetTxDone(_), _) => slot.txDone.Some?
  }

  ghost predicate Shown(s: State) {
    forall id, f :: (id, f) in s.stores ==> id in s.sh.slots && Shows(s.sh.slots[id], f)
  }

  lemma ShowsMore(slot: Slot, slot': Slot, f: Frame)
    requires Shows(slot, f) && SlotGrows(slot, slot')
    ensures Shows(slot', f)
  {
    hide ReplyFor;
  }

  lemma SlotGrowsIn(s: State, step: Step, id: nat)
    requires Enabled(s, step) && Slots(s) && id in s.sh.slots
    ensures id in Apply(s, step).sh.slots && SlotGrows(s.sh.slots[id], Apply(s, step).sh.slots[id])
  {
    if step.Caller? {
      hide EndingOf, TagAfter, TagAt;
      CallerFrame(s, step.caller);
    } else {
      hide Apply, SlotGrows;
      OtherSlots(s, step, id);
    }
  }

  lemma StoredShows(s: State, id: nat, f: Frame)
    requires id in s.sh.slots && (id, f) in Stored(s, id, f).stores && (id, f) !in s.stores
    ensures id in Stored(s, id, f).sh.slots && Shows(Stored(s, id, f).sh.slots[id], f)
  {
    hide ReplyFor;
  }

  lemma StepShown(s: State, step: Step)
    requires Enabled(s, step) && Slots(s) && Shown(s)
    ensures Shown(Apply(s, step))
  {
    hide Shows, SlotGrows, Stored, ReplyFor;
    var s' := Apply(s, step);
    forall id, f | (id, f) in s'.stores ensures id in s'.sh.slots && Shows(s'.sh.slots[id], f) {
      hide Apply, Enabled;
      if (id, f) in s.stores {
        SlotGrowsIn(s, step, id);
        ShowsMore(s.sh.slots[id], s'.sh.slots[id], f);
      } else {
        StoreComesFromReader(s, step, id, f);
        StoreStep(s, step, id, f);
        StoredShows(s, id, f);
      }
    }
  }

  lemma StoreStep(s: State, step: Step, id: nat, f: Frame)
    requires Enabled(s, step) && step == Reader(StoreReply) && s.reader == Holding(f, id)
    ensures id in s.sh.slots && Apply(s, step) == Stored(s, id, f)
  {
    hide Stored;
  }

  lemma {:induction false} RunShown(states: seq<State>, steps: seq<Step>, k: nat)
    requires IsRun(states, steps) && k < |states|
    ensures Shown(states[k])
    decreases k
  {
    hide Apply, Enabled, Shows;
    if k > 0 {
      hide Shown;
      RunShown(states, steps, k - 1);
      RunIsSafe(states, steps, k - 1);
      assert Follows(states[k - 1], steps[k - 1], states[k]);
      StepShown(states[k - 1], steps[k - 1]);
    }
  }

  lemma {:induction false} SlotGrowsFrom(states: seq<State>, steps: seq<Step>, j: nat, k: nat, c: nat)
    requires IsRun(states, steps) && j <= k < |states| && c in states[j].sh.slots
    ensures c in states[k].sh.slots && SlotGrows(states[j].sh.slots[c], states[k].sh.slots[c])
    decreases k
  {
    hide Apply, Enabled;
    if j < k {
      SlotGrowsFrom(states, steps, j, k - 1, c);
      RunIsSafe(states, steps, k - 1);
      assert Follows(states[k - 1], steps[k - 1], states[k]);
      SlotGrowsIn(states[k - 1], steps[k - 1], c);
    }
  }

  // ----- why a slot has an error

  ghost predicate ErrStored(s: State, c: nat, cmd: int) {
    exists f :: (c, f) in s.stores && ReplyFor(cmd, f).Store? && ReplyFor(cmd, f).update.SetErr?
  }

  /** A shutdown that treats slot `c` now puts an error in it. */
  predicate Marks(s: State, step: Step, c: nat) {
    && step == Shutdown(Mark(c)) && s.lock.Held? && c in s.sh.slots
    && (!s.lock.byReader || (s.sh.slots[c].err.None? && s.sh.slots[c].txDone.None?))
  }

  /** In the first `k` steps, a shutdown put an error in slot `c`. */
  predicate ShutBy(states: seq<State>, steps: seq<Step>, k: nat, c: nat) {
    exists m {:trigger steps[m]} :: 0 <= m < k && m < |steps| && m < |states| && Marks(states[m], steps[m], c)
  }

  lemma NewError(s: State, step: Step, c: nat)
    requires Enabled(s, step) && Slots(s) && c in Apply(s, step).sh.slots && Apply(s, step).sh.slots[c].err.Some?
    requires c !in s.sh.slots || s.sh.slots[c].err.None?
    ensures Marks(s, step, c) || ErrStored(Apply(s, step), c, Apply(s, step).sh.slots[c].cmd)
  {
    match step
    case Caller(k) => CallerNoError(s, k, c);
    case Reader(k) => ReaderError(s, k, c);
    case Shutdown(k) => ShutdownMarked(s, k, c);
    case Consumer(k) => ConsumerFrame(s, k);
  }

  lemma CallerNoError(s: State, k: CallerStep, c: nat)
    requires CallerCan(s, k) && c in ByCaller(s, k).sh.slots
    ensures ByCaller(s, k).sh.slots[c].err.Some? ==> c in s.sh.slots && s.sh.slots[c].err.Some?
  {
    hide EndingOf, TagAfter;
    CallerFrame(s, k);
  }

  lemma ReaderError(s: State, k: ReaderStep, c: nat)
    requires ReaderCan(s, k) && c in ByReader(s, k).sh.slots && ByReader(s, k).sh.slots[c].err.Some?
    requires c !in s.sh.slots || s.sh.slots[c].err.None?
    ensures ErrStored(ByReader(s, k), c, ByReader(s, k).sh.slots[c].cmd)
  {
    hide ReplyFor, Async, PacketOf;
    ReaderFrame(s, k);
    if k == StoreReply { assert (s.reader.id, s.reader.held) in ByReader(s, k).stores; }
  }

  lemma ShutdownMarked(s: State, k: ShutdownStep, c: nat)
    requires ShutdownCan(s, k) && c in ByShutdown(s, k).sh.slots && ByShutdown(s, k).sh.slots[c].err.Some?
    requires c !in s.sh.slots || s.sh.slots[c].err.None?
    ensures Marks(s, Shutdown(k), c)
  {
    ShutdownFrame(s, k);
  }

  lemma MarkSets(s: State, step: Step, c: nat)
    requires Enabled(s, step) && Marks(s, step, c)
    ensures c in Apply(s, step).sh.slots && Apply(s, step).sh.slots[c].err.Some?
  {
  }

  lemma {:induction false} ErrorHasCause(states: seq<State>, steps: seq<Step>, k: nat, c: nat)
    requires IsRun(states, steps) && k < |states| && c in states[k].sh.slots && states[k].sh.slots[c].err.Some?
    ensures ShutBy(states, steps, k, c) || ErrStored(states[k], c, states[k].sh.slots[c].cmd)
    decreases k
  {
    hide Apply, Enabled, Marks, ErrStored, ReplyFor;
    if k > 0 {
      var s, step, s' := states[k - 1], steps[k - 1], states[k];
      assert Follows(s, step, s');
      RunIsSafe(states, steps, k - 1);
      if c in s.sh.slots && s.sh.slots[c].err.Some? {
        ErrorHasCause(states, steps, k - 1, c);
        SlotGrowsIn(s, step, c);
        if ErrStored(s, c, s.sh.slots[c].cmd) { ErrStoredStays(s, step, c, s.sh.slots[c].cmd); }
      } else {
        NewError(s, step, c);
        if Marks(s, step, c) { assert Marks(states[k - 1], steps[k - 1], c); }
      }
    }
  }

  lemma ErrStoredStays(s: State, step: Step, c: nat, cmd: int)
    requires Enabled(s, step) && ErrStored(s, c, cmd)
    ensures ErrStored(Apply(s, step), c, cmd)
  {
    hide Apply, ReplyFor;
    StoresGrow(s, step);
  }

  lemma StoresGrow(s: State, step: Step)
    requires Enabled(s, step)
    ensures s.stores <= Apply(s, step).stores
  {
    if step.Caller? {
      hide ByCaller;
      CallerFrame(s, step.caller);
    } else {
      hide Apply;
      OtherFrame(s, step);
    }
  }

  lemma ShutError(states: seq<State>, steps: seq<Step>, k: nat, c: nat)
    requires IsRun(states, steps) && k < |states| && ShutBy(states, steps, k, c)
    ensures c in states[k].sh.slots && states[k].sh.slots[c].err.Some?
  {
    hide Apply, Enabled, Marks;
    var m :| 0 <= m < k && Marks(states[m], steps[m], c);
    assert Follows(states[m], steps[m], states[m + 1]);
    MarkSets(states[m], steps[m], c);
    SlotGrowsFrom(states, steps, m + 1, k, c);
  }

  // ----- where a return comes from

  predicate ReturnedEmpty(pc: Pc) { pc == Leaving(ReturnedOk(None)) || pc == Done(ReturnedOk(None)) }

  lemma EmptyStep(s: State, step: Step, c: nat)
    requires Enabled(s, step) && c < |Apply(s, step).commands| && ReturnedEmpty(Apply(s, step).commands[c].pc)
    requires c >= |s.commands| || !ReturnedEmpty(s.commands[c].pc)
    ensures step == Caller(Return(c)) && c in s.sh.slots && EndingOf(s.sh.slots[c]) == ReturnedOk(None)
  {
    if step.Caller? {
      hide EndingOf, TagAfter;
    } else {
      hide Apply;
      OtherFrame(s, step);
    }
  }

  lemma ReturningStep(s: State, step: Step, c: nat)
    requires Enabled(s, step) && c < |Apply(s, step).commands| && Apply(s, step).commands[c].pc == Returning
    requires c >= |s.commands| || s.commands[c].pc != Returning
    ensures step == Caller(CheckErr(c)) && At(s, c, Awake) && c in s.sh.slots && s.sh.slots[c].err.None?
  {
    if step.Caller? {
      hide EndingOf, TagAfter;
    } else {
      hide Apply;
      OtherFrame(s, step);
    }
  }

  lemma {:induction false} FindReturn(states: seq<State>, steps: seq<Step>, k: nat, c: nat) returns (j: nat)
    requires IsRun(states, steps) && k < |states| && c < |states[k].commands| && ReturnedEmpty(states[k].commands[c].pc)
    ensures j < k && steps[j] == Caller(Return(c)) && c in states[j].sh.slots
    ensures EndingOf(states[j].sh.slots[c]) == ReturnedOk(None)
    decreases k
  {
    hide Apply, Enabled, EndingOf;
    if k > 0 {
      assert Follows(states[k - 1], steps[k - 1], states[k]);
      if c < |states[k - 1].commands| && ReturnedEmpty(states[k - 1].commands[c].pc) {
        j := FindReturn(states, steps, k - 1, c);
      } else {
        EmptyStep(states[k - 1], steps[k - 1], c);
        j := k - 1;
      }
    } else {
      assert false;
    }
  }

  lemma {:induction false} FindCheck(states: seq<State>, steps: seq<Step>, k: nat, c: nat) returns (i: nat)
    requires IsRun(states, steps) && k < |states| && At(states[k], c, Returning)
    ensures i < k && steps[i] == Caller(CheckErr(c)) && At(states[i], c, Awake) && c in states[i].sh.slots
    ensures states[i].sh.slots[c].err.None?
    decreases k
  {
    hide Apply, Enabled;
    if k > 0 {
      assert Follows(states[k - 1], steps[k - 1], states[k]);
      if At(states[k - 1], c, Returning) {
        i := FindCheck(states, steps, k - 1, c);
      } else {
        ReturningStep(states[k - 1], steps[k - 1], c);
        i := k - 1;
      }
    } else {
      assert false;
    }
  }

  lemma EmptyStays(s: State, step: Step, c: nat)
    requires Enabled(s, step) && c < |s.commands| && ReturnedEmpty(s.commands[c].pc)
    ensures c < |Apply(s, step).commands| && ReturnedEmpty(Apply(s, step).commands[c].pc)
  {
    if step.Caller? {
      hide EndingOf, TagAfter;
    } else {
      hide Apply;
      OtherFrame(s, step);
    }
  }

  lemma {:induction false} EmptyFrom(states: seq<State>, steps: seq<Step>, j: nat, k: nat, c: nat)
    requires IsRun(states, steps) && j <= k < |states|
    requires c < |states[j].commands| && ReturnedEmpty(states[j].commands[c].pc)
    ensures c < |states[k].commands| && ReturnedEmpty(states[k].commands[c].pc)
    decreases k
  {
    hide Apply, Enabled;
    if j < k {
      EmptyFrom(states, steps, j, k - 1, c);
      assert Follows(states[k - 1], steps[k - 1], states[k]);
      EmptyStays(states[k - 1], steps[k - 1], c);
    }
  }

  // ----- the exact condition

  predicate WellFormedOk(cmd: int, f: Frame) { f.typeId == TYPE_OK && ParseOk(cmd, f.payload).Some? }

  ghost predicate OkStored(s: State, c: nat, cmd: int) { exists f :: (c, f) in s.stores && WellFormedOk(cmd, f) }

  /** Of the frames stored for command `c` there is one at least, and each is a TX_DONE that says TRANSMITTED. */
  ghost predicate OnlyStray(s: State, c: nat) {
    (exists f :: (c, f) in s.stores) && (forall f :: (c, f) in s.stores ==> StrayDone(f))
  }

  lemma Kinds(cmd: int, f: Frame)
    requires ReplyFor(cmd, f).Store?
    ensures ReplyFor(cmd, f).update.SetOk? <==> WellFormedOk(cmd, f)
    ensures ReplyFor(cmd, f).update.SetTxDone? <==> StrayDone(f)
  {
    hide ParseOk, TxDone.Decode, DecodeErr;
  }

  /** What the slot's fields say about the frames stored in it. */
  lemma SlotTells(states: seq<State>, steps: seq<Step>, k: nat, c: nat)
    requires IsRun(states, steps) && k < |states| && c in states[k].sh.slots
    ensures var s, slot := states[k], states[k].sh.slots[c];
            && (slot.ok.Some? <==> OkStored(s, c, slot.cmd))
            && (slot.txDone.Some? <==> exists f :: (c, f) in s.stores && StrayDone(f))
            && (slot.err.Some? <==> ShutBy(states, steps, k, c) || ErrStored(s, c, slot.cmd))
            && (forall f :: (c, f) in s.stores ==>
                  WellFormedOk(slot.cmd, f) || StrayDone(f) || ErrStored(s, c, slot.cmd))
  {
    hide Inv, IsRun, ReplyFor, WellFormedOk, StrayDone, ShutBy;
    RunShown(states, steps, k);
    SlotAccounted(states, steps, k, c);
    var s, slot := states[k], states[k].sh.slots[c];
    forall f | (c, f) in s.stores
      ensures ReplyFor(slot.cmd, f).Store? && Shows(slot, f)
      ensures WellFormedOk(slot.cmd, f) ==> slot.ok.Some?
      ensures StrayDone(f) ==> slot.txDone.Some?
      ensures WellFormedOk(slot.cmd, f) || StrayDone(f) || ErrStored(s, c, slot.cmd)
    {
      Kinds(slot.cmd, f);
    }
    if slot.ok.Some? {
      var f :| (c, f) in s.stores && ReplyFor(slot.cmd, f).Store?
               && ReplyFor(slot.cmd, f).update == SetOk(slot.ok.value);
      Kinds(slot.cmd, f);
    }
    if slot.txDone.Some? {
      var f :| (c, f) in s.stores && ReplyFor(slot.cmd, f).Store?
               && ReplyFor(slot.cmd, f).update == SetTxDone(slot.txDone.value);
      Kinds(slot.cmd, f);
    }
    if slot.err.Some? { ErrorHasCause(states, steps, k, c); }
    if ShutBy(states, steps, k, c) { ShutError(states, steps, k, c); }
  }

  lemma SlotAccounted(states: seq<State>, steps: seq<Step>, k: nat, c: nat)
    requires IsRun(states, steps) && k < |states| && c in states[k].sh.slots
    ensures Accounted(states[k], c, states[k].sh.slots[c])
  {
    hide IsRun, Tags, Slots, Table, Woken, ReaderOk, LockOk, Pcs, Queue;
    RunIsSafe(states, steps, k);
  }

  /** Command `c` saw no error when it looked, though only such TX_DONEs had been stored for it, and no well-formed
      OK was stored before it took its answer. */
  ghost predicate EmptyHanded(states: seq<State>, steps: seq<Step>, k: nat, c: nat, cmd: int) {
    exists i, j {:trigger steps[i], steps[j]} :: 0 <= i < j < k && j < |steps| && j < |states|
      && steps[i] == Caller(CheckErr(c)) && steps[j] == Caller(Return(c))
      && OnlyStray(states[i], c) && !ShutBy(states, steps, i, c) && !OkStored(states[j], c, cmd)
  }

  lemma SlotOf(states: seq<State>, steps: seq<Step>, k: nat, c: nat)
    requires IsRun(states, steps) && k < |states| && c in states[k].sh.slots
    ensures c < |states[k].commands| && states[k].sh.slots[c].cmd == states[k].commands[c].cmd
  {
    hide IsRun, Tags, Table, Woken, ReaderOk, LockOk, Provenance, Pcs, Queue;
    RunIsSafe(states, steps, k);
  }

  lemma {:induction false} CommandStays(states: seq<State>, steps: seq<Step>, j: nat, k: nat, c: nat)
    requires IsRun(states, steps) && j <= k < |states| && c < |states[j].commands|
    ensures c < |states[k].commands| && states[k].commands[c].cmd == states[j].commands[c].cmd
    decreases k
  {
    hide Apply, Enabled;
    if j < k {
      CommandStays(states, steps, j, k - 1, c);
      assert Follows(states[k - 1], steps[k - 1], states[k]);
      CommandKept(states[k - 1], steps[k - 1], c);
    }
  }

  lemma CommandKept(s: State, step: Step, c: nat)
    requires Enabled(s, step) && c < |s.commands|
    ensures c < |Apply(s, step).commands| && Apply(s, step).commands[c].cmd == s.commands[c].cmd
  {
    if step.Caller? {
      hide EndingOf, TagAfter;
    } else {
      hide Apply;
      OtherFrame(s, step);
    }
  }

  lemma ReturnStep(states: seq<State>, steps: seq<Step>, j: nat, c: nat)
    requires IsRun(states, steps) && j < |steps| && steps[j] == Caller(Return(c))
    ensures j + 1 < |states| && At(states[j], c, Returning) && c in states[j].sh.slots && c < |states[j + 1].commands|
    ensures states[j + 1].commands[c].pc == Leaving(EndingOf(states[j].sh.slots[c]))
  {
    hide EndingOf;
    assert Follows(states[j], steps[j], states[j + 1]);
  }

  lemma AwakeAnswered(states: seq<State>, steps: seq<Step>, i: nat, c: nat)
    requires IsRun(states, steps) && i < |states| && At(states[i], c, Awake)
    ensures Answered(states[i], c)
  {
    hide IsRun, Tags, Slots, Table, Woken, ReaderOk, LockOk, Provenance, Queue, Answered;
    RunIsSafe(states, steps, i);
    assert PcOk(states[i], c);
  }

  lemma StoredKind(s: State, c: nat, cmd: int, f: Frame)
    requires (c, f) in s.stores && !OkStored(s, c, cmd) && !ErrStored(s, c, cmd)
    ensures !WellFormedOk(cmd, f)
  {
  }

  lemma EmptyMeansStray(states: seq<State>, steps: seq<Step>, k: nat, c: nat)
    requires IsRun(states, steps) && k < |states| && c < |states[k].commands| && ReturnedEmpty(states[k].commands[c].pc)
    ensures EmptyHanded(states, steps, k, c, states[k].commands[c].cmd)
  {
    hide IsRun, ShutBy, OkStored, ErrStored, StrayDone, WellFormedOk;
    StatesAndSteps(states, steps);
    var j := FindReturn(states, steps, k, c);
    ReturnStep(states, steps, j, c);
    var i := FindCheck(states, steps, j, c);
    AwakeAnswered(states, steps, i, c);
    SlotTells(states, steps, i, c);
    SlotTells(states, steps, j, c);
    SlotGrowsFrom(states, steps, i, j, c);
    SlotOf(states, steps, j, c);
    CommandStays(states, steps, j, k, c);
    var slot := states[i].sh.slots[c];
    assert slot.ok.None? && slot.err.None? && slot.txDone.Some?;
    assert !ErrStored(states[i], c, slot.cmd) && !OkStored(states[i], c, slot.cmd);
    forall f | (c, f) in states[i].stores ensures StrayDone(f) { StoredKind(states[i], c, slot.cmd, f); }
    var f :| (c, f) in states[i].stores && StrayDone(f);
    assert OnlyStray(states[i], c);
    assert steps[i] == Caller(CheckErr(c)) && steps[j] == Caller(Return(c));
  }

  lemma StrayMeansEmpty(states: seq<State>, steps: seq<Step>, k: nat, c: nat)
    requires IsRun(states, steps) && k < |states| && c < |states[k].commands| && states[k].commands[c].cmd != TYPE_TX
    requires EmptyHanded(states, steps, k, c, states[k].commands[c].cmd)
    ensures ReturnedEmpty(states[k].commands[c].pc)
  {
    hide IsRun, ShutBy, OkStored, ErrStored, StrayDone, WellFormedOk, OnlyStray;
    var cmd := states[k].commands[c].cmd;
    var i, j :| 0 <= i < j < k && j < |steps| && j < |states|
                && steps[i] == Caller(CheckErr(c)) && steps[j] == Caller(Return(c))
                && OnlyStray(states[i], c) && !ShutBy(states, steps, i, c) && !OkStored(states[j], c, cmd);
    ReturnStep(states, steps, j, c);
    SlotTells(states, steps, j, c);
    SlotOf(states, steps, j, c);
    CommandStays(states, steps, j, k, c);
    EmptyFrom(states, steps, j + 1, k, c);
  }

  lemma StatesAndSteps(states: seq<State>, steps: seq<Step>)
    requires IsRun(states, steps)
    ensures |states| == |steps| + 1
  {
  }

  /** In every interleaving, a command other than TX returns without an answer exactly when it is so. */
  lemma EmptyReturn(states: seq<State>, steps: seq<Step>, k: nat, c: nat)
    requires IsRun(states, steps) && k < |states| && c < |states[k].commands| && states[k].commands[c].cmd != TYPE_TX
    ensures ReturnedEmpty(states[k].commands[c].pc) <==> EmptyHanded(states, steps, k, c, states[k].commands[c].cmd)
  {
    hide IsRun, OnlyStray, ShutBy, OkStored, EmptyHanded;
    if ReturnedEmpty(states[k].commands[c].pc) { EmptyMeansStray(states, steps, k, c); }
    if EmptyHanded(states, steps, k, c, states[k].commands[c].cmd) { StrayMeansEmpty(states, steps, k, c); }
  }
}
