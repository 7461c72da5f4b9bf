/** Each session method, run alone, is a run of the interleaving machine with the same effect. */
module Refinement {
  import opened Bytes
  import opened Sequences
  import opened Frame
  import opened Stream
  import opened Shared
  import opened Machine
  import opened Session
  import Operations = Shared

  // ----- the reader's dispatch

  /** Nothing but the reader's position, the shared state and the history differs. */
  predicate SameThreads(s: State, s': State) {
    s'.commands == s.commands && s'.lock == s.lock && s'.inHand == s.inHand && s'.dequeued == s.dequeued
  }

  lemma DispatchRefined(s: State, f: Frame) returns (steps: seq<Step>)
    requires WellFormed(s.sh) && s.reader == Dispatching(f) && s.lock == Free
    ensures var end := Play(Successor, s, steps);
            && end.Some? && SameThreads(s, end.value)
            && end.value.reader == Checking && end.value.sh == Operations.Dispatch(s.sh, f)
  {
    hide ReplyFor, Async, PacketOf, Put, Play, WellFormed;
    if f.tag == 0 {
      steps := [Reader(DispatchAsync)];
      PlayOne(Successor, s, Reader(DispatchAsync));
    } else if f.tag !in s.sh.pending {
      steps := [Reader(Lookup)];
      PlayOne(Successor, s, Reader(Lookup));
    } else {
      var id := s.sh.pending[f.tag];
      EntryHasSlot(s.sh, f.tag);
      var held := s.(reader := Holding(f, id));
      var rest := StoreRefined(held, id, f);
      steps := [Reader(Lookup)] + rest;
      PlayFirst(Successor, s, Reader(Lookup), rest);
    }
  }

  lemma EntryHasSlot(sh: Shared, tag: int)
    requires WellFormed(sh) && tag in sh.pending
    ensures sh.pending[tag] in sh.slots
  {
  }

  lemma StoreRefined(s: State, id: nat, f: Frame) returns (steps: seq<Step>)
    requires s.reader == Holding(f, id) && id in s.sh.slots
    ensures var end := Play(Successor, s, steps);
            && end.Some? && SameThreads(s, end.value)
            && end.value.reader == Checking && end.value.sh == Replied(s.sh, id, f)
  {
    hide ReplyFor, Put, Play;
    var stored := Stored(s, id, f);
    match ReplyFor(s.sh.slots[id].cmd, f)
    case Ignore =>
      steps := [Reader(StoreReply)];
      PlayOne(Successor, s, Reader(StoreReply));
    case Store(u, wake) =>
      if wake {
        steps := [Reader(StoreReply)] + [Reader(Signal)];
        PlayFirst(Successor, s, Reader(StoreReply), [Reader(Signal)]);
        PlayOne(Successor, stored, Reader(Signal));
      } else {
        steps := [Reader(StoreReply)];
        PlayOne(Successor, s, Reader(StoreReply));
      }
  }

  // ----- the locked sections

  lemma {:induction false} SweepRefined(s: State) returns (steps: seq<Step>)
    requires s.lock.Held? && s.lock.marked == None && s.lock.todo <= s.sh.slots.Keys
    ensures Play(Successor, s, steps) == Some(s.(lock := s.lock.(todo := {}),
                                      sh := s.sh.(slots := SweptSlots(s.sh.slots, s.lock.todo, s.lock.byReader))))
    decreases |s.lock.todo|
  {
    hide Play, CloseSlot, SweptSlots;
    var todo, slots := s.lock.todo, s.sh.slots;
    if todo == {} {
      SweepNone(slots, s.lock.byReader);
      steps := [];
      PlayNone(Successor, s);
    } else {
      var id :| id in todo;
      var marked := Apply(s, Shutdown(Mark(id)));
      var signalled := Apply(marked, Shutdown(SignalMarked));
      SweptOnce(slots, todo, id, s.lock.byReader);
      assert signalled == s.(lock := s.lock.(todo := todo - {id}),
                             sh := s.sh.(slots := slots[id := ShutSlot(slots[id], s.lock.byReader)]));
      var rest := SweepRefined(signalled);
      steps := [Shutdown(Mark(id))] + ([Shutdown(SignalMarked)] + rest);
      PlayFirst(Successor, s, Shutdown(Mark(id)), [Shutdown(SignalMarked)] + rest);
      PlayFirst(Successor, marked, Shutdown(SignalMarked), rest);
    }
  }

  lemma SweptOnce(slots: map<nat, Slot>, todo: set<nat>, id: nat, byReader: bool)
    requires id in todo && id in slots
    ensures SweptSlots(slots, todo, byReader)
         == SweptSlots(slots[id := ShutSlot(slots[id], byReader)], todo - {id}, byReader)
  {
  }

  lemma TableHasSlots(sh: Shared)
    requires WellFormed(sh)
    ensures PendingIds(sh) <= sh.slots.Keys
  {
  }

  lemma CloseRefined(s: State) returns (steps: seq<Step>)
    requires WellFormed(s.sh) && s.lock == Free
    ensures Play(Successor, s, steps) == Some(s.(sh := CloseAll(s.sh)))
  {
    hide Play, SweptSlots, PendingIds, WellFormed;
    TableHasSlots(s.sh);
    var asked := Apply(s, Shutdown(RequestClose));
    assert PendingIds(asked.sh) == PendingIds(s.sh) by { SamePending(asked.sh, s.sh); }
    var locked := Apply(asked, Shutdown(CloseLock));
    var sweep := SweepRefined(locked);
    var swept := Play(Successor, locked, sweep).value;
    PlayOne(Successor, swept, Shutdown(ClearPending));
    PlayMore(Successor, locked, sweep, [Shutdown(ClearPending)]);
    var rest := sweep + [Shutdown(ClearPending)];
    PlayFirst(Successor, asked, Shutdown(CloseLock), rest);
    steps := [Shutdown(RequestClose)] + ([Shutdown(CloseLock)] + rest);
    PlayFirst(Successor, s, Shutdown(RequestClose), [Shutdown(CloseLock)] + rest);
  }

  lemma SamePending(a: Shared, b: Shared)
    requires a.pending == b.pending
    ensures PendingIds(a) == PendingIds(b)
  {
  }

  lemma ExitRefined(s: State) returns (steps: seq<Step>)
    requires WellFormed(s.sh) && s.lock == Free && s.reader == Exiting
    ensures Play(Successor, s, steps) == Some(s.(sh := ExitReader(s.sh), reader := Gone))
  {
    hide Play, SweptSlots, PendingIds, WellFormed;
    TableHasSlots(s.sh);
    var locked := Apply(s, Shutdown(ExitLock));
    var sweep := SweepRefined(locked);
    var swept := Play(Successor, locked, sweep).value;
    var cleared := Apply(swept, Shutdown(ClearPending));
    var dead := Apply(cleared, Reader(SetDead));
    PlayOne(Successor, dead, Reader(PostSentinel));
    PlayFirst(Successor, cleared, Reader(SetDead), [Reader(PostSentinel)]);
    var tail := [Reader(SetDead)] + [Reader(PostSentinel)];
    PlayFirst(Successor, swept, Shutdown(ClearPending), tail);
    PlayMore(Successor, locked, sweep, [Shutdown(ClearPending)] + tail);
    var rest := sweep + ([Shutdown(ClearPending)] + tail);
    PlayFirst(Successor, s, Shutdown(ExitLock), rest);
    steps := [Shutdown(ExitLock)] + rest;
  }

  // ----- the reader loop

  lemma TurnRefined(s: State, o: Outcome) returns (steps: seq<Step>)
    requires WellFormed(s.sh) && s.lock == Free && s.reader == Checking && !s.sh.closed && o != Dropped
    ensures var end := Play(Successor, s, steps);
            && end.Some? && SameThreads(s, end.value)
            && end.value.reader == Checking && end.value.sh == Handle(s.sh, o)
  {
    hide Play, Operations.Dispatch, WellFormed;
    var reading := Apply(s, Reader(CheckClosed));
    match o
    case Nothing =>
      steps := [Reader(CheckClosed)] + [Reader(ReadNothing)];
      PlayOne(Successor, reading, Reader(ReadNothing));
      PlayFirst(Successor, s, Reader(CheckClosed), [Reader(ReadNothing)]);
    case Corrupt(e) =>
      steps := [Reader(CheckClosed)] + [Reader(ReadCorrupt(e))];
      PlayOne(Successor, reading, Reader(ReadCorrupt(e)));
      PlayFirst(Successor, s, Reader(CheckClosed), [Reader(ReadCorrupt(e))]);
    case Delivered(f) =>
      var got := Apply(reading, Reader(ReadFrame(f)));
      var rest := DispatchRefined(got, f);
      PlayFirst(Successor, reading, Reader(ReadFrame(f)), rest);
      steps := [Reader(CheckClosed)] + ([Reader(ReadFrame(f))] + rest);
      PlayFirst(Successor, s, Reader(CheckClosed), [Reader(ReadFrame(f))] + rest);
  }

  lemma {:induction false} TurnsRefined(s: State, os: seq<Outcome>) returns (steps: seq<Step>)
    requires WellFormed(s.sh) && s.lock == Free && s.reader == Checking && !s.sh.closed && Dropped !in os
    ensures var end := Play(Successor, s, steps);
            && end.Some? && SameThreads(s, end.value)
            && end.value.reader == Checking && end.value.sh == HandleAll(s.sh, os)
    decreases |os|
  {
    hide Play, Handle, WellFormed;
    if os == [] {
      steps := [];
      PlayNone(Successor, s);
    } else {
      var first := TurnRefined(s, os[0]);
      var s1 := Play(Successor, s, first).value;
      HandleKeeps(s.sh, os[0]);
      var rest := TurnsRefined(s1, os[1..]);
      PlayMore(Successor, s, first, rest);
      steps := first + rest;
    }
  }

  lemma {:induction false} NoDropIn(script: Script)
    ensures Dropped !in ReadAll(script)
    decreases |script|
  {
    hide Next;
    if script != [] && Next([], script).0 != Dropped {
      NoDropIn(Next([], script).1);
    }
  }

  /** `_reader_loop` over a transport that yields `script` and then drops. */
  lemma ReaderLoopRefined(s: State, script: Script) returns (steps: seq<Step>)
    requires WellFormed(s.sh) && s.lock == Free && s.reader == Checking
    ensures var end := Play(Successor, s, steps);
            && end.Some? && SameThreads(s, end.value) && end.value.reader == Gone
            && end.value.sh == ExitReader(HandleAll(s.sh, if s.sh.closed then [] else ReadAll(script)))
  {
    hide Play, HandleAll, ReadAll, ExitReader, WellFormed;
    HandleNone(s.sh);
    if s.sh.closed {
      var leaving := Apply(s, Reader(CheckClosed));
      var exit := ExitRefined(leaving);
      steps := [Reader(CheckClosed)] + exit;
      PlayFirst(Successor, s, Reader(CheckClosed), exit);
    } else {
      NoDropIn(script);
      var turns := TurnsRefined(s, ReadAll(script));
      var s1 := Play(Successor, s, turns).value;
      var reading := Apply(s1, Reader(CheckClosed));
      var leaving := Apply(reading, Reader(ReadDropped));
      var exit := ExitRefined(leaving);
      PlayFirst(Successor, reading, Reader(ReadDropped), exit);
      PlayFirst(Successor, s1, Reader(CheckClosed), [Reader(ReadDropped)] + exit);
      steps := turns + ([Reader(CheckClosed)] + ([Reader(ReadDropped)] + exit));
      PlayMore(Successor, s, turns, [Reader(CheckClosed)] + ([Reader(ReadDropped)] + exit));
    }
  }

  // ----- the short operations

  /** `next_rx`: nothing on an empty queue; a packet is taken for good; a sentinel is put back. */
  lemma NextRxRefined(s: State) returns (steps: seq<Step>)
    ensures var end := Play(Successor, s, steps);
            && end.Some? && end.value.sh == NextRxOf(s.sh).1 && end.value.inHand == s.inHand
            && end.value.dequeued == s.dequeued + (match NextRxOf(s.sh).0 case Some(rx) => [rx] case None => [])
  {
    hide Play;
    if s.sh.rxQueue == [] {
      steps := [];
      PlayNone(Successor, s);
    } else {
      var got := Apply(s, Consumer(Get));
      PlayOne(Successor, s, Consumer(Get));
      steps := [Consumer(Get)];
      if s.sh.rxQueue[0] == DeadSentinel {
        PlayOne(Successor, got, Consumer(Repost));
        PlayFirst(Successor, s, Consumer(Get), [Consumer(Repost)]);
        steps := [Consumer(Get)] + [Consumer(Repost)];
      }
    }
  }

  /** `drain_async_errors`. */
  lemma {:induction false} DrainRefined(s: State) returns (steps: seq<Step>)
    ensures Play(Successor, s, steps)
         == Some(s.(sh := s.sh.(asyncErrors := []), drained := s.drained + s.sh.asyncErrors))
    decreases |s.sh.asyncErrors|
  {
    hide Play;
    var errors := s.sh.asyncErrors;
    if errors == [] {
      steps := [];
      PlayNone(Successor, s);
      assert s.drained + errors == s.drained;
    } else {
      var taken := Apply(s, Consumer(TakeError));
      var rest := DrainRefined(taken);
      PlayFirst(Successor, s, Consumer(TakeError), rest);
      steps := [Consumer(TakeError)] + rest;
      assert errors == [errors[0]] + errors[1..];
      Regroup(s.drained, [errors[0]], errors[1..]);
    }
  }

  /** `_alloc_tag`, `_register_pending` and `_forget_pending` are one step each. */
  lemma AllocRefined(s: State, cmd: int) returns (steps: seq<Step>)
    ensures var end := Play(Successor, s, steps);
            && end.Some? && end.value.sh == s.sh.(nextTag := TagAfter(s.sh.nextTag))
            && end.value.commands == s.commands + [Command(cmd, s.sh.nextTag, HasTag)]
  {
    hide Play;
    steps := [Caller(Alloc(cmd))];
    PlayOne(Successor, s, Caller(Alloc(cmd)));
  }

  lemma RegisterRefined(s: State, c: nat) returns (steps: seq<Step>)
    requires At(s, c, HasTag) && s.lock == Free
    ensures var end := Play(Successor, s, steps);
            && end.Some? && end.value.sh == Register(s.sh, c, s.commands[c].tag, s.commands[c].cmd)
            && end.value.commands == s.commands[c := s.commands[c].(pc := Registered)]
  {
    hide Play;
    steps := [Caller(RegisterSlot(c))];
    PlayOne(Successor, s, Caller(RegisterSlot(c)));
  }

  lemma ForgetRefined(s: State, c: nat) returns (steps: seq<Step>)
    requires c < |s.commands| && s.commands[c].pc.Leaving? && s.lock == Free
    ensures var end := Play(Successor, s, steps);
            && end.Some? && end.value.sh == Forget(s.sh, s.commands[c].tag)
            && end.value.commands == s.commands[c := s.commands[c].(pc := Done(s.commands[c].pc.ending))]
  {
    hide Play;
    steps := [Caller(ForgetSlot(c))];
    PlayOne(Successor, s, Caller(ForgetSlot(c)));
  }

  // ----- a command's thread

  function WithNewCommand(s: State, cmd: int): State {
    var c, tag := |s.commands|, s.sh.nextTag;
    s.(sh := Register(s.sh.(nextTag := TagAfter(tag)), c, tag, cmd),
       commands := s.commands + [Command(cmd, tag, Waiting)])
  }

  /** A command takes a tag, registers, writes its frame and waits. */
  lemma CommandSent(s: State, cmd: int) returns (steps: seq<Step>)
    requires s.lock == Free
    ensures Play(Successor, s, steps) == Some(WithNewCommand(s, cmd))
  {
    hide Play;
    var c := |s.commands|;
    var alloc, register, write := Caller(Alloc(cmd)), Caller(RegisterSlot(c)), Caller(Write(c, true));
    var s1 := Apply(s, alloc);
    var s2 := Apply(s1, register);
    assert Apply(s2, write).commands == WithNewCommand(s, cmd).commands;
    PlayOne(Successor, s2, write);
    PlayFirst(Successor, s1, register, [write]);
    PlayFirst(Successor, s, alloc, [register] + [write]);
    steps := [alloc] + ([register] + [write]);
  }

  /** A waiting command whose event is set and whose slot has no error returns what its slot holds. */
  lemma CommandReturns(s: State, c: nat) returns (steps: seq<Step>)
    requires s.lock == Free && At(s, c, Waiting) && HasSlot(s, c) && s.sh.slots[c].event && s.sh.slots[c].err.None?
    ensures var end := Play(Successor, s, steps);
            && end.Some? && |end.value.commands| == |s.commands|
            && end.value.commands[c] == s.commands[c].(pc := Done(EndingOf(s.sh.slots[c])))
  {
    hide Play, EndingOf;
    var wake, check, back, forget := Caller(Wake(c)), Caller(CheckErr(c)), Caller(Return(c)), Caller(ForgetSlot(c));
    var s1 := Apply(s, wake);
    var s2 := Apply(s1, check);
    var s3 := Apply(s2, back);
    PlayOne(Successor, s3, forget);
    PlayFirst(Successor, s2, back, [forget]);
    PlayFirst(Successor, s1, check, [back] + [forget]);
    PlayFirst(Successor, s, wake, [check] + ([back] + [forget]));
    steps := [wake] + ([check] + ([back] + [forget]));
  }

  /** A waiting command whose event is set and whose slot has an error raises it. */
  lemma CommandRaises(s: State, c: nat) returns (steps: seq<Step>)
    requires s.lock == Free && At(s, c, Waiting) && HasSlot(s, c) && s.sh.slots[c].event && s.sh.slots[c].err.Some?
    ensures var end := Play(Successor, s, steps);
            && end.Some? && |end.value.commands| == |s.commands| && end.value.sh.slots == s.sh.slots
            && end.value.commands[c] == s.commands[c].(pc := Done(Raised(s.sh.slots[c].err.value)))
  {
    hide Play;
    var wake, check, raise, forget := Caller(Wake(c)), Caller(CheckErr(c)), Caller(Raise(c)), Caller(ForgetSlot(c));
    var s1 := Apply(s, wake);
    var s2 := Apply(s1, check);
    var s3 := Apply(s2, raise);
    PlayOne(Successor, s3, forget);
    PlayFirst(Successor, s2, raise, [forget]);
    PlayFirst(Successor, s1, check, [raise] + [forget]);
    PlayFirst(Successor, s, wake, [check] + ([raise] + [forget]));
    steps := [wake] + ([check] + ([raise] + [forget]));
  }
}
