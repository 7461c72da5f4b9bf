/** The session object: its methods, each run without interruption, against the shared-state operations. */
module Session {
  import opened Bytes
  import opened Events
  import opened Frame
  import opened Stream
  import opened Shared
  import Operations = Shared

  class Pending {
    const tag: int
    const cmdType: int
    var event: bool
    var ok: Option<OkPayload>
    var err: Option<CommandError>
    var txDone: Option<TxDone>

    constructor (tag: int, cmdType: int)
      ensures View() == Slot(tag, cmdType, false, None, None, None)
    {
      this.tag, this.cmdType := tag, cmdType;
      event, ok, err, txDone := false, None, None, None;
    }

    ghost function View(): Slot
      reads this
    {
      Slot(tag, cmdType, event, ok, err, txDone)
    }

    /** What the dispatcher does with a frame for this command. */
    method Reply(frame: Frame)
      modifies this
      ensures View() == Given(old(View()), frame)
    {
      hide ParseOk, DecodeErr, TxDone.Decode;
      if frame.typeId == TYPE_OK {
        var parsed := ParseOk(cmdType, frame.payload);
        if parsed.None? {
          err, event := Some(BadOkPayload), true;
          return;
        }
        ok := parsed;
        if cmdType == TYPE_TX { return; }
        event := true;
      } else if frame.typeId == TYPE_ERR {
        var code := DecodeErr(frame.payload);
        if code.None? { return; }
        err, event := Some(DeviceError(code.value, frame.tag)), true;
      } else if frame.typeId == TYPE_TX_DONE {
        var done := TxDone.Decode(frame.payload);
        if done.None? {
          err, event := Some(BadTxDonePayload), true;
          return;
        }
        if done.value.result == CHANNEL_BUSY {
          err := Some(ChannelBusy);
        } else if done.value.result == CANCELLED {
          err := Some(Cancelled);
        } else {
          txDone := done;
        }
        event := true;
      }
    }

    method Shut(byReader: bool)
      modifies this
      ensures View() == ShutSlot(old(View()), byReader)
    {
      if !byReader {
        err := Some(SessionClosed);
      } else if err.None? && txDone.None? {
        err := Some(TransportClosed);
      }
      event := true;
    }
  }

  function ShutSlot(slot: Slot, byReader: bool): Slot { CloseSlot(slot, byReader).(event := true) }

  function SweptSlots(slots: map<nat, Slot>, ids: set<nat>, byReader: bool): map<nat, Slot> {
    map id | id in slots :: if id in ids then ShutSlot(slots[id], byReader) else slots[id]
  }

  lemma SweepOneMore(slots: map<nat, Slot>, ids: set<nat>, id: nat, byReader: bool)
    requires id in slots
    ensures var s := SweptSlots(slots, ids, byReader);
            s[id := ShutSlot(s[id], byReader)] == SweptSlots(slots, ids + {id}, byReader)
  {
  }

  /** All slots in the table, marked and signalled; the table emptied. */
  function Swept(sh: Shared, byReader: bool): Shared {
    sh.(pending := map[], slots := SweptSlots(sh.slots, PendingIds(sh), byReader))
  }

  lemma SweepNone(slots: map<nat, Slot>, byReader: bool)
    ensures SweptSlots(slots, {}, byReader) == slots
  {
  }

  /** The slots that the tags `ts` refer to. */
  ghost function IdsOf(ids: map<int, nat>, ts: set<int>): set<nat> { set t | t in ids && t in ts :: ids[t] }

  lemma OneTagLess(ids: map<int, nat>, todo: set<int>, t: int)
    requires t in todo && t in ids
    ensures IdsOf(ids, ids.Keys - (todo - {t})) == IdsOf(ids, ids.Keys - todo) + {ids[t]}
  {
  }

  method OneOf<T>(s: set<T>) returns (t: T)
    requires s != {}
    ensures t in s
  {
    t :| t in s;
  }

  function CloseAll(sh: Shared): Shared { Swept(sh.(closed := true), false) }

  function ExitReader(sh: Shared): Shared {
    var swept := Swept(sh, true);
    swept.(readerDead := true, rxQueue := swept.rxQueue + [DeadSentinel])
  }

  predicate WellFormed(sh: Shared) { forall t :: t in sh.pending ==> sh.pending[t] in sh.slots }

  /** The reader's handling of one outcome of `read_frame`. */
  function Handle(sh: Shared, o: Outcome): Shared
    requires WellFormed(sh)
  {
    match o
    case Delivered(f) => Dispatch(sh, f)
    case Corrupt(e) => sh.(asyncErrors := sh.asyncErrors + [FrameFailure(e)])
    case _ => sh
  }

  function HandleAll(sh: Shared, os: seq<Outcome>): (r: Shared)
    requires WellFormed(sh)
    ensures WellFormed(r) && r.closed == sh.closed
    decreases |os|
  {
    if os == [] then sh
    else
      HandleKeeps(sh, os[0]);
      HandleAll(Handle(sh, os[0]), os[1..])
  }

  lemma HandleNone(sh: Shared)
    requires WellFormed(sh)
    ensures HandleAll(sh, []) == sh
  {
  }

  lemma HandleFirst(sh: Shared, o: Outcome, rest: seq<Outcome>)
    requires WellFormed(sh)
    ensures WellFormed(Handle(sh, o)) && HandleAll(sh, [o] + rest) == HandleAll(Handle(sh, o), rest)
  {
    hide Handle, WellFormed;
    HandleKeeps(sh, o);
    assert ([o] + rest)[1..] == rest;
  }

  lemma HandleKeeps(sh: Shared, o: Outcome)
    requires WellFormed(sh)
    ensures WellFormed(Handle(sh, o)) && Handle(sh, o).closed == sh.closed
  {
    hide ReplyFor, RxEvent.Decode, DecodeErr;
  }

  lemma ReadStep(sh: Shared, script: Script)
    requires WellFormed(sh)
    ensures var (o, rest) := Next([], script);
            && WellFormed(Handle(sh, o))
            && (o != Dropped ==> |rest| < |script|)
            && (o == Dropped ==> Handle(sh, o) == sh)
            && HandleAll(sh, ReadAll(script)) == if o == Dropped then sh else HandleAll(Handle(sh, o), ReadAll(rest))
  {
    hide Operations.Dispatch, Next;
    var (o, rest) := Next([], script);
    HandleKeeps(sh, o);
    if o != Dropped && script != [] { assert ([o] + ReadAll(rest))[1..] == ReadAll(rest); }
    EmptyScript();
  }

  lemma EmptyScript()
    ensures Next([], []).0 == Dropped
  {
  }

  function NextRxOf(sh: Shared): (Option<RxEvent>, Shared) {
    if sh.rxQueue == [] then (None, sh)
    else
      var rest := sh.rxQueue[1..];
      match sh.rxQueue[0]
      case Packet(rx) => (Some(rx), sh.(rxQueue := rest))
      case DeadSentinel => (None, sh.(rxQueue := rest + [DeadSentinel]))
  }

  predicate Distinct(heap: seq<Pending>) { forall i, j :: 0 <= i < j < |heap| ==> heap[i] != heap[j] }

  class Session {
    const transport: Transport
    var nextTag: int
    var pending: map<int, Pending>
    var rxQueue: seq<QueueItem>
    var asyncErrors: seq<AsyncError>
    var closed: bool
    var readerDead: bool

    /** Every slot ever registered, and for each pending tag the position of its slot. */
    ghost var heap: seq<Pending>
    ghost var ids: map<int, nat>

    ghost predicate Valid()
      reads this
    {
      && pending.Keys == ids.Keys
      && (forall t :: t in ids ==> ids[t] < |heap| && pending[t] == heap[ids[t]])
      && Distinct(heap)
    }

    ghost function Views(): map<nat, Slot>
      reads this`heap, heap
    {
      map id: nat | id < |heap| :: heap[id].View()
    }

    ghost function Abs(): Shared
      reads this, heap
    {
      Shared(nextTag, ids, Views(), rxQueue, asyncErrors, closed, readerDead)
    }

    lemma AbsWellFormed()
      requires Valid()
      ensures WellFormed(Abs())
    {
    }

    constructor (transport: Transport)
      ensures Valid() && Abs() == INITIAL && heap == [] && this.transport == transport
    {
      this.transport := transport;
      nextTag, pending, rxQueue, asyncErrors, closed, readerDead := 1, map[], [], [], false, false;
      heap, ids := [], map[];
    }

    method AllocTag() returns (tag: int)
      requires Valid()
      modifies this`nextTag
      ensures Valid()
      ensures tag == old(nextTag) && Abs() == old(Abs()).(nextTag := TagAfter(tag))
    {
      tag := nextTag;
      nextTag := (tag + 1) % 0x1_0000;
      if nextTag == 0 { nextTag := 1; }
    }

    method RegisterPending(tag: int, cmdType: int) returns (p: Pending)
      requires Valid()
      modifies this`pending, this`heap, this`ids
      ensures Valid() && fresh(p) && heap == old(heap) + [p]
      ensures Abs() == Register(old(Abs()), |old(heap)|, tag, cmdType)
    {
      p := new Pending(tag, cmdType);
      pending := pending[tag := p];
      heap, ids := heap + [p], ids[tag := |heap|];
      assert Views() == old(Views())[|old(heap)| := p.View()];
    }

    method ForgetPending(tag: int)
      requires Valid()
      modifies this`pending, this`ids
      ensures Valid() && heap == old(heap)
      ensures Abs() == Forget(old(Abs()), tag)
    {
      pending := pending - {tag};
      ids := ids - {tag};
    }

    method Dispatch(frame: Frame)
      requires Valid()
      modifies this`rxQueue, this`asyncErrors, heap
      ensures Valid() && heap == old(heap)
      ensures WellFormed(old(Abs())) && Abs() == Operations.Dispatch(old(Abs()), frame)
    {
      if frame.tag == 0 {
        if frame.typeId == TYPE_RX {
          var rx := RxEvent.Decode(frame.payload);
          if rx.None? {
            asyncErrors := asyncErrors + [BadRxPayload];
          } else {
            rxQueue := rxQueue + [Packet(rx.value)];
          }
        } else if frame.typeId == TYPE_ERR {
          var code := DecodeErr(frame.payload);
          if code.Some? { asyncErrors := asyncErrors + [AsyncDeviceError(code.value)]; }
        }
        return;
      }
      if frame.tag in pending { Answer(pending[frame.tag], ids[frame.tag], frame); }
    }

    /** A tagged frame for the command whose slot is `p`. */
    method Answer(p: Pending, ghost id: nat, frame: Frame)
      requires Valid() && id < |heap| && heap[id] == p
      modifies p
      ensures Valid()
      ensures Abs() == Replied(old(Abs()), id, frame)
    {
      hide Given, Replied;
      p.Reply(frame);
      ReplyIsGiven(old(Abs()), id, frame);
      assert Views() == old(Views())[id := p.View()];
    }

    /** One packet, or nothing when the queue is empty (a timeout) or the reader is gone. */
    method NextRx() returns (rx: Option<RxEvent>)
      requires Valid()
      modifies this`rxQueue
      ensures Valid() && (rx, Abs()) == NextRxOf(old(Abs()))
    {
      if rxQueue == [] { return None; }
      var item := rxQueue[0];
      rxQueue := rxQueue[1..];
      if item == DeadSentinel {
        rxQueue := rxQueue + [DeadSentinel];
        return None;
      }
      rx := Some(item.rx);
    }

    method DrainAsyncErrors() returns (drained: seq<AsyncError>)
      requires Valid()
      modifies this`asyncErrors
      ensures Valid() && drained == old(asyncErrors) && Abs() == old(Abs()).(asyncErrors := [])
    {
      drained := [];
      while asyncErrors != []
        invariant drained + asyncErrors == old(asyncErrors)
        decreases |asyncErrors|
      {
        drained := drained + [asyncErrors[0]];
        asyncErrors := asyncErrors[1..];
      }
    }

    /** The locked section shared by `close` and the reader's exit block. */
    method Sweep(byReader: bool)
      requires Valid()
      modifies this`pending, this`ids, heap
      ensures Valid() && heap == old(heap)
      ensures Abs() == Swept(old(Abs()), byReader)
    {
      hide SweptSlots, ShutSlot, Views, CloseSlot, IdsOf, Valid;
      ghost var slots := Views();
      var todo := pending.Keys;
      SweepNone(slots, byReader);
      TableIsIds();
      assert ids.Keys - todo == {};
      while todo != {}
        invariant pending == old(pending) && ids == old(ids) && heap == old(heap) && Valid()
        invariant todo <= pending.Keys
        invariant Views() == SweptSlots(slots, IdsOf(ids, ids.Keys - todo), byReader)
        decreases |todo|
      {
        var t := OneOf(todo);
        SweepOne(t, slots, IdsOf(ids, ids.Keys - todo), byReader);
        OneTagLess(ids, todo, t);
        todo := todo - {t};
      }
      assert ids.Keys - todo == ids.Keys;
      TableIsIds();
      pending, ids := map[], map[];
      EmptyTable();
    }

    method SweepOne(t: int, ghost slots: map<nat, Slot>, ghost done: set<nat>, byReader: bool)
      requires Valid() && t in pending && Views() == SweptSlots(slots, done, byReader)
      modifies pending[t]
      ensures Valid() && t in ids && Views() == SweptSlots(slots, done + {ids[t]}, byReader)
    {
      hide CloseSlot, ShutSlot;
      pending[t].Shut(byReader);
      assert ids[t] in slots by { assert ids[t] in old(Views()); }
      SweepOneMore(slots, done, ids[t], byReader);
      assert Views() == old(Views())[ids[t] := ShutSlot(old(Views())[ids[t]], byReader)];
    }

    lemma TableIsIds()
      requires Valid()
      ensures pending.Keys == ids.Keys
      ensures forall t :: t in pending ==> pending[t] in heap
      ensures Distinct(heap)
      ensures IdsOf(ids, {}) == {} && IdsOf(ids, ids.Keys) == PendingIds(Abs())
    {
    }

    lemma EmptyTable()
      requires pending == map[] && ids == map[]
      requires Distinct(heap)
      ensures Valid()
    {
    }

    /** Afterwards a read on the transport fails at once. */
    method Close()
      requires Valid()
      modifies this`closed, this`pending, this`ids, heap, transport
      ensures Valid() && heap == old(heap)
      ensures Abs() == CloseAll(old(Abs())) && transport.script == []
    {
      hide SweptSlots, Views, PendingIds;
      closed := true;
      Sweep(false);
      transport.Close();
    }

    /** One turn of the reader. */
    method ReadOnce() returns (dropped: bool)
      requires Valid()
      modifies this`rxQueue, this`asyncErrors, heap, transport
      ensures Valid() && heap == old(heap) && WellFormed(old(Abs()))
      ensures var (o, rest) := Next([], old(transport.script));
              transport.script == rest && dropped == (o == Dropped) && Abs() == Handle(old(Abs()), o)
    {
      hide Operations.Dispatch, Next;
      dropped := false;
      var r := ReadFrame(transport);
      assert Abs() == old(Abs());
      match r
      case Dropped => dropped := true;
      case Corrupt(e) => asyncErrors := asyncErrors + [FrameFailure(e)];
      case Nothing =>
      case Delivered(f) => Dispatch(f);
    }

    /** Read, decode and dispatch until the transport drops or the session is closed, then leave. */
    method ReaderLoop()
      requires Valid()
      modifies this, heap, transport
      ensures Valid() && heap == old(heap)
      ensures WellFormed(old(Abs()))
      ensures Abs() == ExitReader(HandleAll(old(Abs()), if old(closed) then [] else ReadAll(old(transport.script))))
    {
      hide Handle, ReadAll, HandleAll, Next, Swept, Views, WellFormed, Operations.Dispatch;
      ghost var start, outcomes := Abs(), ReadAll(transport.script);
      AbsWellFormed();
      HandleNone(start);
      var dropped := false;
      while !closed && !dropped
        invariant Valid() && heap == old(heap) && closed == old(closed)
        invariant WellFormed(start) && WellFormed(Abs())
        invariant HandleAll(start, outcomes) == if dropped then Abs() else HandleAll(Abs(), ReadAll(transport.script))
        invariant closed ==> Abs() == start && !dropped
        decreases !dropped, |transport.script|
      {
        ghost var sh, o := Abs(), Next([], transport.script).0;
        ReadStep(sh, transport.script);
        dropped := ReadOnce();
      }
      Sweep(true);
      readerDead := true;
      rxQueue := rxQueue + [DeadSentinel];
    }
  }
}
