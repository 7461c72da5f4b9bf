/** Stories of guarded calls, told from what the outside answers, and devices at which they happen. */
module Stories {
  import opened Bytes
  import opened Modulation
  import opened Recovery
  import opened Outcomes
  import opened Dongle
  import Info

  /** With a live session, a guarded call looks at it and runs the operation. */
  lemma LiveStory(
    world: World, start: seq<Event>, story: Story, m: Memory, command: Command, hasReopener: bool, closed: bool,
    r: CallResult)
    requires Tells(story, m, command, hasReopener, closed, r) && world.Truthful()
    requires start + story.Events() <= world.log && world.alive(|start|)
    ensures story.before == [Asked(m.session, true)] && Checkpoint(m, story) == m
    ensures var f := world.failures(|start| + 1);
            && story.first == Some(Ran(m.session, command, f))
            && (f == None ==> r == Done && story.Events() == [Asked(m.session, true), Ran(m.session, command, None)])
  {
    hide Runs, Remember, LockTells, Repairs, Passed;
    assert story.before == [story.before[0]] + story.before[1..];
    assert world.log[|start|] == story.before[0];
    LooksFirst(story.before, m, hasReopener, closed, if story.first.None? then r else Done);
    assert world.log[|start| + 1] == story.first.value;
  }

  lemma TriesAfterLooks(story: Story, a: Event, b: Event, c: Event, d: Event, done: seq<Event>)
    requires a.Asked? && b.Asked? && c.Asked? && d.Asked?
    requires story.before == [a] && story.repair == [b] + ([c] + [d] + done)
    requires (story.first.Some? ==> story.first.value.Ran?) && (story.second.Some? ==> story.second.value.Ran?)
    ensures Tries(story.Events()) == Tries(done)
  {
    hide Tries;
    NoTries(a);
    assert [c] + [d] + done == [c] + ([d] + done);
    LookedFirst(d, done);
    LookedFirst(c, [d] + done);
    LookedFirst(b, [c] + ([d] + done));
    TriesOfStory([], story);
    NothingDone();
    assert [] + story.Events() == story.Events();
    assert [] + [] + Tries(done) == Tries(done);
  }

  /** A session that dies during the operation, up to its recovery `done`, which comes to `c`. */
  lemma DeathBegins(world: World, start: seq<Event>, story: Story, m: Memory, command: Command, r: CallResult)
    returns (done: seq<Event>, c: CallResult)
    requires Tells(story, m, command, true, false, r) && world.Truthful()
    requires world.log == start + story.Events()
    requires var p := |start|;
             && world.alive(p) && world.failures(p + 1) == Some(OtherDonglora)
             && !world.alive(p + 2) && !world.alive(p + 3) && !world.alive(p + 4)
    ensures RecoveryTells(done, m, false, c) && Tries(story.Events()) == Tries(done)
    ensures var all, s := story.Events(), m.session;
            && |all| >= 5 && all[0] == Asked(s, true) && all[1] == Ran(s, command, Some(OtherDonglora))
            && all[2] == all[3] == all[4] == Asked(s, false)
            && if c != Done then all == all[..5] + done && r == c
               else
                 var second := all[|all| - 1];
                 && second.Ran? && second == Ran(Remember(m, done).session, command, second.failure)
                 && all == all[..5] + done + [second] && r == Ended(second.failure)
    ensures Afterwards(m, story) == Remember(m, done)
  {
    hide Runs, Remember, LockTells, CheckTells, Tells, Passed, Tries, RecoveryTells, World.Truthful;
    LiveStory(world, start, story, m, command, true, false, r);
    var all := story.Events();
    var check;
    check, c := DiedMidCall(world, start, story, m, command, true, false, r);
    CheckOutcome(check, m, true, false, c);
    AnswerAt(world, start, all, 3);
    AnswerAt(world, start, all, 4);
    assert all[3] == check[0] && all[4] == check[1];
    done := check[2..];
    assert check == [check[0]] + [check[1]] + done;
    assert all[..5] == all[..3] + [check[0]] + [check[1]];
    TellsRuns(story, m, command, true, false, r);
    TriesAfterLooks(story, all[0], all[2], check[0], check[1], done);
  }

  lemma TellsRuns(story: Story, m: Memory, command: Command, hasReopener: bool, closed: bool, r: CallResult)
    requires Tells(story, m, command, hasReopener, closed, r)
    ensures (story.first.Some? ==> story.first.value.Ran?) && (story.second.Some? ==> story.second.value.Ran?)
  {
    hide Runs, Remember, CheckTells, Passed, Repairs;
  }

  /** A session that dies during the operation: when the dongle has looked three times, the old session is closed,
      the reopener tried until it yields a session, and the operation is run again there. */
  lemma DeathStory(
    world: World, start: seq<Event>, story: Story, m: Memory, openings: seq<Opening>, n: nat, command: Command,
    r: CallResult)
    requires Tells(story, m, command, true, false, r) && world.Truthful() && !m.rxStarted
    requires world.log == start + story.Events()
    requires openings == Tries(story.Events()) + world.openings && (r == StillTrying ==> world.openings == [])
    requires n < |openings| && openings[n].Opened? && forall k :: 0 <= k < n ==> Soft(openings[k])
    requires var p := |start|;
             && world.alive(p) && world.failures(p + 1) == Some(OtherDonglora)
             && !world.alive(p + 2) && !world.alive(p + 3) && !world.alive(p + 4)
    ensures var all, s := story.Events(), m.session;
            && |all| == 2 * n + 8 && all[0] == Asked(s, true) && all[1] == Ran(s, command, Some(OtherDonglora))
            && all[2] == all[3] == all[4] == Asked(s, false) && all[5] == Shut(s)
            && (forall k :: 0 <= k < n ==>
                  all[2 * k + 6] == Tried(openings[k]) && all[2 * k + 7] == Waited(WaitAfter(k)))
            && all[2 * n + 6] == Tried(openings[n])
            && var f := world.failures(|start| + 2 * n + 7);
               all[2 * n + 7] == Ran(m.next, command, f) && r == Ended(f)
    ensures InPlace(Afterwards(m, story), m, openings[n], false)
  {
    hide Remember, Tells, Tries, RecoveryTells, World.Truthful, SleptOff, Opt;
    var all := story.Events();
    var done, c := DeathBegins(world, start, story, m, command, r);
    RecoverySettles(done, m, c, openings, world.openings, n);
    var k := RecoveryOutcome(done, m, false, c);
    LoopLength(done, openings, k, n);
    forall i | 0 <= i < n
      ensures all[2 * i + 6] == Tried(openings[i]) && all[2 * i + 7] == Waited(WaitAfter(i))
    {
      WaitOf(done, i);
      assert all[2 * i + 6] == done[2 * i + 1] && all[2 * i + 7] == done[2 * i + 2];
    }
    AnswerAt(world, start, all, 2 * n + 7);
  }

  /** With a device that has lost its configuration, it sends that again and runs the operation again. */
  lemma LostStory(
    world: World, start: seq<Event>, story: Story, m: Memory, command: Command, hasReopener: bool, closed: bool,
    r: CallResult)
    requires Tells(story, m, command, hasReopener, closed, r) && world.Truthful() && m.config.Some?
    requires start + story.Events() <= world.log && world.alive(|start|)
    requires world.failures(|start| + 1) == Some(NotConfigured)
    requires world.failures(|start| + 2) == None && world.failures(|start| + 3) == None
    ensures r == Done && Afterwards(m, story) == m && Strayed(story.Events())
  {
    hide Runs, Remember, LockTells, Passed, Tries;
    LiveStory(world, start, story, m, command, hasReopener, closed, r);
    assert world.log[|start| + 2] == story.repair[0];
    NoTries(story.repair[0]);
    assert story.repair == [story.repair[0]];
    RememberNothing(story.repair, m);
    assert world.log[|start| + 3] == story.second.value;
    assert Strays(story.Events()[2]);
  }

  /** A dongle whose third command will find the device without its configuration, just after `rx`. */
  method ReceivingDongle(info: Info.Info, config: Modulation) returns (d: Dongle)
    ensures fresh(d) && fresh(d.world) && d.Valid() && d.InStep() && d.rxStarted && !d.closed
    ensures d.config == Some(config)
    ensures |d.world.log| == 2 && d.world.alive(2) && d.world.failures(3) == Some(NotConfigured)
    ensures d.world.failures(4) == None && d.world.failures(5) == None
  {
    hide Strayed, Listening, Tells, Remember;
    var world := new World(_ => true, n => if n == 3 then Some(NotConfigured) else None, _ => false, _ => true, []);
    d := new Dongle(world, info, Some(config), true);
    ghost var m := d.Mem();
    var r;
    ghost var story;
    r, story := d.Rx();
    LiveStory(world, [], story, m, StartRx, true, d.closed, r);
    UnchangedCheckpoint(story, m);
  }

  lemma UnchangedCheckpoint(story: Story, m: Memory)
    requires story.repair == [] && Checkpoint(m, story) == m
    ensures Afterwards(m, story) == m
  {
    RememberNothing([], m);
  }

  /** A device that loses its configuration while it receives: the transmission succeeds at the second attempt,
      and the dongle goes on believing that the radio is receiving. */
  method BeliefOutlivesReception(info: Info.Info, config: Modulation) returns (d: Dongle, r: CallResult)
    ensures d.Valid() && r == Done && d.rxStarted && !Listening(d.world.log, d.session)
  {
    hide Strayed, Listening, World.Truthful, Tells, Remember;
    d := ReceivingDongle(info, config);
    ghost var start, m := d.world.log, d.Mem();
    ghost var story;
    r, story := d.Tx();
    LostStory(d.world, start, story, m, Transmit, d.hasReopener, d.closed, r);
  }

  /** With a live session, an unguarded command is sent to it. */
  lemma LivePlain(
    world: World, start: seq<Event>, checked: seq<Event>, sent: Option<Event>, m: Memory, command: Command,
    hasReopener: bool, closed: bool, r: CallResult)
    requires PlainTells(checked, sent, m, command, hasReopener, closed, r) && world.Truthful()
    requires start + checked + Opt(sent) <= world.log && world.alive(|start|)
    ensures checked == [Asked(m.session, true)] && Remember(m, checked) == m
    ensures sent == Some(Sent(m.session, command, world.failures(|start| + 1)))
    ensures r == Ended(world.failures(|start| + 1))
  {
    hide LockTells, Remember, Tries;
    LooksFirst(checked, m, hasReopener, closed, if sent.None? then r else Done);
    assert (start + checked + Opt(sent))[|start|] == checked[0];
    assert world.log[|start|] == checked[0];
    assert checked == [checked[0]];
    if sent.Some? { assert (start + checked + Opt(sent))[|start| + 1] == sent.value; }
  }

  lemma DeadCheck(done: seq<Event>, m: Memory, o: Opening, r: CallResult)
    requires CheckTells(done, m, true, false, r) && !done[0].alive && |done| > 1 && !(done[1].Asked? && done[1].alive)
    requires !m.rxStarted && Tries(done) <= [o] && o.Opened?
    ensures if r == Done then Tries(done) == [o] && Remember(m, done) == Reconnected(m, o, None)
            else r == StillTrying && Tries(done) == []
  {
    hide Attempts, Course, Tries;
    var rest := done[2..];
    assert done == [done[0]] + done[1..] && done[1..] == [done[1]] + rest;
    assert done[1..][1..] == rest;
    LookedFirst(done[1], rest);
    LookedFirst(done[0], done[1..]);
    assert Tries(rest) == [] || Tries(rest) == [o];
  }

  /** With a dead session and a reopener that yields `o` and no more, a guarded call puts that in place first. */
  lemma DeadStory(world: World, start: seq<Event>, story: Story, m: Memory, o: Opening, command: Command, r: CallResult)
    requires Tells(story, m, command, true, false, r) && world.Truthful()
    requires world.log == start + story.Events() && Tries(start) == [] && world.supply == [o] && o.Opened?
    requires !world.alive(|start|) && !world.alive(|start| + 1) && !m.rxStarted
    requires r == StillTrying ==> world.openings == []
    requires forall n :: world.failures(n) == None
    ensures r == Done && Afterwards(m, story) == Reconnected(m, o, None) && Tries(world.log) == [o]
  {
    hide Repairs, Attempts, Course, Tries, Remember, RecoveryTells, Runs, Passed;
    var before := story.before;
    LooksFirst(before, m, true, false, if story.first.None? then r else Done);
    assert world.log[|start|] == before[0];
    assert before[1..] != [];
    assert world.log[|start| + 1] == before[1];
    TriesOfStory(start, story);
    DeadCheck(before, m, o, if story.first.None? then r else Done);
    NothingDone();
    if story.first.Some? {
      assert world.log[|start| + |before|] == story.first.value;
      RememberNothing([], Checkpoint(m, story));
    }
  }

  lemma TriesOfStory(start: seq<Event>, story: Story)
    requires (story.first.Some? ==> story.first.value.Ran?) && (story.second.Some? ==> story.second.value.Ran?)
    ensures Tries(start + story.Events()) == Tries(start) + Tries(story.before) + Tries(story.repair)
  {
    hide Tries;
    OptTries(story.first);
    OptTries(story.second);
    var first := story.before + Opt(story.first);
    JoinedTries(story.before, Opt(story.first));
    JoinedTries(first, story.repair);
    JoinedTries(first + story.repair, Opt(story.second));
    JoinedTries(start, story.Events());
    assert Tries(start) + (Tries(story.before) + Tries(story.repair))
        == Tries(start) + Tries(story.before) + Tries(story.repair);
  }

  lemma JoinedTries(a: seq<Event>, b: seq<Event>)
    ensures Tries(a + b) == Tries(a) + Tries(b)
    ensures Tries(b) == [] ==> Tries(a + b) == Tries(a)
  {
    hide Tries;
    Joined(a, b);
  }

  lemma OptTries(e: Option<Event>)
    requires e.Some? ==> e.value.Ran?
    ensures Tries(Opt(e)) == []
  {
    if e.Some? { NoTries(e.value); }
  }

  /** A dongle just configured with `config`, whose session is about to die; the reopener has `o`. */
  method ConfiguredDongle(info: Info.Info, config: Modulation, o: Opening) returns (d: Dongle)
    requires o.Opened?
    ensures fresh(d) && fresh(d.world) && d.Valid() && !d.rxStarted && !d.closed && d.config == Some(config)
    ensures d.hasReopener && d.world.supply == [o] && |d.world.log| == 2 && Tries(d.world.log) == []
    ensures !d.world.alive(2) && !d.world.alive(3) && (forall n :: !d.world.stops(n))
    ensures forall n :: d.world.failures(n) == None
  {
    hide Listening, PlainTells, Remember, Tries;
    var world := new World(n => n != 2 && n != 3, _ => None, _ => false, _ => true, [o]);
    d := new Dongle(world, info, None, true);
    ghost var m := d.Mem();
    var r;
    ghost var checked, sent;
    r, checked, sent := d.SetConfig(config);
    LivePlain(world, [], checked, sent, m, SendConfig(config), true, d.closed, r);
    NoTries(checked[0]);
    NoTries(sent.value);
    Joined([checked[0]], [sent.value]);
    assert world.log == [checked[0]] + [sent.value];
  }

  /** A configuration set by the user is lost to the reopener's when the session dies: the next transmission
      succeeds, and the cached configuration is the one the reopener applied. */
  method ConfigOutlivedByReopener(info: Info.Info, config: Modulation, reopened: Info.Info, applied: Modulation)
    returns (d: Dongle, r: CallResult)
    ensures d.Valid() && r == Done && d.config == Some(applied) && d.info == reopened
    ensures Tries(d.world.log) == [Opened(reopened, Some(applied))]
  {
    hide Listening, Tells, Remember, World.Truthful, Tries;
    var o := Opened(reopened, Some(applied));
    d := ConfiguredDongle(info, config, o);
    ghost var start, m := d.world.log, d.Mem();
    ghost var story;
    r, story := d.Tx();
    NeverClosed(d.world);
    DeadStory(d.world, start, story, m, o, Transmit, r);
  }

  lemma NeverClosed(world: World)
    requires world.Truthful() && forall n :: !world.stops(n)
    ensures !world.closedElsewhere
  {
  }
  /** A session that dies during a transmission, and a reopener that fails once and then yields a session with no
      configuration applied: the transmission succeeds on that session, and the user's configuration stays cached. */
  method TxOutlivesSession(info: Info.Info, config: Modulation, reopened: Info.Info)
    returns (d: Dongle, r: CallResult)
    ensures d.Valid() && r == Done && d.session == 1 && d.info == reopened && d.config == Some(config)
    ensures d.world.log ==
              [Asked(0, true), Ran(0, Transmit, Some(OtherDonglora)), Asked(0, false), Asked(0, false),
               Asked(0, false), Shut(0), Tried(Failed(OsFailure)), Waited(0.5), Tried(Opened(reopened, None)),
               Ran(1, Transmit, None)]
  {
    hide Tells, Remember, World.Truthful, Tries, Listening, WaitAfter;
    var openings := [Failed(OsFailure), Opened(reopened, None)];
    var world :=
      new World(n => n == 0, n => if n == 1 then Some(OtherDonglora) else None, _ => false, _ => true, openings);
    d := new Dongle(world, info, Some(config), true);
    ghost var m := d.Mem();
    ghost var story;
    r, story := d.Tx();
    NeverClosed(world);
    AllSupplied(world);
    assert world.log == story.Events();
    ReplacedOnce(world, story, m, openings, r);
  }

  lemma ReplacedOnce(world: World, story: Story, m: Memory, openings: seq<Opening>, r: CallResult)
    requires Tells(story, m, Transmit, true, false, r) && world.Truthful() && !m.rxStarted
    requires world.log == story.Events()
    requires openings == Tries(story.Events()) + world.openings && (r == StillTrying ==> world.openings == [])
    requires |openings| == 2 && openings[0] == Failed(OsFailure) && openings[1].Opened?
    requires forall n :: world.alive(n) == (n == 0)
    requires forall n :: world.failures(n) == if n == 1 then Some(OtherDonglora) else None
    ensures var s := m.session;
            story.Events() ==
              [Asked(s, true), Ran(s, Transmit, Some(OtherDonglora)), Asked(s, false), Asked(s, false),
               Asked(s, false), Shut(s), Tried(openings[0]), Waited(0.5), Tried(openings[1]),
               Ran(m.next, Transmit, None)]
    ensures r == Done && InPlace(Afterwards(m, story), m, openings[1], false)
  {
    hide Tells, Remember, World.Truthful, Tries, Story.Events, InPlace, Checkpoint;
    var all := story.Events();
    assert world.log == [] + all;
    DeathStory(world, [], story, m, openings, 1, Transmit, r);
    assert all[2 * 0 + 6] == Tried(openings[0]) && all[2 * 0 + 7] == Waited(WaitAfter(0));
  }

  lemma AllSupplied(world: World)
    requires world.Truthful()
    ensures world.supply == Tries(world.log) + world.openings
  {
    hide Tries;
  }

  /** With a reopener that applies none, a configuration set by the user outlives the session. */
  method ConfigOutlivesSession(info: Info.Info, config: Modulation, reopened: Info.Info)
    returns (d: Dongle, r: CallResult)
    ensures d.Valid() && r == Done && d.config == Some(config) && d.info == reopened
    ensures Tries(d.world.log) == [Opened(reopened, None)]
  {
    hide Listening, Tells, Remember, World.Truthful, Tries;
    var o := Opened(reopened, None);
    d := ConfiguredDongle(info, config, o);
    ghost var start, m := d.world.log, d.Mem();
    ghost var story;
    r, story := d.Tx();
    NeverClosed(d.world);
    DeadStory(d.world, start, story, m, o, Transmit, r);
  }
}
