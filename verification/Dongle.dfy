/** The dongle object: reconnecting a dead session, retrying a command, and what it remembers of the radio.
    One thread's view. */
module Dongle {
  import opened Bytes
  import opened Modulation
  import opened Recovery
  import opened Outcomes
  import Info

  const KEEPALIVE_INTERVAL: real := 0.5

  class Dongle {
    const world: World
    const hasReopener: bool
    var session: nat
    var info: Info.Info
    var config: Option<Modulation>
    var rxStarted: bool
    var closed: bool

    ghost predicate Valid()
      reads this, world
    {
      && world.Truthful() && session < world.sessions && Known(world.log, world.sessions)
      && (world.closedElsewhere ==> closed)
    }

    /** The dongle believes the radio is receiving only if it was told so. */
    ghost predicate InStep()
      reads this, world
    {
      rxStarted ==> Listening(world.log, session)
    }

    ghost function Mem(): Memory
      reads this, world`sessions
    {
      Memory(session, info, config, rxStarted, world.sessions)
    }

    /** The dongle is closed if it was, or if another thread has closed it meanwhile. */
    twostate predicate ClosedOnlyElsewhere()
      reads this, world
    {
      closed == (old(closed) || world.closedElsewhere) && (old(world.closedElsewhere) ==> world.closedElsewhere)
    }

    constructor (world: World, info: Info.Info, config: Option<Modulation>, hasReopener: bool)
      requires world.Truthful() && world.log == [] && world.sessions == 1 && !world.closedElsewhere
      ensures Valid() && InStep() && this.world == world && this.hasReopener == hasReopener
      ensures session == 0 && this.info == info && this.config == config && !rxStarted && !closed
    {
      this.world, this.info, this.config, this.hasReopener := world, info, config, hasReopener;
      session, rxStarted, closed := 0, false, false;
    }

    /** Try the reopener, waiting longer each time, until it succeeds or the dongle is closed. */
    method Reopen() returns (o: Option<Opening>, r: CallResult, ghost done: seq<Event>)
      requires Valid()
      modifies this`closed, world
      ensures world.log == old(world.log) + done
      ensures world.sessions == old(world.sessions) + (if o.Some? then 1 else 0) && ClosedOnlyElsewhere()
      ensures Attempts(done) && Course(done)
      ensures o.Some? <==> Reopened(done)
      ensures o.Some? ==> done != [] && done[|done| - 1] == Tried(o.value) && o == LastTry(done) && r == Done
      ensures o.None? ==> r == GaveUp(closed, done)
      ensures world.Truthful() && (world.closedElsewhere ==> closed)
      ensures old(world.openings) == Tries(done) + world.openings && (r == StillTrying ==> world.openings == [])
    {
      hide World.Truthful, Retried, Attempts, Course, LastTry, BackOffAt, Tries, Known, Caught, GaveUp, Reopened;
      NothingDone();
      done := [];
      var backOff := 0.5;
      ghost var n := 0;
      NothingTried();
      while true
        invariant world.Truthful() && world.log == old(world.log) + done
        invariant world.sessions == old(world.sessions) && ClosedOnlyElsewhere()
        invariant Retried(done, n) && backOff == BackOffAt(n) && old(world.openings) == Tries(done) + world.openings
        decreases |world.openings|
      {
        AttemptsEnd(done, n);
        var stopped := world.Stopped();
        closed := closed || stopped;
        if closed { return None, Done, done; }
        if world.openings == [] { return None, StillTrying, done; }
        var opening := world.Reopen();
        LastAttempt(done, n, opening);
        if opening.Opened? { return Some(opening), Done, done + [Tried(opening)]; }
        if opening.error == Foreign { return None, Raised(Foreign), done + [Tried(opening)]; }
        stopped := world.Wait(backOff);
        OneMoreAttempt(done, n, opening);
        done := done + [Tried(opening)] + [Waited(backOff)];
        n := n + 1;
        if stopped {
          closed := true;
          AttemptsEnd(done, n);
          return None, Done, done;
        }
        backOff := if backOff * 1.5 < 2.0 then backOff * 1.5 else 2.0;
      }
    }

    /** Replace the dead session. */
    method RecoverSession() returns (r: CallResult, ghost done: seq<Event>)
      requires Valid()
      modifies this, world
      ensures Valid() && world.log == old(world.log) + done && ClosedOnlyElsewhere()
      ensures RecoveryTells(done, old(Mem()), closed, r) && done != [] && Runs(done) == [] && Attempts(done)
      ensures old(world.openings) == Tries(done) + world.openings && (r == StillTrying ==> world.openings == [])
      ensures Mem() == Remember(old(Mem()), done)
      ensures forall o: Opening :: o.Opened? && Tried(o) in done ==>
                && session == old(world.sessions) && info == o.info
                && (o.applied == None ==> config == old(config)) && (o.applied.Some? ==> config == o.applied)
      ensures (forall o: Opening :: o.Opened? ==> Tried(o) !in done) ==>
                session == old(session) && info == old(info) && config == old(config) && rxStarted == old(rxStarted)
      ensures r == Done ==> Passed(done, closed) && !Strayed(done)
      ensures old(InStep()) ==> (InStep() <==> !(rxStarted && Strayed(done)))
    {
      hide World.Truthful, Attempts, Course, LastTry, Listening, RecoveryTells, RestartOf, Strayed, Tries, Remember;
      ghost var m := Mem();
      world.Shutdown(session);
      var o, r', tried := Reopen();
      r, done := r', [Shut(session)] + tried;
      CourseQuiet(tried);
      LookedFirst(Shut(session), tried);
      ListeningQuiet(old(world.log), done, session, m.next);
      assert world.log == old(world.log) + done;
      NotStrayed(done);
      RecoveryGoes(m, tried, closed, r);
      if o.Some? { r, done := Replace(o.value, old(world.log), m, tried); }
      AttemptsRunNothing(done);
      OpenedIn(done, m, closed, r);
    }

    /** The part of a recovery that follows when the reopener has yielded `o`. */
    method Replace(o: Opening, ghost start: seq<Event>, ghost m: Memory, ghost tried: seq<Event>)
      returns (r: CallResult, ghost done: seq<Event>)
      requires session < world.sessions - 1 && Known(world.log, world.sessions - 1)
      requires o.Opened? && m == Mem().(next := world.sessions - 1)
      requires world.Truthful() && (world.closedElsewhere ==> closed)
      requires world.log == start + [Shut(session)] + tried && Quiet(tried) && tried != []
      requires Attempts(tried) && Course(tried) && LastTry(tried) == Some(o) && tried[|tried| - 1] == Tried(o)
      modifies this`session, this`info, this`config, this`rxStarted, world`log
      ensures Valid() && world.log == start + done
      ensures RecoveryTells(done, m, closed, r) && Attempts(done) && Tries(done) == Tries(tried)
      ensures done != [] && Mem() == Remember(m, done)
      ensures r != StillTrying && (r == Done ==> Passed(done, closed) && !Strayed(done))
      ensures InStep() <==> !(rxStarted && Strayed(done))
    {
      hide World.Truthful, Attempts, Course, LastTry, Listening, RecoveryTells, RestartOf, Strayed, Tries;
      done := [Shut(session)] + tried;
      LookedFirst(Shut(session), tried);
      NotStrayed(done);
      RecoveryGoes(m, tried, closed, Done);
      SilentBefore(world.log, world.sessions - 1);
      assert world.log == start + done;
      var f := Install(o, m);
      r := Done;
      if f.Some? {
        SentLast(done, session, StartRx, f.value);
        ListeningStep(start + done, Sent(session, StartRx, f.value), session);
        RecoveryRestarts(m, tried, f.value, closed);
        done := done + [Sent(session, StartRx, f.value)];
        r := if f.value.Some? && !IsDonglora(f.value.value) then Raised(f.value.value) else Done;
      }
    }

    /** Put a reopened session in place of the one in `m`; restart reception if it was on. */
    method Install(o: Opening, ghost m: Memory) returns (f: Option<Option<Error>>)
      requires session < world.sessions - 1 && Known(world.log, world.sessions - 1)
      requires o.Opened? && m == Mem().(next := world.sessions - 1)
      requires world.Truthful() && (world.closedElsewhere ==> closed)
      modifies this`session, this`info, this`config, this`rxStarted, world`log
      ensures Valid() && Mem() == Reconnected(m, o, if f.Some? then f.value else None)
      ensures info == o.info && config == (if o.applied == None then old(config) else o.applied)
      ensures f.Some? <==> m.rxStarted
      ensures world.log == old(world.log) + (if f.Some? then [Sent(session, StartRx, f.value)] else [])
    {
      hide World.Truthful, Tries, Listening;
      session, info := world.sessions - 1, o.info;
      if o.applied.Some? { config := o.applied; }
      f := None;
      if rxStarted {
        var e := world.Send(session, StartRx);
        f := Some(e);
        if e.Some? && IsDonglora(e.value) { rxStarted := false; }
      }
    }

    /** What a liveness check leaves behind. */
    twostate predicate Checked(r: CallResult, done: seq<Event>)
      reads this, world
    {
      && Valid() && world.log == old(world.log) + done && ClosedOnlyElsewhere()
      && done != [] && Runs(done) == [] && Attempts(done)
      && Mem() == Remember(old(Mem()), done)
      && (r == Done ==> Passed(done, closed) && !Strayed(done))
      && (r == StillTrying ==> world.openings == [])
      && (old(InStep()) ==> (InStep() <==> !(rxStarted && Strayed(done))))
    }

    /** No-op on a live session; otherwise reconnect. */
    method EnsureSessionAlive() returns (r: CallResult, ghost done: seq<Event>)
      requires Valid()
      modifies this, world
      ensures Checked(r, done) && CheckTells(done, old(Mem()), hasReopener, closed, r)
    {
      hide World.Truthful, Attempts, Tries, Runs, Listening, Strayed, Passed, Known;
      hide RecoveryTells, LockTells, CheckTells, Remember;
      ghost var m := Mem();
      var a := world.Ask(session);
      var e := Asked(session, a);
      AskedOnly(e, closed);
      AskedQuietly(old(world.log), e, session, world.sessions);
      done := [e];
      if a || !hasReopener {
        r := if a then Done else Raised(OtherDonglora);
        CheckedOnly(e, m, hasReopener, closed);
        RememberNothing(done, m);
        return;
      }
      ghost var rest;
      r, rest := RecoverIfDead();
      done := [e] + rest;
      LookedFirst(e, rest);
      PassedLater(e, rest, closed);
      CheckedLater(e, rest, m, hasReopener, closed, r);
      RememberLater(e, rest, m);
      assert world.log == old(world.log) + done;
    }

    /** The section under the recovery lock: look again, then replace the session. */
    method RecoverIfDead() returns (r: CallResult, ghost done: seq<Event>)
      requires Valid()
      modifies this, world
      ensures Checked(r, done) && LockTells(done, old(Mem()), closed, r)
    {
      hide World.Truthful, Attempts, Tries, Runs, Listening, Strayed, Passed, Known, RecoveryTells, Remember;
      ghost var m := Mem();
      var a := world.Ask(session);
      var e := Asked(session, a);
      AskedOnly(e, closed);
      AskedQuietly(old(world.log), e, session, world.sessions);
      done := [e];
      if a {
        RememberNothing(done, m);
        return Done, done;
      }
      ghost var rest;
      r, rest := RecoverSession();
      done := [e] + rest;
      LookedFirst(e, rest);
      PassedLater(e, rest, closed);
      CheckedLater(e, rest, m, hasReopener, closed, r);
      RememberLater(e, rest, m);
      assert world.log == old(world.log) + done;
    }

    /** After a failed run: make the operation worth trying again, or give its error back. */
    method Repair(e: Error) returns (r: CallResult, again: bool, ghost repair: seq<Event>)
      requires Valid()
      modifies this, world
      ensures Valid() && world.log == old(world.log) + repair && ClosedOnlyElsewhere()
      ensures Repairs(e, old(Mem()), hasReopener, closed, repair, r, again)
      ensures Runs(repair) == [] && (!again ==> r != Done)
      ensures r == StillTrying ==> world.openings == []
      ensures Mem() == Remember(old(Mem()), repair)
      ensures old(InStep()) ==> (InStep() <==> !(rxStarted && Strayed(repair)))
    {
      hide World.Truthful, Attempts, Tries, Runs, Listening, Strayed, Passed, Known, CheckTells, Remember;
      ghost var m := Mem();
      r, again, repair := Raised(e), false, [];
      NothingDone();
      if e == NotConfigured && config.Some? {
        var f := world.Send(session, SendConfig(config.value));
        Reconfigured(old(world.log), session, config.value, f, world.sessions);
        r, again, repair := Ended(f), f.None?, [Sent(session, SendConfig(config.value), f)];
        NoTries(repair[0]);
      } else if e == OtherDonglora {
        var a := world.Ask(session);
        ghost var asked := Asked(session, a);
        AskedOnly(asked, closed);
        AskedQuietly(old(world.log), asked, session, world.sessions);
        repair := [asked];
        if !a && hasReopener {
          ghost var rest;
          r, rest := EnsureSessionAlive();
          again := r == Done;
          repair := [asked] + rest;
          LookedFirst(asked, rest);
          PassedLater(asked, rest, closed);
          RememberLater(asked, rest, m);
          assert repair[1..] == rest;
          return;
        }
      }
      RememberNothing(repair, m);
    }

    /** Run a command; if the session died or the device lost its configuration, repair that and run it again. */
    method WithRecovery(command: Command) returns (r: CallResult, ghost story: Story)
      requires Valid()
      modifies this, world
      ensures Valid() && world.log == old(world.log) + story.Events() && ClosedOnlyElsewhere()
      ensures Tells(story, old(Mem()), command, hasReopener, closed, r) && Mem() == Afterwards(old(Mem()), story)
      ensures r == StillTrying ==> world.openings == []
      ensures command == StartRx && r == Done ==> Listening(world.log, session)
      ensures command == Transmit && old(InStep()) ==> (InStep() <==> !(rxStarted && Strayed(story.Events())))
    {
      hide World.Truthful, Attempts, Tries, Runs, Listening, Strayed, Passed, Known, Repairs, CheckTells, Remember;
      ghost var m := Mem();
      ghost var before;
      r, before := EnsureSessionAlive();
      story := Story(before, None, [], None);
      NothingDone();
      if r == Done {
        r, story := RunRepaired(command, old(world.log), m, before);
      } else {
        RememberNothing([], Remember(m, before));
        StoryStrays(story);
      }
    }

    /** The part of a guarded call that follows its liveness check `before`. */
    method RunRepaired(command: Command, ghost start: seq<Event>, ghost m: Memory, ghost before: seq<Event>)
      returns (r: CallResult, ghost story: Story)
      requires Valid() && world.log == start + before && Runs(before) == [] && !Strayed(before)
      requires Passed(before, closed) && CheckTells(before, m, hasReopener, closed, Done)
      requires Mem() == Remember(m, before)
      modifies this, world
      ensures Valid() && world.log == start + story.Events() && ClosedOnlyElsewhere()
      ensures Tells(story, m, command, hasReopener, closed, r) && Mem() == Afterwards(m, story)
      ensures r == StillTrying ==> world.openings == []
      ensures command == StartRx && r == Done ==> Listening(world.log, session)
      ensures command == Transmit && old(InStep()) ==> (InStep() <==> !(rxStarted && Strayed(story.Events())))
    {
      hide World.Truthful, Attempts, Tries, Runs, Listening, Strayed, Passed, Known, Repairs, CheckTells, Remember;
      NothingDone();
      RememberNothing([], Remember(m, before));
      var f := RunOnce(command);
      story := Story(before, Some(Ran(session, command, f)), [], None);
      r := Ended(f);
      if f.Some? { r, story := Retry(command, f.value, start, m, story); }
      StoryStrays(story);
    }

    /** The part that follows a failed first run. */
    method Retry(command: Command, e: Error, ghost start: seq<Event>, ghost m: Memory, ghost failed: Story)
      returns (r: CallResult, ghost story: Story)
      requires Valid() && failed == Story(failed.before, Some(Ran(session, command, Some(e))), [], None)
      requires world.log == start + failed.Events() && Mem() == Checkpoint(m, failed)
      requires Runs(failed.before) == [] && !Strayed(failed.before)
      requires Passed(failed.before, closed) && CheckTells(failed.before, m, hasReopener, closed, Done)
      modifies this, world
      ensures Valid() && world.log == start + story.Events() && ClosedOnlyElsewhere()
      ensures Tells(story, m, command, hasReopener, closed, r) && Mem() == Afterwards(m, story)
      ensures r == StillTrying ==> world.openings == []
      ensures command == StartRx && r == Done ==> Listening(world.log, session)
      ensures command == Transmit && old(InStep()) ==> (InStep() <==> !(rxStarted && Strayed(story.Events())))
    {
      hide World.Truthful, Attempts, Tries, Runs, Listening, Strayed, Passed, Known, Repairs, CheckTells, Remember;
      var again;
      ghost var repair;
      r, again, repair := Repair(e);
      story := failed.(repair := repair);
      if again {
        ghost var repaired := r;
        var f := RunOnce(command);
        r := Ended(f);
        RepairedAnyway(e, Checkpoint(m, story), hasReopener, closed, repair, repaired, r);
        story := story.(second := Some(Ran(session, command, f)));
      }
      StillPassed(failed.before, m, hasReopener, old(closed), closed);
      StoryStrays(story);
    }

    method RunOnce(command: Command) returns (f: Option<Error>)
      requires Valid()
      modifies world`log
      ensures Valid() && world.log == old(world.log) + [Ran(session, command, f)]
      ensures command == Transmit || (command == StartRx && f.Some?) ==>
                Listening(world.log, session) == Listening(old(world.log), session)
      ensures command == StartRx && f.None? ==> Listening(world.log, session)
    {
      f := world.Run(session, command);
      RanOnce(old(world.log), session, command, f, world.sessions);
    }

    // ----- the user's calls; a closed dongle refuses them all

    method Tx() returns (r: CallResult, ghost story: Story)
      requires Valid()
      modifies this, world
      ensures Valid() && world.log == old(world.log) + story.Events() && ClosedOnlyElsewhere()
      ensures old(closed) ==> r == Raised(OtherDonglora) && story.Events() == [] && Mem() == old(Mem())
      ensures !old(closed) ==> Tells(story, old(Mem()), Transmit, hasReopener, closed, r)
      ensures !old(closed) ==> Mem() == Afterwards(old(Mem()), story)
      ensures |Carrying(story.Events(), Transmit)| <= 2
      ensures r == StillTrying ==> world.openings == []
      ensures old(InStep()) ==> (InStep() <==> !(rxStarted && Strayed(story.Events())))
    {
      hide World.Truthful, Listening, Runs, Strayed, Tells, Remember, Carrying;
      if closed {
        NothingDone();
        story := Story([], None, [], None);
        CarriedByRuns([], Transmit);
        return Raised(OtherDonglora), story;
      }
      r, story := WithRecovery(Transmit);
      BoundedRetry(story, old(Mem()), Transmit, hasReopener, closed, r);
    }

    /** Make sure reception is on. */
    method StartReception() returns (r: CallResult, ghost story: Story)
      requires Valid()
      modifies this, world
      ensures Valid() && world.log == old(world.log) + story.Events() && ClosedOnlyElsewhere()
      ensures old(rxStarted) ==> r == Done && story.Events() == [] && Mem() == old(Mem())
      ensures !old(rxStarted) ==>
                && Tells(story, old(Mem()), StartRx, hasReopener, closed, r)
                && Mem() == Afterwards(old(Mem()), story).(rxStarted := r == Done)
      ensures r == StillTrying ==> world.openings == []
      ensures old(InStep()) ==> InStep()
    {
      hide World.Truthful, Listening, Tells;
      r, story := Done, Story([], None, [], None);
      if !rxStarted {
        r, story := WithRecovery(StartRx);
        if r == Done { rxStarted := true; }
      }
    }

    /** What `rx` does before it hands out its iterator. */
    method Rx() returns (r: CallResult, ghost story: Story)
      requires Valid()
      modifies this, world
      ensures Valid() && world.log == old(world.log) + story.Events() && ClosedOnlyElsewhere()
      ensures old(closed) ==> r == Raised(OtherDonglora)
      ensures !old(closed) && old(rxStarted) ==> r == Done
      ensures old(closed) || old(rxStarted) ==> story.Events() == [] && Mem() == old(Mem())
      ensures !old(closed) && !old(rxStarted) ==>
                && Tells(story, old(Mem()), StartRx, hasReopener, closed, r)
                && Mem() == Afterwards(old(Mem()), story).(rxStarted := r == Done)
      ensures r == StillTrying ==> world.openings == []
      ensures old(InStep()) ==> InStep()
    {
      hide World.Truthful, Tells, Remember;
      if closed { return Raised(OtherDonglora), Story([], None, [], None); }
      r, story := StartReception();
    }

    /** Wait for one packet, on a session that is ready to receive; a session that died meanwhile is replaced. */
    method Recv()
      returns (r: CallResult, got: bool, ghost checked: seq<Event>, ghost story: Story, ghost ready: Memory,
               ghost waited: seq<Event>, ghost after: seq<Event>)
      requires Valid()
      modifies this, world
      ensures Valid() && ClosedOnlyElsewhere()
      ensures world.log == old(world.log) + checked + story.Events() + waited + after
      ensures old(closed) ==> r == Raised(OtherDonglora) && checked == story.Events() == waited == []
      ensures old(closed) ==> Mem() == old(Mem()) == ready
      ensures !old(closed) ==>
                ReadyTells(checked, story, old(Mem()), hasReopener, closed, if waited == [] then r else Done, ready)
      ensures Mem() == Remember(ready, after)
      ensures waited == [] ==> r != Done && !got && after == []
      ensures waited != [] ==> waited == [Polled(ready.session, got)] && ready.rxStarted
      ensures got ==> r == Done && after == []
      ensures waited != [] && !got ==> after != [] && Replaces(after, ready, hasReopener, closed, r)
      ensures r == StillTrying ==> world.openings == []
      ensures old(InStep()) ==> (InStep() <==> !(rxStarted && (Strayed(checked) || Strayed(after))))
    {
      hide World.Truthful, Listening, Strayed, Known, Replaces, ReadyTells, Remember, Tries;
      got, waited, after := false, [], [];
      r, checked, story := GetReady();
      ready := Mem();
      NothingDone();
      RememberNothing([], ready);
      if r != Done { return; }
      ghost var start := world.log;
      got := world.Packet(session);
      waited := [Polled(session, got)];
      PolledQuietly(start, session, got, world.sessions);
      if !got {
        ghost var before := closed;
        r, after := ReplaceIfDead();
        StillReady(checked, story, old(Mem()), hasReopener, before, ready, closed);
      }
    }

    /** What `recv` does before it waits. */
    method GetReady() returns (r: CallResult, ghost checked: seq<Event>, ghost story: Story)
      requires Valid()
      modifies this, world
      ensures Valid() && world.log == old(world.log) + checked + story.Events() && ClosedOnlyElsewhere()
      ensures old(closed) ==> r == Raised(OtherDonglora) && checked == story.Events() == [] && Mem() == old(Mem())
      ensures !old(closed) ==> ReadyTells(checked, story, old(Mem()), hasReopener, closed, r, Mem())
      ensures r == Done ==> !old(closed) && rxStarted
      ensures r == StillTrying ==> world.openings == []
      ensures r == Done ==> !Strayed(checked)
      ensures old(InStep()) ==> (InStep() <==> !(rxStarted && Strayed(checked)))
    {
      hide World.Truthful, Listening, Strayed, Reopened, Passed, Runs, Attempts, CheckTells, Known, Repairs, Remember;
      r, checked, story := Raised(OtherDonglora), [], Story([], None, [], None);
      NothingDone();
      if closed { return; }
      r, checked := EnsureSessionAlive();
      if r != Done { return; }
      ghost var before, m, on := closed, Mem(), rxStarted;
      r, story := StartReception();
      StillPassed(checked, old(Mem()), hasReopener, before, closed);
      if !on { ToldSomething(story, m, StartRx, hasReopener, closed, r); }
    }

    method ReplaceIfDead() returns (r: CallResult, ghost done: seq<Event>)
      requires Valid()
      modifies this, world
      ensures Valid() && world.log == old(world.log) + done && ClosedOnlyElsewhere()
      ensures done != [] && Replaces(done, old(Mem()), hasReopener, closed, r) && Mem() == Remember(old(Mem()), done)
      ensures r == StillTrying ==> world.openings == []
      ensures old(InStep()) ==> (InStep() <==> !(rxStarted && Strayed(done)))
    {
      hide World.Truthful, Listening, Strayed, Reopened, Passed, Runs, Attempts, CheckTells, Remember, Tries;
      ghost var m := Mem();
      var a := world.Ask(session);
      ghost var asked := Asked(session, a);
      AskedOnly(asked, closed);
      AskedQuietly(old(world.log), asked, session, world.sessions);
      r, done := Done, [asked];
      if a {
        RememberNothing(done, m);
      } else {
        ghost var rest;
        r, rest := EnsureSessionAlive();
        StrayedJoin([asked], rest);
        RememberLater(asked, rest, m);
        done := [asked] + rest;
        assert done[1..] == rest;
      }
    }

    /** A command sent once, after a liveness check. */
    method SendChecked(command: Command) returns (r: CallResult, ghost checked: seq<Event>, ghost sent: Option<Event>)
      requires Valid() && (command == StopRx || command == SendPing || command.SendConfig?)
      modifies this, world
      ensures Valid() && world.log == old(world.log) + checked + Opt(sent) && ClosedOnlyElsewhere()
      ensures old(closed) ==> r == Raised(OtherDonglora) && checked == [] && sent == None && Mem() == old(Mem())
      ensures !old(closed) ==>
                && PlainTells(checked, sent, old(Mem()), command, hasReopener, closed, r)
                && Mem() == Remember(old(Mem()), checked)
      ensures r == StillTrying ==> world.openings == []
      ensures r == Done ==> sent == Some(Sent(session, command, None))
      ensures old(InStep()) && (r == Done ==> command == SendPing) ==> (InStep() <==> !(rxStarted && Strayed(checked)))
    {
      hide World.Truthful, Listening, Strayed, Passed, Runs, Attempts, Known, CheckTells, Remember;
      r, checked, sent := Raised(OtherDonglora), [], None;
      NothingDone();
      if closed { return; }
      r, checked := EnsureSessionAlive();
      if r == Done {
        var f := world.Send(session, command);
        SentOnce(old(world.log) + checked, session, command, f, world.sessions);
        r, sent := Ended(f), Some(Sent(session, command, f));
      }
    }

    /** Afterwards the cached configuration is the one acknowledged, and reception is off. */
    method SetConfig(c: Modulation) returns (r: CallResult, ghost checked: seq<Event>, ghost sent: Option<Event>)
      requires Valid()
      modifies this, world
      ensures Valid() && world.log == old(world.log) + checked + Opt(sent) && ClosedOnlyElsewhere()
      ensures old(closed) ==> r == Raised(OtherDonglora) && checked == [] && sent == None && Mem() == old(Mem())
      ensures !old(closed) ==>
                && PlainTells(checked, sent, old(Mem()), SendConfig(c), hasReopener, closed, r)
                && Mem() == if r == Done then Remember(old(Mem()), checked).(config := Some(c), rxStarted := false)
                            else Remember(old(Mem()), checked)
      ensures r == StillTrying ==> world.openings == []
      ensures old(InStep()) ==> (InStep() <==> !(rxStarted && Strayed(checked)))
    {
      hide World.Truthful, Listening, Strayed, PlainTells, Remember;
      r, checked, sent := SendChecked(SendConfig(c));
      if r == Done { config, rxStarted := Some(c), false; }
    }

    method RxStop() returns (r: CallResult, ghost checked: seq<Event>, ghost sent: Option<Event>)
      requires Valid()
      modifies this, world
      ensures Valid() && world.log == old(world.log) + checked + Opt(sent) && ClosedOnlyElsewhere()
      ensures old(closed) ==> r == Raised(OtherDonglora) && checked == [] && sent == None && Mem() == old(Mem())
      ensures !old(closed) ==>
                && PlainTells(checked, sent, old(Mem()), StopRx, hasReopener, closed, r)
                && Mem() == if r == Done then Remember(old(Mem()), checked).(rxStarted := false)
                            else Remember(old(Mem()), checked)
      ensures r == StillTrying ==> world.openings == []
      ensures old(InStep()) ==> (InStep() <==> !(rxStarted && Strayed(checked)))
    {
      hide World.Truthful, Listening, Strayed, PlainTells, Remember;
      r, checked, sent := SendChecked(StopRx);
      if r == Done { rxStarted := false; }
    }

    method Ping() returns (r: CallResult, ghost checked: seq<Event>, ghost sent: Option<Event>)
      requires Valid()
      modifies this, world
      ensures Valid() && world.log == old(world.log) + checked + Opt(sent) && ClosedOnlyElsewhere()
      ensures old(closed) ==> r == Raised(OtherDonglora) && checked == [] && sent == None && Mem() == old(Mem())
      ensures !old(closed) ==>
                && PlainTells(checked, sent, old(Mem()), SendPing, hasReopener, closed, r)
                && Mem() == Remember(old(Mem()), checked)
      ensures r == StillTrying ==> world.openings == []
      ensures old(InStep()) ==> (InStep() <==> !(rxStarted && Strayed(checked)))
    {
      hide World.Truthful, Listening, Strayed, PlainTells, Remember;
      r, checked, sent := SendChecked(SendPing);
    }

    /** Closes the session the first time, does nothing after that. */
    method Close()
      requires Valid()
      modifies this`closed, world`log
      ensures Valid() && closed && Mem() == old(Mem())
      ensures world.log == old(world.log) + (if old(closed) then [] else [Shut(session)])
      ensures InStep() == old(InStep())
    {
      if closed { return; }
      closed := true;
      world.Shutdown(session);
      ListeningQuiet(old(world.log), [Shut(session)], session, world.sessions);
    }

    /** One turn of the keepalive thread, `since` seconds after the last recorded write. `Raised` ends the thread. */
    method KeepaliveTurn(since: real) returns (r: CallResult, marked: bool, ghost done: seq<Event>)
      requires Valid()
      modifies this, world
      ensures Valid() && world.log == old(world.log) + done && ClosedOnlyElsewhere()
      ensures TurnTells(done, old(Mem()), since >= 0.5, hasReopener, closed, marked, r)
      ensures r.Raised? ==> !IsDonglora(r.error)
      ensures r == StillTrying ==> world.openings == []
      ensures Mem() == Remember(old(Mem()), done)
      ensures old(InStep()) ==> (InStep() <==> !(rxStarted && Strayed(done)))
    {
      hide World.Truthful, Listening, Strayed, Passed, Runs, Attempts, Tries, Known, CheckTells, Remember, PingTells;
      ghost var m := Mem();
      var a := world.Ask(session);
      ghost var asked := Asked(session, a);
      AskedOnly(asked, closed);
      AskedQuietly(old(world.log), asked, session, world.sessions);
      r, marked, done := Done, false, [asked];
      if !a && hasReopener {
        ghost var rest;
        r, rest := EnsureSessionAlive();
        done := [asked] + rest;
        LookedFirst(asked, rest);
        PassedLater(asked, rest, closed);
        assert done[1..] == rest;
        assert CheckTells(done[1..], old(Mem()), hasReopener, closed, r);
        RememberLater(asked, rest, m);
        if r.Raised? && IsDonglora(r.error) { r := Done; }
        return;
      }
      NoTries(asked);
      RememberNothing(done, m);
      if since < KEEPALIVE_INTERVAL { return; }
      ghost var pings;
      marked, pings := PingOrReconfigure();
      done := [asked] + pings;
      assert done[1..] == pings;
      Joined([asked], pings);
      RememberNothing(done, m);
      StrayedJoin([asked], pings);
    }

    /** Ping; if the device has lost its configuration, send it again and hope. */
    method PingOrReconfigure() returns (acknowledged: bool, ghost done: seq<Event>)
      requires Valid()
      modifies world`log
      ensures Valid() && world.log == old(world.log) + done && Tries(done) == []
      ensures PingTells(done, Mem(), acknowledged)
      ensures old(InStep()) ==> (InStep() <==> !(rxStarted && Strayed(done)))
    {
      hide World.Truthful, Listening, Strayed, Runs, Tries, Known;
      var f := world.Send(session, SendPing);
      ghost var ping := Sent(session, SendPing, f);
      SentOnce(old(world.log), session, SendPing, f, world.sessions);
      acknowledged, done := f.None?, [ping];
      if f == Some(NotConfigured) && config.Some? {
        ghost var before := world.log;
        var g := world.Send(session, SendConfig(config.value));
        ghost var again := Sent(session, SendConfig(config.value), g);
        Reconfigured(before, session, config.value, g, world.sessions);
        StrayedJoin([ping], [again]);
        Joined([ping], [again]);
        NoTries(again);
        done := [ping] + [again];
      }
    }
  }
}
