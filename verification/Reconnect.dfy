/** Any number of threads finding the session dead, closing the dongle, or both: the double-checked recovery
    lock, step by step. */
module Reconnect {
  import opened Bytes
  import opened Sequences

  /** Where a thread is. Sessions are numbered in the order they were opened; `stale` is the one being replaced. */
  datatype Pc =
    | Idle | Looked(seen: nat) | WantsLock
    | Entered | Shutting(stale: nat) | AtHead(stale: nat) | Opening(stale: nat) | Sleeping(stale: nat)
    | Installing(stale: nat, next: nat) | Restarting | Leaving
    | SettingClosed | CloseReading | CloseOn(session: nat)

  /** `dead` has an entry for every session opened. History: `deaths` are the sessions that died other than by
      recovery's own closing of them; `replaced` lists the sessions taken out of use, in order. */
  datatype State = State(
    dead: seq<bool>, current: nat, pcs: seq<Pc>, lock: Option<nat>, closed: bool,
    deaths: set<nat>, replaced: seq<nat>)

  predicate Start(s: State) {
    && s.dead == [false] && s.current == 0 && s.lock == None && !s.closed && s.deaths == {} && s.replaced == []
    && forall t :: 0 <= t < |s.pcs| ==> s.pcs[t] == Idle
  }

  datatype Step =
    | Die(session: nat)
    | Look(t: nat) | Judge(t: nat) | Acquire(t: nat) | LookAgain(t: nat) | ShutOld(t: nat) | Head(t: nat)
    | OpenFails(t: nat) | OpenRaises(t: nat) | OpenWorks(t: nat) | Wake(t: nat, stop: bool)
    | Install(t: nat) | Restarted(t: nat) | Release(t: nat)
    | CheckClosed(t: nat) | SetClosed(t: nat) | ReadForClose(t: nat) | CloseSession(t: nat)

  predicate Opened(s: State, session: nat) { session < |s.dead| }

  predicate Enabled(s: State, step: Step) {
    if step.Die? then Opened(s, step.session) && !s.dead[step.session]
    else
      step.t < |s.pcs| &&
      var pc := s.pcs[step.t];
      match step
      case Look(_) => pc == Idle
      case Judge(_) => pc.Looked? && Opened(s, pc.seen)
      case Acquire(_) => pc == WantsLock && s.lock == None
      case LookAgain(_) => pc == Entered && Opened(s, s.current)
      case ShutOld(_) => pc.Shutting? && Opened(s, pc.stale)
      case Head(_) => pc.AtHead?
      case OpenFails(_) => pc.Opening?
      case OpenRaises(_) => pc.Opening?
      case OpenWorks(_) => pc.Opening?
      case Wake(_, stop) => pc.Sleeping? && (stop ==> s.closed)
      case Install(_) => pc.Installing?
      case Restarted(_) => pc == Restarting
      case Release(_) => pc == Leaving
      case CheckClosed(_) => pc == Idle
      case SetClosed(_) => pc == SettingClosed
      case ReadForClose(_) => pc == CloseReading
      case CloseSession(_) => pc.CloseOn? && Opened(s, pc.session)
      case _ => false
  }

  function Move(s: State, t: nat, pc: Pc): State
    requires t < |s.pcs|
  {
    s.(pcs := s.pcs[t := pc])
  }

  function Apply(s: State, step: Step): State
    requires Enabled(s, step)
  {
    match step
    case Die(g) => s.(dead := s.dead[g := true], deaths := s.deaths + {g})
    case Look(t) => Move(s, t, Looked(s.current))
    case Judge(t) => Move(s, t, if s.dead[s.pcs[t].seen] then WantsLock else Idle)
    case Acquire(t) => Move(s, t, Entered).(lock := Some(t))
    case LookAgain(t) => Move(s, t, if s.dead[s.current] then Shutting(s.current) else Leaving)
    case ShutOld(t) => Move(s, t, AtHead(s.pcs[t].stale)).(dead := s.dead[s.pcs[t].stale := true])
    case Head(t) => Move(s, t, if s.closed then Leaving else Opening(s.pcs[t].stale))
    case OpenFails(t) => Move(s, t, Sleeping(s.pcs[t].stale))
    case OpenRaises(t) => Move(s, t, Leaving)
    case OpenWorks(t) => Move(s, t, Installing(s.pcs[t].stale, |s.dead|)).(dead := s.dead + [false])
    case Wake(t, stop) => Move(s, t, if stop then Leaving else AtHead(s.pcs[t].stale))
    case Install(t) =>
      Move(s, t, Restarting).(current := s.pcs[t].next, replaced := s.replaced + [s.current])
    case Restarted(t) => Move(s, t, Leaving)
    case Release(t) => Move(s, t, Idle).(lock := None)
    case CheckClosed(t) => Move(s, t, if s.closed then Idle else SettingClosed)
    case SetClosed(t) => Move(s, t, CloseReading).(closed := true)
    case ReadForClose(t) => Move(s, t, CloseOn(s.current))
    case CloseSession(t) =>
      var g := s.pcs[t].session;
      var idle := Move(s, t, Idle);
      if s.dead[g] then idle else idle.(dead := s.dead[g := true], deaths := s.deaths + {g})
  }

  function Successor(s: State, step: Step): Option<State> {
    if Enabled(s, step) then Some(Apply(s, step)) else None
  }

  // ----- the invariant

  predicate InSection(pc: Pc) {
    pc == Entered || Recovering(pc) || pc == Restarting || pc == Leaving
  }

  /** Between finding the session dead under the lock and replacing it. */
  predicate Recovering(pc: Pc) { pc.Shutting? || pc.AtHead? || pc.Opening? || pc.Sleeping? || pc.Installing? }

  predicate Exclusion(s: State) {
    && (s.lock.Some? ==> s.lock.value < |s.pcs|)
    && forall t :: 0 <= t < |s.pcs| ==> (InSection(s.pcs[t]) <==> s.lock == Some(t))
  }

  function Holder(s: State): Pc {
    if s.lock.Some? && s.lock.value < |s.pcs| then s.pcs[s.lock.value] else Idle
  }

  predicate PcOk(s: State, pc: Pc) {
    && (Recovering(pc) ==> pc.stale == s.current && s.current in s.deaths)
    && (pc.Looked? ==> Opened(s, pc.seen))
    && (pc.CloseOn? ==> Opened(s, pc.session))
    && (pc.Installing? ==> pc.next == s.current + 1)
  }

  /** Sessions replaced so far are 0, 1, ... in order, each after it died; at most one more has been opened. */
  predicate Chain(s: State) {
    && |s.dead| == s.current + (if Holder(s).Installing? then 2 else 1)
    && |s.replaced| == s.current && (forall i :: 0 <= i < s.current ==> s.replaced[i] == i && i in s.deaths)
    && (forall g :: 0 <= g < |s.dead| && s.dead[g] ==> g in s.deaths)
  }

  predicate PcsOk(s: State) { forall t :: 0 <= t < |s.pcs| ==> PcOk(s, s.pcs[t]) }

  predicate Inv(s: State) { Exclusion(s) && Chain(s) && PcsOk(s) }

  lemma StartIsSafe(s: State)
    requires Start(s)
    ensures Inv(s)
  {
  }

  lemma ExclusionKept(s: State, step: Step)
    requires Exclusion(s) && Enabled(s, step)
    ensures Exclusion(Apply(s, step))
  {
    var s' := Apply(s, step);
    SameThreads(s, step);
    forall t | 0 <= t < |s'.pcs| ensures InSection(s'.pcs[t]) <==> s'.lock == Some(t) {
      hide Recovering;
      if step.Die? || step.t != t {
        assert s'.pcs[t] == s.pcs[t];
        LockElsewhere(s, step, t);
      } else {
        OwnSection(s, step);
      }
    }
  }

  lemma LockElsewhere(s: State, step: Step, t: nat)
    requires Exclusion(s) && Enabled(s, step) && t < |s.pcs| && (step.Die? || step.t != t)
    ensures Apply(s, step).lock == Some(t) <==> s.lock == Some(t)
  {
  }

  lemma OwnSection(s: State, step: Step)
    requires Exclusion(s) && Enabled(s, step) && !step.Die?
    ensures |Apply(s, step).pcs| == |s.pcs|
    ensures InSection(Apply(s, step).pcs[step.t]) <==> Apply(s, step).lock == Some(step.t)
  {
  }

  lemma ChainKept(s: State, step: Step)
    requires Inv(s) && Enabled(s, step)
    ensures Chain(Apply(s, step))
  {
    if !step.Die? { assert PcOk(s, s.pcs[step.t]); }
  }

  lemma OwnPcKept(s: State, step: Step)
    requires Inv(s) && Enabled(s, step) && !step.Die?
    ensures |Apply(s, step).pcs| == |s.pcs| && PcOk(Apply(s, step), Apply(s, step).pcs[step.t])
  {
    assert PcOk(s, s.pcs[step.t]);
  }

  lemma OtherPcKept(s: State, step: Step, t: nat)
    requires Inv(s) && Enabled(s, step) && t < |s.pcs| && (step.Die? || step.t != t)
    ensures |Apply(s, step).pcs| == |s.pcs|
    ensures Apply(s, step).pcs[t] == s.pcs[t] && PcOk(Apply(s, step), s.pcs[t])
  {
    assert PcOk(s, s.pcs[t]);
  }

  lemma StepKeepsInv(s: State, step: Step)
    requires Inv(s) && Enabled(s, step)
    ensures Inv(Apply(s, step))
  {
    hide Exclusion, Chain, PcOk, Apply, Enabled;
    ExclusionKept(s, step);
    ChainKept(s, step);
    forall t | 0 <= t < |Apply(s, step).pcs| ensures PcOk(Apply(s, step), Apply(s, step).pcs[t]) {
      SameThreads(s, step);
      if step.Die? || step.t != t { OtherPcKept(s, step, t); } else { OwnPcKept(s, step); }
    }
  }

  lemma SameThreads(s: State, step: Step)
    requires Enabled(s, step)
    ensures |Apply(s, step).pcs| == |s.pcs|
  {
  }

  ghost predicate IsRun(states: seq<State>, steps: seq<Step>) {
    && |states| == |steps| + 1 && Start(states[0])
    && forall k {:trigger steps[k]} :: 0 <= k < |steps| ==> Follows(states[k], steps[k], states[k + 1])
  }

  predicate Follows(s: State, step: Step, s': State) { Enabled(s, step) && s' == Apply(s, step) }

  lemma {:induction false} RunIsSafe(states: seq<State>, steps: seq<Step>, k: nat)
    requires IsRun(states, steps) && k < |states|
    ensures Inv(states[k])
    decreases k
  {
    hide Inv, Apply, Enabled, Start;
    if k == 0 {
      StartIsSafe(states[0]);
    } else {
      RunIsSafe(states, steps, k - 1);
      assert Follows(states[k - 1], steps[k - 1], states[k]);
      StepKeepsInv(states[k - 1], steps[k - 1]);
    }
  }

  // ----- one reconnect per death

  lemma {:induction false} CountUpTo(n: nat, deaths: set<nat>)
    requires forall i :: 0 <= i < n ==> i in deaths
    ensures n <= |deaths|
    decreases n
  {
    if n > 0 { CountUpTo(n - 1, deaths - {n - 1}); }
  }

  /** In every interleaving: no session is replaced twice, only sessions that died of themselves or were closed
      by the user are replaced, sessions reopened never outnumber deaths, and one thread at a time recovers. */
  lemma OneReconnectPerDeath(states: seq<State>, steps: seq<Step>, k: nat)
    requires IsRun(states, steps) && k < |states|
    ensures var s := states[k];
            && (forall i, j :: 0 <= i < j < |s.replaced| ==> s.replaced[i] < s.replaced[j] < s.current)
            && (forall i :: 0 <= i < |s.replaced| ==> s.replaced[i] in s.deaths)
            && |s.dead| - 1 <= |s.deaths|
            && (forall t, u :: 0 <= t < |s.pcs| && 0 <= u < |s.pcs| ==>
                  Recovering(s.pcs[t]) && Recovering(s.pcs[u]) ==> t == u)
  {
    hide Apply, Enabled, Follows;
    RunIsSafe(states, steps, k);
    var s := states[k];
    if Holder(s).Installing? { assert PcOk(s, s.pcs[s.lock.value]); }
    CountUpTo(|s.dead| - 1, s.deaths);
  }

  /** A session is taken out of use only by the thread that found it dead under the lock, and never comes back. */
  lemma CurrentOnlyAdvances(s: State, step: Step)
    requires Inv(s) && Enabled(s, step)
    ensures var s' := Apply(s, step);
            && (s'.current != s.current ==> step.Install? && s'.current == s.current + 1 && s.current in s.deaths)
            && (s'.current != s.current ==> s.lock == Some(step.t))
            && |s'.dead| >= |s.dead| && (forall g :: 0 <= g < |s.dead| && s.dead[g] ==> s'.dead[g])
  {
    if step.Install? { assert PcOk(s, s.pcs[step.t]); }
  }

  /** Recovery ends with a session in place, or because the dongle was closed, or by an error the loop does
      not catch. */
  lemma RecoveryEnds(s: State, step: Step, t: nat)
    requires Enabled(s, step) && t < |s.pcs| && Recovering(s.pcs[t]) && !Recovering(Apply(s, step).pcs[t])
    ensures step == Install(t) || s.closed || step == OpenRaises(t)
  {
    ThreadStays(s, step, t);
  }

  lemma ThreadStays(s: State, step: Step, t: nat)
    requires Enabled(s, step) && t < |s.pcs|
    ensures |Apply(s, step).pcs| == |s.pcs|
    ensures step.Die? || step.t != t ==> Apply(s, step).pcs[t] == s.pcs[t]
  {
  }

  // ----- closing against reopening

  /** A reopener call is under way, or its session not yet in place. */
  predicate InFlight(s: State) { exists t :: 0 <= t < |s.pcs| && Reopens(s.pcs[t]) }

  predicate Reopens(pc: Pc) { pc.Opening? || pc.Installing? }

  predicate Sealed(s: State) { s.closed && !InFlight(s) }

  /** Thread `t` of a `close` is on its way to closing session `c`, or `c` is dead already. */
  predicate Doomed(s: State, t: nat, c: nat) {
    && Sealed(s) && s.current == c && t < |s.pcs| && Opened(s, c)
    && (s.pcs[t] == CloseReading || s.pcs[t] == CloseOn(c) || s.dead[c])
  }

  lemma SealedStays(s: State, step: Step)
    requires Sealed(s) && Enabled(s, step)
    ensures Sealed(Apply(s, step)) && Apply(s, step).current == s.current
  {
    var s' := Apply(s, step);
    SameThreads(s, step);
    forall t | 0 <= t < |s'.pcs| ensures !Reopens(s'.pcs[t]) {
      assert !Reopens(s.pcs[t]);
      if step.Die? || step.t != t { assert s'.pcs[t] == s.pcs[t]; }
    }
  }

  lemma DoomedStays(s: State, step: Step, t: nat, c: nat)
    requires Inv(s) && Doomed(s, t, c) && Enabled(s, step)
    ensures Doomed(Apply(s, step), t, c)
  {
    hide Inv, Sealed;
    SealedStays(s, step);
    CurrentOnlyAdvances(s, step);
    SameThreads(s, step);
    if step.Die? || step.t != t { assert Apply(s, step).pcs[t] == s.pcs[t]; }
  }

  lemma {:induction false} DoomedFrom(states: seq<State>, steps: seq<Step>, j: nat, k: nat, t: nat, c: nat)
    requires IsRun(states, steps) && j <= k < |states| && Doomed(states[j], t, c)
    ensures Doomed(states[k], t, c)
    decreases k
  {
    hide Apply, Enabled, Doomed;
    if j < k {
      DoomedFrom(states, steps, j, k - 1, t, c);
      RunIsSafe(states, steps, k - 1);
      assert Follows(states[k - 1], steps[k - 1], states[k]);
      DoomedStays(states[k - 1], steps[k - 1], t, c);
    }
  }

  /** When no reopener call is in flight as `close` sets its flag, the dongle never gets another session, and
      after that `close` its session is dead. */
  lemma CloseIsFinal(states: seq<State>, steps: seq<Step>, j: nat, k: nat, t: nat)
    requires IsRun(states, steps) && j < k < |states| && steps[j] == SetClosed(t) && !InFlight(states[j])
    requires t < |states[k].pcs| && states[k].pcs[t] != CloseReading && !states[k].pcs[t].CloseOn?
    ensures states[k].current == states[j].current
    ensures states[k].current < |states[k].dead| && states[k].dead[states[k].current]
  {
    RunIsSafe(states, steps, j);
    var s := states[j];
    assert Follows(states[j], steps[j], states[j + 1]);
    var closed := s.(closed := true);
    assert states[j + 1] == Move(closed, t, CloseReading);
    var next := states[j + 1];
    forall u | 0 <= u < |next.pcs| ensures !Reopens(next.pcs[u]) {
      assert !Reopens(s.pcs[u]);
    }
    assert Doomed(states[j + 1], t, s.current);
    DoomedFrom(states, steps, j + 1, k, t, s.current);
  }

  lemma PlayThree(s: State, a: Step, b: Step, c: Step)
    requires Enabled(s, a) && Enabled(Apply(s, a), b) && Enabled(Apply(Apply(s, a), b), c)
    ensures Play(Successor, s, [a, b, c]) == Some(Apply(Apply(Apply(s, a), b), c))
  {
    hide Enabled, Apply;
    var s2 := Apply(Apply(s, a), b);
    assert [a, b, c][1..] == [b, c] && [b, c][1..] == [c] && [c][1..] == [];
    assert Play(Successor, s2, [c]) == Some(Apply(s2, c));
    assert Play(Successor, Apply(s, a), [b, c]) == Play(Successor, s2, [c]);
  }

  /** `close` runs to its end on thread `t`. */
  lemma CloseRuns(s: State, t: nat) returns (steps: seq<Step>)
    requires t < |s.pcs| && s.pcs[t] == SettingClosed && Opened(s, s.current)
    ensures Play(Successor, s, steps).Some?
    ensures var end := Play(Successor, s, steps).value;
            && end.closed && end.pcs == s.pcs[t := Idle] && end.lock == s.lock && end.current == s.current
            && |end.dead| == |s.dead| && (forall g :: 0 <= g < |s.dead| && g != s.current ==> end.dead[g] == s.dead[g])
  {
    steps := [SetClosed(t), ReadForClose(t), CloseSession(t)];
    PlayThree(s, SetClosed(t), ReadForClose(t), CloseSession(t));
  }

  /** Thread `r` puts the session it has opened in place and leaves. */
  lemma InstallRuns(s: State, r: nat) returns (steps: seq<Step>)
    requires r < |s.pcs| && s.pcs[r].Installing? && s.pcs[r].next == s.current + 1
    ensures Play(Successor, s, steps).Some?
    ensures var end := Play(Successor, s, steps).value;
            && end.closed == s.closed && end.pcs == s.pcs[r := Idle] && end.lock == None
            && end.current == s.current + 1 && end.dead == s.dead
  {
    steps := [Install(r), Restarted(r), Release(r)];
    PlayThree(s, Install(r), Restarted(r), Release(r));
  }

  /** Thread `r`'s reopener call succeeds if it is still under way; then it leaves. */
  lemma ReopenRuns(s: State, r: nat) returns (steps: seq<Step>)
    requires r < |s.pcs| && Promising(s, r)
    ensures Play(Successor, s, steps).Some?
    ensures var end := Play(Successor, s, steps).value;
            && end.closed == s.closed && end.pcs == s.pcs[r := Idle] && end.lock == None
            && end.current == s.current + 1 && end.current < |end.dead| && !end.dead[end.current]
  {
    hide Play;
    if s.pcs[r].Opening? {
      var holding := Apply(s, OpenWorks(r));
      var rest := InstallRuns(holding, r);
      PlayFirst(Successor, s, OpenWorks(r), rest);
      steps := [OpenWorks(r)] + rest;
    } else {
      steps := InstallRuns(s, r);
    }
  }

  /** Thread `r` is inside the reopener, or holds a live session it has not yet put in place. */
  predicate Promising(s: State, r: nat)
    requires r < |s.pcs|
  {
    || (s.pcs[r].Opening? && |s.dead| == s.current + 1)
    || (s.pcs[r].Installing? && s.pcs[r].next == s.current + 1 && |s.dead| == s.current + 2 && !s.dead[s.current + 1])
  }

  /** When one is in flight, every `close` can run to its end and the dongle still be left with a new, live
      session, unless that one has died before it is put in place. */
  lemma ReopenOutlivesClose(s: State, r: nat, t: nat) returns (steps: seq<Step>)
    requires Inv(s) && r < |s.pcs| && t < |s.pcs| && Reopens(s.pcs[r]) && s.pcs[t] == SettingClosed
    requires s.pcs[r].Installing? ==> s.pcs[r].next < |s.dead| && !s.dead[s.pcs[r].next]
    ensures Play(Successor, s, steps).Some?
    ensures var end := Play(Successor, s, steps).value;
            && end.closed && end.pcs == s.pcs[t := Idle][r := Idle] && end.lock == None
            && end.current == s.current + 1 && end.current < |end.dead| && !end.dead[end.current]
  {
    hide Play;
    assert Recovering(s.pcs[r]) && PcOk(s, s.pcs[r]) && s.lock == Some(r);
    var close := CloseRuns(s, t);
    var s1 := Play(Successor, s, close).value;
    var reopen := ReopenRuns(s1, r);
    PlayMore(Successor, s, close, reopen);
    steps := close + reopen;
  }

  lemma LooksDead(s: State, t: nat) returns (steps: seq<Step>)
    requires t < |s.pcs| && s.pcs[t] == Idle && s.lock == None && Opened(s, s.current) && s.dead[s.current]
    ensures Play(Successor, s, steps) == Some(s.(pcs := s.pcs[t := Entered], lock := Some(t)))
  {
    steps := [Look(t), Judge(t), Acquire(t)];
    PlayThree(s, Look(t), Judge(t), Acquire(t));
    assert Play(Successor, s, steps).value.pcs == s.pcs[t := Entered];
  }

  lemma StartsReopening(s: State, t: nat) returns (steps: seq<Step>)
    requires t < |s.pcs| && s.pcs[t] == Entered && Opened(s, s.current) && s.dead[s.current] && !s.closed
    ensures Play(Successor, s, steps) == Some(s.(pcs := s.pcs[t := Opening(s.current)]))
  {
    steps := [LookAgain(t), ShutOld(t), Head(t)];
    PlayThree(s, LookAgain(t), ShutOld(t), Head(t));
    assert s.dead[s.current := true] == s.dead;
    assert Play(Successor, s, steps).value.pcs == s.pcs[t := Opening(s.current)];
  }

  /** With a thread in the reopener and another about to set the closed flag. */
  lemma ReachesRace(s: State) returns (steps: seq<Step>)
    requires s == State([false], 0, [Idle, Idle], None, false, {}, [])
    ensures Play(Successor, s, steps) == Some(State([true], 0, [Opening(0), SettingClosed], Some(0), false, {0}, []))
  {
    hide Play;
    var s1 := State([true], 0, [Idle, Idle], None, false, {0}, []);
    var s3 := State([true], 0, [Opening(0), Idle], Some(0), false, {0}, []);
    assert Apply(s, Die(0)).dead == [true] && Apply(s, Die(0)).deaths == {0};
    var look := LooksDead(s1, 0);
    var s2 := Play(Successor, s1, look).value;
    var reopen := StartsReopening(s2, 0);
    assert Play(Successor, s2, reopen).value == s3;
    PlayOne(Successor, s3, CheckClosed(1));
    assert Apply(s3, CheckClosed(1)).pcs == [Opening(0), SettingClosed];
    PlayMore(Successor, s2, reopen, [CheckClosed(1)]);
    PlayMore(Successor, s1, look, reopen + [CheckClosed(1)]);
    steps := [Die(0)] + (look + (reopen + [CheckClosed(1)]));
    PlayFirst(Successor, s, Die(0), look + (reopen + [CheckClosed(1)]));
  }

  /** A run from the start in which the session dies, one thread reopens it, another closes the dongle meanwhile,
      and both are done while the dongle has a new, live session. */
  lemma CloseLosesRace() returns (s: State, steps: seq<Step>)
    ensures Start(s) && Play(Successor, s, steps).Some?
    ensures var end := Play(Successor, s, steps).value;
            && end.closed && end.pcs == [Idle, Idle] && end.lock == None
            && end.current == 1 && end.current < |end.dead| && !end.dead[end.current]
  {
    hide Play;
    s := State([false], 0, [Idle, Idle], None, false, {}, []);
    var first := ReachesRace(s);
    var race := State([true], 0, [Opening(0), SettingClosed], Some(0), false, {0}, []);
    RaceIsSafe(race);
    var second := ReopenOutlivesClose(race, 0, 1);
    PlayMore(Successor, s, first, second);
    steps := first + second;
  }

  lemma RaceIsSafe(s: State)
    requires s == State([true], 0, [Opening(0), SettingClosed], Some(0), false, {0}, [])
    ensures Inv(s)
  {
  }
}
