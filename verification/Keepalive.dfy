/** When the keepalive thread writes, against when the user does. Its timer fires on time, every interval,
    and a ping is answered at once. */
module Keepalive {
  import opened Dongle

  /** `recorded`: times entered as last write, the first when the dongle was made. `sent`: times something
      was written, which a ping is whether or not it is acknowledged. */
  datatype Trace = Trace(recorded: seq<real>, sent: seq<real>)

  const START := Trace([0.0], [0.0])

  function Last(times: seq<real>): real
    requires times != []
  {
    times[|times| - 1]
  }

  /** The user's writes during one interval, and whether a ping at its end would be acknowledged. */
  datatype Period = Period(writes: seq<real>, acked: bool)

  function TimeOf(n: nat): real { n as real * KEEPALIVE_INTERVAL }

  predicate InPeriod(writes: seq<real>, n: nat) {
    && (forall i :: 0 <= i < |writes| ==> TimeOf(n) <= writes[i] <= TimeOf(n + 1))
    && (forall i, j :: 0 <= i <= j < |writes| ==> writes[i] <= writes[j])
  }

  predicate Schedule(periods: seq<Period>) { forall n :: 0 <= n < |periods| ==> InPeriod(periods[n].writes, n) }

  predicate Overdue(t: Trace, now: real)
    requires t.recorded != []
  {
    now - Last(t.recorded) >= KEEPALIVE_INTERVAL
  }

  function Written(t: Trace, writes: seq<real>): Trace { Trace(t.recorded + writes, t.sent + writes) }

  function Ticked(t: Trace, now: real, acked: bool): Trace
    requires t.recorded != []
  {
    if Overdue(t, now) then Trace(if acked then t.recorded + [now] else t.recorded, t.sent + [now]) else t
  }

  function After(periods: seq<Period>): (t: Trace)
    ensures t.recorded != [] && t.sent != []
  {
    if periods == [] then START
    else
      var n := |periods| - 1;
      Ticked(Written(After(periods[..n]), periods[n].writes), TimeOf(n + 1), periods[n].acked)
  }

  method KeepaliveLoop(periods: seq<Period>) returns (recorded: seq<real>, sent: seq<real>)
    ensures Trace(recorded, sent) == After(periods)
  {
    recorded, sent := [0.0], [0.0];
    for n := 0 to |periods|
      invariant recorded != [] && Trace(recorded, sent) == After(periods[..n])
    {
      assert periods[..n + 1][..n] == periods[..n];
      recorded, sent := recorded + periods[n].writes, sent + periods[n].writes;
      var now := TimeOf(n + 1);
      if now - Last(recorded) >= KEEPALIVE_INTERVAL {
        sent := sent + [now];
        if periods[n].acked { recorded := recorded + [now]; }
      }
    }
    assert periods[..|periods|] == periods;
  }

  /** In order, and never `bound` or more apart. */
  predicate Spaced(times: seq<real>, bound: real) {
    forall i :: 0 <= i < |times| - 1 ==> 0.0 <= times[i + 1] - times[i] < bound
  }

  lemma {:induction false} SpacedJoin(times: seq<real>, more: seq<real>, bound: real)
    requires times != [] && Spaced(times, bound)
    requires forall i, j :: 0 <= i <= j < |more| ==> more[i] <= more[j]
    requires more != [] ==> Last(times) <= more[0] && Last(more) < Last(times) + bound
    ensures Spaced(times + more, bound)
  {
    forall i | 0 <= i < |times + more| - 1 ensures 0.0 <= (times + more)[i + 1] - (times + more)[i] < bound {
      if i >= |times| {
        var k := i - |times|;
        assert more[0] <= more[k] <= more[k + 1] <= more[|more| - 1];
      } else if i == |times| - 1 {
        assert more[0] <= more[|more| - 1];
      }
    }
  }

  const LIMIT := 2.0 * KEEPALIVE_INTERVAL

  /** At time `now` the last write is less than `age` old. */
  predicate Recent(t: Trace, now: real, age: real) {
    && t.recorded != [] && t.sent != []
    && Spaced(t.sent, LIMIT) && Last(t.recorded) <= Last(t.sent) <= now < Last(t.sent) + age
  }

  lemma WritesKeepRecent(t: Trace, writes: seq<real>, n: nat)
    requires Recent(t, TimeOf(n), KEEPALIVE_INTERVAL) && InPeriod(writes, n)
    ensures Recent(Written(t, writes), TimeOf(n + 1), LIMIT)
  {
    NextTick(n);
    if writes == [] {
      assert t.sent + writes == t.sent && t.recorded + writes == t.recorded;
    } else {
      SpacedJoin(t.sent, writes, LIMIT);
    }
  }

  lemma NextTick(n: nat)
    ensures TimeOf(n + 1) == TimeOf(n) + KEEPALIVE_INTERVAL && LIMIT == 2.0 * KEEPALIVE_INTERVAL
    ensures KEEPALIVE_INTERVAL > 0.0
  {
  }

  lemma TickKeepsRecent(t: Trace, now: real, acked: bool)
    requires Recent(t, now, LIMIT)
    ensures Recent(Ticked(t, now, acked), now, KEEPALIVE_INTERVAL)
  {
    if Overdue(t, now) { SpacedJoin(t.sent, [now], LIMIT); }
  }

  lemma {:induction false} AlwaysRecent(periods: seq<Period>)
    requires Schedule(periods)
    ensures Recent(After(periods), TimeOf(|periods|), KEEPALIVE_INTERVAL)
    ensures (forall n :: 0 <= n < |periods| ==> periods[n].acked) ==> After(periods).recorded == After(periods).sent
    decreases |periods|
  {
    if periods != [] {
      hide Recent, InPeriod;
      var n := |periods| - 1;
      AlwaysRecent(periods[..n]);
      WritesKeepRecent(After(periods[..n]), periods[n].writes, n);
      TickKeepsRecent(Written(After(periods[..n]), periods[n].writes), TimeOf(n + 1), periods[n].acked);
    }
  }

  /** Whatever the user writes and whenever: two writes in a row are less than a second apart; and so are the
      recorded ones when every ping is acknowledged. */
  lemma KeepaliveBound(periods: seq<Period>)
    requires Schedule(periods)
    ensures Spaced(After(periods).sent, 1.0)
    ensures (forall n :: 0 <= n < |periods| ==> periods[n].acked) ==> Spaced(After(periods).recorded, 1.0)
  {
    AlwaysRecent(periods);
  }

  /** No smaller bound holds. */
  lemma BoundIsTight(bound: real) returns (periods: seq<Period>)
    requires bound < 1.0
    ensures Schedule(periods) && (forall n :: 0 <= n < |periods| ==> periods[n].acked)
    ensures !Spaced(After(periods).recorded, bound)
  {
    var gap := if bound < KEEPALIVE_INTERVAL then KEEPALIVE_INTERVAL else bound;
    var early := (LIMIT - gap) / 2.0;
    periods := [Period([early], true), Period([], true)];
    assert periods[..1] == [Period([early], true)] && periods[..1][..0] == [];
    assert After([]) == START;
    assert After(periods[..1]).recorded == [0.0, early];
    assert After(periods).recorded == [0.0, early, LIMIT];
    assert [0.0, early, LIMIT][1 + 1] - [0.0, early, LIMIT][1] >= bound;
  }

  lemma AfterMore(periods: seq<Period>, p: Period)
    ensures After(periods + [p]) == Ticked(Written(After(periods), p.writes), TimeOf(|periods| + 1), p.acked)
  {
    hide Ticked, Written, TimeOf;
    var all := periods + [p];
    assert all[..|periods|] == periods && all[|periods|] == p && |all| - 1 == |periods|;
  }

  /** Period number `n` lasts from `n` times half a second for half a second. At its end there is a ping exactly
      if the last recorded write is half a second old or older; it is recorded if it is acknowledged. */
  lemma OnePeriodMore(periods: seq<Period>, p: Period)
    requires InPeriod(p.writes, |periods|)
    ensures forall i :: 0 <= i < |p.writes| ==>
              |periods| as real * 0.5 <= p.writes[i] <= |periods| as real * 0.5 + 0.5
    ensures var t, now := After(periods), |periods| as real * 0.5 + 0.5;
            var recorded, after := t.recorded + p.writes, After(periods + [p]);
            if now - recorded[|recorded| - 1] >= 0.5 then
              && after.sent == t.sent + p.writes + [now]
              && after.recorded == if p.acked then recorded + [now] else recorded
            else
              after == Trace(recorded, t.sent + p.writes)
  {
    hide After;
    NextTick(|periods|);
    AfterMore(periods, p);
  }

  lemma LongQuiet(t: Trace, n: nat)
    requires Recent(t, TimeOf(n), KEEPALIVE_INTERVAL)
    ensures t.recorded != [] && t.recorded[|t.recorded| - 1] <= n as real * 0.5
  {
    hide Spaced;
  }

  lemma SilentPeriod(periods: seq<Period>, p: Period)
    requires Schedule(periods) && p.writes == []
    ensures After(periods + [p]).sent == After(periods).sent + [|periods| as real * 0.5 + 0.5]
  {
    hide After, Recent, Spaced, Schedule, TimeOf;
    var t := After(periods);
    AlwaysRecent(periods);
    LongQuiet(t, |periods|);
    assert t.recorded + p.writes == t.recorded && t.sent + p.writes == t.sent;
    assert InPeriod(p.writes, |periods|);
    OnePeriodMore(periods, p);
    assert |periods| as real * 0.5 + 0.5 - (t.recorded + p.writes)[|t.recorded + p.writes| - 1] >= 0.5;
  }

  /** While the user is silent there is a ping every half second, acknowledged or not. */
  lemma {:induction false} SilentUser(periods: seq<Period>)
    requires forall n :: 0 <= n < |periods| ==> periods[n].writes == []
    ensures var sent := After(periods).sent;
            |sent| == |periods| + 1 && forall k :: 0 <= k < |sent| ==> sent[k] == k as real * 0.5
    decreases |periods|
  {
    if periods != [] {
      hide After;
      var n := |periods| - 1;
      SilentUser(periods[..n]);
      SilentPeriod(periods[..n], periods[n]);
      assert periods == periods[..n] + [periods[n]];
    }
  }
}
