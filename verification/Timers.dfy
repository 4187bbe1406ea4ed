/**
  Coroutine delays (`yield return new WaitForSeconds (t)`) modelled as timers.

  A coroutine that waits `t` seconds from time `now` becomes a `Timer(now + t, action)`;
  the owner's `Tick(later)` fires every timer whose due time has been reached, in the
  order the timers were scheduled, and keeps the others pending.
 */
module Timers {

  datatype Timer<A> = Timer(due: real, action: A)

  /** The timers of `ts` that have expired at `now`, in scheduling order. */
  function Due<A>(ts: seq<Timer<A>>, now: real): (r: seq<Timer<A>>)
    ensures |r| <= |ts|
    ensures forall i :: 0 <= i < |r| ==> r[i].due <= now
  {
    if ts == [] then []
    else
      var last := ts[|ts| - 1];
      Due(ts[..|ts| - 1], now) + (if last.due <= now then [last] else [])
  }

  /** The timers of `ts` still waiting at `now`, in scheduling order. */
  function Pending<A>(ts: seq<Timer<A>>, now: real): (r: seq<Timer<A>>)
    ensures |r| <= |ts|
    ensures forall i :: 0 <= i < |r| ==> now < r[i].due
  {
    if ts == [] then []
    else
      var last := ts[|ts| - 1];
      Pending(ts[..|ts| - 1], now) + (if last.due <= now then [] else [last])
  }

  /** How many timers of `ts` carry `action`. */
  function CountOf<A(==)>(ts: seq<Timer<A>>, action: A): nat
  {
    if ts == [] then 0
    else CountOf(ts[..|ts| - 1], action) + (if ts[|ts| - 1].action == action then 1 else 0)
  }

  lemma {:induction false} CountOfAppend<A>(ts: seq<Timer<A>>, us: seq<Timer<A>>, action: A)
    ensures CountOf(ts + us, action) == CountOf(ts, action) + CountOf(us, action)
    decreases |us|
  {
    if us == [] {
      assert ts + us == ts;
    } else {
      var n := |us| - 1;
      assert (ts + us)[..|ts + us| - 1] == ts + us[..n];
      CountOfAppend(ts, us[..n], action);
    }
  }

  /** Firing the last timer of the schedule: it joins the fired ones or the pending ones. */
  lemma DueLast<A>(ts: seq<Timer<A>>, now: real)
    requires ts != []
    ensures var n, last := |ts| - 1, ts[|ts| - 1];
      multiset(Due(ts, now)) + multiset(Pending(ts, now))
      == multiset(Due(ts[..n], now)) + multiset(Pending(ts[..n], now)) + multiset{last}
  {
    var n, last := |ts| - 1, ts[|ts| - 1];
    var d, p := Due(ts[..n], now), Pending(ts[..n], now);
    if last.due <= now {
      assert multiset(d + [last]) == multiset(d) + multiset{last};
    } else {
      assert multiset(p + [last]) == multiset(p) + multiset{last};
    }
  }

  /** Firing splits the timers: nothing is lost, nothing is duplicated, nothing is invented. */
  lemma {:induction false} DuePendingPartition<A>(ts: seq<Timer<A>>, now: real)
    ensures multiset(Due(ts, now)) + multiset(Pending(ts, now)) == multiset(ts)
  {
    if ts != [] {
      var n := |ts| - 1;
      DuePendingPartition(ts[..n], now);
      DueLast(ts, now);
      assert ts == ts[..n] + [ts[n]];
      assert multiset(ts) == multiset(ts[..n]) + multiset{ts[n]};
    }
  }

  /** Counting any action: the fired and the pending ones together are the scheduled ones. */
  lemma {:induction false} CountOfPartition<A>(ts: seq<Timer<A>>, now: real, action: A)
    ensures CountOf(Due(ts, now), action) + CountOf(Pending(ts, now), action) == CountOf(ts, action)
  {
    if ts != [] {
      var n := |ts| - 1;
      var last := ts[n];
      CountOfPartition(ts[..n], now, action);
      CountOfAppend(Due(ts[..n], now), if last.due <= now then [last] else [], action);
      CountOfAppend(Pending(ts[..n], now), if last.due <= now then [] else [last], action);
    }
  }

  /** A timer scheduled at or before `now` fires by `now`; a later one is still pending. */
  lemma {:induction false} ScheduledTimerFires<A>(ts: seq<Timer<A>>, t: Timer<A>, now: real)
    ensures t.due <= now ==> Due(ts + [t], now) == Due(ts, now) + [t]
    ensures t.due <= now ==> Pending(ts + [t], now) == Pending(ts, now)
    ensures now < t.due ==> Pending(ts + [t], now) == Pending(ts, now) + [t]
  {
    assert (ts + [t])[..|ts + [t]| - 1] == ts;
  }

  /**
    Splits the timers into those that fire at `now` and those still pending, in one
    pass over the schedule.
   */
  method Split<A>(ts: seq<Timer<A>>, now: real) returns (fired: seq<Timer<A>>, pending: seq<Timer<A>>)
    ensures fired == Due(ts, now) && pending == Pending(ts, now)
    ensures multiset(fired) + multiset(pending) == multiset(ts)
    ensures forall i :: 0 <= i < |fired| ==> fired[i].due <= now
    ensures forall i :: 0 <= i < |pending| ==> now < pending[i].due
  {
    fired, pending := [], [];
    var i := 0;
    while i < |ts|
      invariant 0 <= i <= |ts|
      invariant fired == Due(ts[..i], now)
      invariant pending == Pending(ts[..i], now)
    {
      assert ts[..i + 1][..i] == ts[..i];
      if ts[i].due <= now {
        fired := fired + [ts[i]];
      } else {
        pending := pending + [ts[i]];
      }
      i := i + 1;
    }
    assert ts[..i] == ts;
    DuePendingPartition(ts, now);
  }
}
