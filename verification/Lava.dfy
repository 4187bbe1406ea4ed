/**
  A lava zone (`CrossLava`): entering it, or staying in it, costs the sphere a life and
  destroys it; leaving it does nothing.
 */
module Lava {
  import opened Timers
  import opened Game
  import opened Sphere

  /** Life lost per contact (`damage`). */
  const Damage: int := 1

  /** `OnEnterEffect (sphere)` and `OnStayEffect (sphere)`: `LoseLife (damage)`, then `DestroySphere ()`. */
  function HitStep(s: SphereState, now: real): Step
  {
    var destroy := DestroyStep(s, now);
    Step(destroy.state, LoseLifeEvents(s, Damage) + destroy.events)
  }

  /** Entering at `times[0]`, then staying at each later time, with no time passing for the sphere's coroutines. */
  function EnterThenStay(s: SphereState, times: seq<real>): Step
  {
    if times == [] then Step(s, [])
    else
      var before := EnterThenStay(s, times[..|times| - 1]);
      var hit := HitStep(before.state, times[|times| - 1]);
      Step(hit.state, before.events + hit.events)
  }

  /** A lava hit is the sphere's own `LoseLife (1)` followed by its `DestroySphere ()`. */
  lemma HitIsLoseLifeThenDestroy(s: SphereState, now: real, isServer: bool, wait: real)
    ensures HitStep(s, now) == Run(s, [Call(OpLoseLife(1), now), Call(OpDestroy, now)], isServer, wait)
  {
    var calls := [Call(OpLoseLife(1), now), Call(OpDestroy, now)];
    assert calls[..1] == [Call(OpLoseLife(1), now)];
    assert calls[..1][..0] == [];
    assert Run(s, calls[..1][..0], isServer, wait) == Step(s, []);
    assert Apply(s, calls[..1][0], isServer, wait) == Step(s, LoseLifeEvents(s, 1));
    var first := Run(s, calls[..1], isServer, wait);
    assert first == Step(s, [] + LoseLifeEvents(s, 1));
    assert [] + LoseLifeEvents(s, 1) == LoseLifeEvents(s, 1);
  }

  /** A hit on a live sphere loses one life and schedules one respawn; on an invincible one it does nothing. */
  lemma HitEffects(s: SphereState, now: real)
    ensures !s.isInvincible ==> LifeLoss(HitStep(s, now).events) == 1
    ensures !s.isInvincible ==> HitStep(s, now).state == DestroyStep(s, now).state
    ensures s.isInvincible ==> HitStep(s, now) == Step(s, [])
    ensures HitStep(s, now).state.isInvincible
  {
    if !s.isInvincible {
      var d := DestroyStep(s, now).events;
      CountersAppend([Event.LoseLife(Damage)], d, StartRespawn);
      NoLoseLifeNoLoss(d);
    }
  }

  /**
    Staying in the lava after the hit that destroyed the sphere changes nothing: on a
    live sphere, entering and then staying any number of times loses exactly one life
    and schedules exactly one respawn.
   */
  lemma {:induction false} EnterThenStayOnce(s: SphereState, times: seq<real>)
    requires !s.isInvincible && |times| > 0
    ensures var r := EnterThenStay(s, times);
      && LifeLoss(r.events) == 1
      && r.state == DestroyStep(s, times[0]).state
      && CountOf(r.state.timers, Respawn) == CountOf(s.timers, Respawn) + 1
      && Occurrences(r.events, RpcDestroySphere) == 1
  {
    var n := |times| - 1;
    var before := EnterThenStay(s, times[..n]);
    if n == 0 {
      assert times[..n] == [];
      assert before == Step(s, []);
      assert [] + HitStep(s, times[0]).events == HitStep(s, times[0]).events;
      HitEffects(s, times[0]);
      DestroySphereEffects(s, times[0]);
      var d := DestroyStep(s, times[0]).events;
      var evs := LoseLifeEvents(s, Damage) + d;
      assert evs == [Event.LoseLife(1), SphereTrigger(DestroyAnim), RpcDestroySphere];
      assert evs[1..][1..][1..] == [];
      assert Occurrences(evs, RpcDestroySphere) == 1;
    } else {
      assert times[..n][0] == times[0];
      EnterThenStayOnce(s, times[..n]);
      HitEffects(before.state, times[n]);
      CountersAppend(before.events, [], RpcDestroySphere);
    }
  }

  class CrossLava {
    /** Unused: the score cooldown that used it is commented out. */
    const scoreCooldownTime: real

    constructor (scoreCooldownTime: real)
      ensures this.scoreCooldownTime == scoreCooldownTime
    {
      this.scoreCooldownTime := scoreCooldownTime;
    }

    /** Entering the lava; a server-only method, which does nothing on a client. */
    method OnEnterEffect(sphere: SphereCDM, now: real)
      requires sphere.Valid()
      modifies sphere, sphere.session`events
      ensures sphere.Valid()
      ensures !sphere.session.isServer ==>
        sphere.State() == old(sphere.State()) && sphere.session.events == old(sphere.session.events)
      ensures sphere.session.isServer ==>
        && sphere.State() == HitStep(old(sphere.State()), now).state
        && sphere.session.events == old(sphere.session.events) + HitStep(old(sphere.State()), now).events
    {
      if !sphere.session.isServer {
        return;
      }
      sphere.LoseLife(Damage);
      sphere.DestroySphere(now);
    }

    /** Staying in the lava; a server-only method, which does nothing on a client. */
    method OnStayEffect(sphere: SphereCDM, now: real)
      requires sphere.Valid()
      modifies sphere, sphere.session`events
      ensures sphere.Valid()
      ensures !sphere.session.isServer ==>
        sphere.State() == old(sphere.State()) && sphere.session.events == old(sphere.session.events)
      ensures sphere.session.isServer ==>
        && sphere.State() == HitStep(old(sphere.State()), now).state
        && sphere.session.events == old(sphere.session.events) + HitStep(old(sphere.State()), now).events
    {
      if !sphere.session.isServer {
        return;
      }
      sphere.LoseLife(Damage);
      sphere.DestroySphere(now);
    }

    /** Leaving the lava: its body is entirely commented out. */
    method OnExitEffect(sphere: SphereCDM, now: real)
      ensures sphere.State() == old(sphere.State())
      ensures sphere.session.events == old(sphere.session.events)
    {
    }
  }
}
