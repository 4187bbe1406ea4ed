/**
  A pickup (`Pickup`): when the sphere enters it, it disappears, gives its score to
  the players, makes a hidden sphere blink and tells the clients.
 */
module Pickups {
  import opened Game
  import opened Sphere

  /** Default of `scoreValue`. */
  const DefaultScoreValue: int := 1

  /** Whether the level's visibility mode makes the sphere blink on a pickup. */
  predicate BlinksOnPickup(vis: Visibility)
  {
    vis == FadeAfterStartLevel || vis == Invisible
  }

  /** `OnEnterEffect (sphere)`: the sphere afterwards and what was emitted, in order. */
  function EnterStep(s: SphereState, scoreValue: int, vis: Visibility, isServer: bool, id: nat, now: real): Step
  {
    var blink := if BlinksOnPickup(vis) then BlinkStep(s, isServer, 0.0, now) else Step(s, []);
    Step(blink.state, [AddToScore(scoreValue)] + blink.events + [PickupRpcDisable(id), PickupRpcEvent(id)])
  }

  /**
    A pickup asks for exactly its score value and for no life loss, whether or not the
    sphere is invincible.
   */
  lemma {:induction false} PickupScore(s: SphereState, scoreValue: int, vis: Visibility, isServer: bool, id: nat, now: real)
    ensures ScoreDelta(EnterStep(s, scoreValue, vis, isServer, id, now).events) == scoreValue
    ensures LifeLoss(EnterStep(s, scoreValue, vis, isServer, id, now).events) == 0
    ensures EnterStep(s, scoreValue, vis, isServer, id, now).state.isInvincible == s.isInvincible
  {
    var blink := if BlinksOnPickup(vis) then BlinkStep(s, isServer, 0.0, now) else Step(s, []);
    var tail: seq<Event> := [PickupRpcDisable(id), PickupRpcEvent(id)];
    NoAddToScoreNoDelta(blink.events);
    NoLoseLifeNoLoss(blink.events);
    NoAddToScoreNoDelta(tail);
    NoLoseLifeNoLoss(tail);
    CountersAppend([AddToScore(scoreValue)], blink.events, StartRespawn);
    CountersAppend([AddToScore(scoreValue)] + blink.events, tail, StartRespawn);
  }

  /**
    The sphere blinks exactly when the level's sphere is fading or invisible; otherwise
    the sphere is left as it was.
   */
  lemma PickupBlink(s: SphereState, scoreValue: int, vis: Visibility, isServer: bool, id: nat, now: real)
    ensures var r := EnterStep(s, scoreValue, vis, isServer, id, now);
      (SphereTrigger(BlinkAnim) in r.events <==> vis == FadeAfterStartLevel || vis == Invisible)
    ensures !BlinksOnPickup(vis) ==> EnterStep(s, scoreValue, vis, isServer, id, now).state == s
    ensures BlinksOnPickup(vis) ==> EnterStep(s, scoreValue, vis, isServer, id, now).state == s.(lastApparition := now)
  {
    var r := EnterStep(s, scoreValue, vis, isServer, id, now);
    if BlinksOnPickup(vis) {
      assert r.events[|r.events| - 3] == SphereTrigger(BlinkAnim);
    }
  }

  /** Each effect broadcasts exactly one pickup event and one disable. */
  lemma {:induction false} PickupBroadcastOnce(s: SphereState, scoreValue: int, vis: Visibility, isServer: bool, id: nat, now: real)
    ensures Occurrences(EnterStep(s, scoreValue, vis, isServer, id, now).events, PickupRpcEvent(id)) == 1
    ensures Occurrences(EnterStep(s, scoreValue, vis, isServer, id, now).events, PickupRpcDisable(id)) == 1
  {
    var blink := if BlinksOnPickup(vis) then BlinkStep(s, isServer, 0.0, now) else Step(s, []);
    var head := [AddToScore(scoreValue)] + blink.events;
    var tail := [PickupRpcDisable(id), PickupRpcEvent(id)];
    assert tail[1..] == [PickupRpcEvent(id)] && tail[1..][1..] == [];
    assert Occurrences(tail[1..][1..], PickupRpcEvent(id)) == 0;
    assert Occurrences(tail[1..], PickupRpcEvent(id)) == 1;
    assert Occurrences(tail[1..], PickupRpcDisable(id)) == 0;
    AbsentNoOccurrences(head, PickupRpcEvent(id));
    AbsentNoOccurrences(head, PickupRpcDisable(id));
    CountersAppend(head, tail, PickupRpcEvent(id));
    CountersAppend(head, tail, PickupRpcDisable(id));
  }

  /**
    `OnEnterEffect` has no guard of its own: applied a second time it gives the score a
    second time. Only the engine's not reporting contacts with an inactive object keeps
    a collected pickup from paying twice.
   */
  lemma PickupEffectNotIdempotent(s: SphereState, scoreValue: int, vis: Visibility, isServer: bool, id: nat, now: real, later: real)
    ensures var first := EnterStep(s, scoreValue, vis, isServer, id, now);
      var second := EnterStep(first.state, scoreValue, vis, isServer, id, later);
      ScoreDelta(first.events + second.events) == 2 * scoreValue
  {
    var first := EnterStep(s, scoreValue, vis, isServer, id, now);
    var second := EnterStep(first.state, scoreValue, vis, isServer, id, later);
    PickupScore(s, scoreValue, vis, isServer, id, now);
    PickupScore(first.state, scoreValue, vis, isServer, id, later);
    CountersAppend(first.events, second.events, StartRespawn);
  }

  class Pickup {
    const id: nat
    const session: Session
    /** Points given to the players when the sphere collides with the pickup. */
    const scoreValue: int
    /** Whether the pickup's game object is active on this machine. */
    var active: bool

    constructor (id: nat, session: Session, scoreValue: int := DefaultScoreValue)
      ensures this.id == id && this.session == session && this.scoreValue == scoreValue
      ensures active
    {
      this.id := id;
      this.session := session;
      this.scoreValue := scoreValue;
      active := true;
    }

    /** The sphere entered the pickup; a server-only method, which does nothing on a client. */
    method OnEnterEffect(sphere: SphereCDM, now: real)
      requires sphere.session == session
      modifies this`active, sphere`timeSinceLastApparition, session`events
      ensures !session.isServer ==>
        && active == old(active)
        && sphere.State() == old(sphere.State())
        && session.events == old(session.events)
      ensures session.isServer ==>
        && !active
        && sphere.State() == EnterStep(old(sphere.State()), scoreValue, session.visibility, true, id, now).state
        && session.events
           == old(session.events) + EnterStep(old(sphere.State()), scoreValue, session.visibility, true, id, now).events
    {
      if !session.isServer {
        return;
      }
      active := false;
      session.events := session.events + [AddToScore(scoreValue)];
      if session.visibility == FadeAfterStartLevel || session.visibility == Invisible {
        sphere.Blink(now);
      }
      RpcDisable();
      session.events := session.events + [PickupRpcEvent(id)];
    }

    /** Sends the disable to the clients; on each it deactivates the pickup. */
    method RpcDisable()
      modifies this`active, session`events
      ensures !active
      ensures session.events == old(session.events) + [PickupRpcDisable(id)]
    {
      session.events := session.events + [PickupRpcDisable(id)];
      active := false;
    }

    /** On a client: raises `onPickupEnter`, which reaches its handlers only if there are any. */
    method RpcPickupEvent() returns (delivered: bool)
      ensures delivered <==> session.pickupSubscribers > 0
    {
      delivered := session.pickupSubscribers != 0;
    }
  }
}
