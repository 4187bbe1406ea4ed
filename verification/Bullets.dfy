/**
  A bullet (`Bullet`): when the sphere enters it, the players lose its score value, it
  stops, a hidden sphere shows the damage animation, and the bullet is destroyed.
 */
module Bullets {
  import opened Game
  import opened Sphere

  /** Default of `scoreValue`. */
  const DefaultScoreValue: int := 1
  /** Default of `velocity`. */
  const DefaultVelocity: real := 2.0

  /**
    What `OnEnterEffect (sphere)` emits, in order. The sphere's state is not an argument:
    nothing on this path depends on it, its invincibility included.
   */
  function EnterEvents(scoreValue: int, invisibleSphere: bool, isServer: bool, id: nat): seq<Event>
  {
    [AddToScore(-scoreValue)] + (if invisibleSphere then DamageEvents(isServer) else []) + [LocalDestroy(id)]
  }

  /**
    A bullet costs exactly its score value and no life, shows the sphere's damage
    animation exactly in invisible-sphere mode, and destroys itself exactly once.
   */
  lemma {:induction false} BulletEffects(scoreValue: int, invisibleSphere: bool, isServer: bool, id: nat)
    ensures var evs := EnterEvents(scoreValue, invisibleSphere, isServer, id);
      && ScoreDelta(evs) == -scoreValue
      && LifeLoss(evs) == 0
      && (SphereTrigger(DamageAnim) in evs <==> invisibleSphere)
      && Occurrences(evs, LocalDestroy(id)) == 1
  {
    var mid := if invisibleSphere then DamageEvents(isServer) else [];
    var evs := [AddToScore(-scoreValue)] + mid + [LocalDestroy(id)];
    NoAddToScoreNoDelta(mid);
    NoLoseLifeNoLoss(mid);
    NoAddToScoreNoDelta([LocalDestroy(id)]);
    NoLoseLifeNoLoss([LocalDestroy(id)]);
    CountersAppend([AddToScore(-scoreValue)], mid, LocalDestroy(id));
    CountersAppend([AddToScore(-scoreValue)] + mid, [LocalDestroy(id)], LocalDestroy(id));
    AbsentNoOccurrences([AddToScore(-scoreValue)] + mid, LocalDestroy(id));
    assert [LocalDestroy(id)][1..] == [];
    if invisibleSphere {
      assert evs[|evs| - 2] == SphereTrigger(DamageAnim);
    } else {
      assert evs == [AddToScore(-scoreValue), LocalDestroy(id)];
    }
  }

  class Bullet {
    const id: nat
    const session: Session
    /** Points the players lose when the sphere collides with the bullet. */
    const scoreValue: int
    var velocity: real
    /** Whether the bullet's game object has been destroyed. */
    var destroyed: bool
    /** `_moveEnabled`: the only statement that set it is commented out. */
    var moveEnabled: bool

    /** The bullet never moves on its own. */
    predicate Valid()
      reads this
    {
      !moveEnabled
    }

    constructor (id: nat, session: Session, scoreValue: int := DefaultScoreValue, velocity: real := DefaultVelocity)
      ensures this.id == id && this.session == session && this.scoreValue == scoreValue
      ensures this.velocity == velocity && !destroyed && Valid()
    {
      this.id := id;
      this.session := session;
      this.scoreValue := scoreValue;
      this.velocity := velocity;
      destroyed := false;
      moveEnabled := false;
    }

    /** The sphere entered the bullet; a server-only method, which does nothing on a client. */
    method OnEnterEffect(sphere: SphereCDM)
      requires Valid() && sphere.session == session
      modifies this`velocity, this`destroyed, session`events
      ensures Valid()
      ensures !session.isServer ==>
        && velocity == old(velocity) && destroyed == old(destroyed)
        && session.events == old(session.events)
      ensures session.isServer ==>
        && velocity == 0.0 && destroyed
        && session.events == old(session.events) + EnterEvents(scoreValue, session.invisibleSphere, true, id)
    {
      if !session.isServer {
        return;
      }
      session.events := session.events + [AddToScore(-scoreValue)];
      velocity := 0.0;
      if session.invisibleSphere {
        sphere.Damage();
      }
      destroyed := true;
      session.events := session.events + [LocalDestroy(id)];
    }

    /** End of the bullet's animation: the server destroys it on every machine. */
    method OnAnimationEnd()
      modifies this`destroyed, session`events
      ensures destroyed == (old(destroyed) || session.isServer)
      ensures session.events == old(session.events) + (if session.isServer then [NetworkDestroy(id)] else [])
    {
      if session.isServer {
        destroyed := true;
        session.events := session.events + [NetworkDestroy(id)];
      }
    }

    /** Whether this physics step moves the bullet: it never does. */
    method FixedUpdate() returns (moves: bool)
      requires Valid()
      ensures moves == moveEnabled
      ensures !moves
    {
      moves := moveEnabled;
    }
  }
}
