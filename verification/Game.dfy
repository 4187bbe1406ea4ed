/**
  What the interaction layer sees of the game session, and what it emits.

  The game manager (`GameManager.singleton`) is not part of this model. Its state that
  the interaction layer reads (the level's sphere visibility, whether the game is
  playing, the remaining life, the invisible-sphere mode, whether this process is the
  server) is held by a `Session`, and every call the interaction layer makes into the
  manager, every client RPC it sends and every animator trigger it sets is appended,
  in order, to `Session.events`.
 */
module Game {

  /** The level's `Level.SphereVisibility`. */
  datatype Visibility = Visible | FadeAfterStartLevel | Invisible

  /** Triggers set on the sphere's animator. */
  datatype SphereAnim = BlinkAnim | DamageAnim | DestroyAnim | FadeOutAnim

  datatype Event =
    // requests to the game manager
    | AddToScore(delta: int)
    | LoseLife(amount: int)
    | StartRespawn
    // the sphere's animator and client RPCs
    | SphereTrigger(anim: SphereAnim)
    | RpcBlink(blinkTime: real)
    | RpcDamage
    | RpcDestroySphere
    | RpcScoreChange(value: int)
    // the interactables' animators, client RPCs and object destruction
    | EnemyRpcBlink(enemy: nat)
    | EnemyDamageAnim(enemy: nat, on: bool)
    | PickupRpcDisable(pickup: nat)
    | PickupRpcEvent(pickup: nat)
    | NetworkDestroy(obj: nat)   // NetworkServer.Destroy: removed on every machine
    | LocalDestroy(obj: nat)     // Object.Destroy: removed on this machine

  /** The net score change requested by `evs`. */
  function ScoreDelta(evs: seq<Event>): int
  {
    if evs == [] then 0
    else (if evs[0].AddToScore? then evs[0].delta else 0) + ScoreDelta(evs[1..])
  }

  /** The total life loss requested by `evs`. */
  function LifeLoss(evs: seq<Event>): int
  {
    if evs == [] then 0
    else (if evs[0].LoseLife? then evs[0].amount else 0) + LifeLoss(evs[1..])
  }

  /** How often `e` occurs in `evs`. */
  function Occurrences(evs: seq<Event>, e: Event): nat
  {
    if evs == [] then 0
    else (if evs[0] == e then 1 else 0) + Occurrences(evs[1..], e)
  }

  /** Requests to the game manager are counters: a longer log adds up its two parts. */
  lemma {:induction false} CountersAppend(a: seq<Event>, b: seq<Event>, e: Event)
    ensures ScoreDelta(a + b) == ScoreDelta(a) + ScoreDelta(b)
    ensures LifeLoss(a + b) == LifeLoss(a) + LifeLoss(b)
    ensures Occurrences(a + b, e) == Occurrences(a, e) + Occurrences(b, e)
  {
    if a == [] {
      assert a + b == b;
    } else {
      assert (a + b)[1..] == a[1..] + b;
      CountersAppend(a[1..], b, e);
    }
  }

  /** A log without a `LoseLife` request asks for no life loss. */
  lemma {:induction false} NoLoseLifeNoLoss(evs: seq<Event>)
    requires forall i :: 0 <= i < |evs| ==> !evs[i].LoseLife?
    ensures LifeLoss(evs) == 0
  {
    if evs != [] {
      NoLoseLifeNoLoss(evs[1..]);
    }
  }

  /** A log without an `AddToScore` request asks for no score change. */
  lemma {:induction false} NoAddToScoreNoDelta(evs: seq<Event>)
    requires forall i :: 0 <= i < |evs| ==> !evs[i].AddToScore?
    ensures ScoreDelta(evs) == 0
  {
    if evs != [] {
      NoAddToScoreNoDelta(evs[1..]);
    }
  }

  /** An event that is not in the log does not occur in it. */
  lemma {:induction false} AbsentNoOccurrences(evs: seq<Event>, e: Event)
    requires e !in evs
    ensures Occurrences(evs, e) == 0
  {
    if evs != [] {
      assert evs[0] != e;
      assert e !in evs[1..];
      AbsentNoOccurrences(evs[1..], e);
    }
  }

  /**
    The game manager as the interaction layer sees it: read-only inputs plus the log
    of what was asked of it and broadcast to the clients.
   */
  class Session {
    /** Whether this process is the server (`isServer`). */
    const isServer: bool
    /** `GetCurrentLevel ().sphereVisibility` */
    var visibility: Visibility
    /** `isPlaying` */
    var isPlaying: bool
    /** `life` */
    var life: int
    /** `invisibleSphere` */
    var invisibleSphere: bool
    /** How many handlers are subscribed to `Pickup.onPickupEnter` on this machine. */
    var pickupSubscribers: nat
    /** Everything requested, sent or triggered so far, in order. */
    var events: seq<Event>

    constructor (isServer: bool, visibility: Visibility, isPlaying: bool, life: int, invisibleSphere: bool)
      ensures this.isServer == isServer && this.visibility == visibility && this.isPlaying == isPlaying
      ensures this.life == life && this.invisibleSphere == invisibleSphere
      ensures pickupSubscribers == 0 && events == []
    {
      this.isServer := isServer;
      this.visibility := visibility;
      this.isPlaying := isPlaying;
      this.life := life;
      this.invisibleSphere := invisibleSphere;
      pickupSubscribers := 0;
      events := [];
    }
  }
}
