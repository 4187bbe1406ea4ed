/**
  The sphere's trigger callbacks (`SphereCDM.OnTriggerEnter2D`, `OnTriggerStay2D`,
  `OnTriggerExit2D`): on the server, each hands the contact to the other object's
  effect for that phase, if the object has one.

  The callbacks belong to the sphere; they live in a module of their own because the
  interactables they call already depend on the sphere.
 */
module Contacts {
  import opened Game
  import opened Sphere
  import Pickups
  import Lava
  import Bullets
  import Enemies

  /** The object the sphere touched, with the interactable component it carries, if any. */
  datatype Collider =
    | PickupCollider(pickup: Pickups.Pickup)
    | LavaCollider(lava: Lava.CrossLava)
    | EnemyCollider(enemy: Enemies.Enemy)
    | BulletCollider(bullet: Bullets.Bullet)
    | PlainCollider

  /** The object has an `IEnterInteractable` component. */
  predicate IsEnterInteractable(c: Collider)
  {
    !c.PlainCollider?
  }

  /** The object has an `IStayInteractable` component. */
  predicate IsStayInteractable(c: Collider)
  {
    c.LavaCollider?
  }

  /** The object has an `IExitInteractable` component. */
  predicate IsExitInteractable(c: Collider)
  {
    c.LavaCollider?
  }

  /** The interactable component the contact may change. */
  function Component(c: Collider): set<object>
  {
    match c
    case PickupCollider(p) => {p}
    case LavaCollider(l) => {l}
    case EnemyCollider(e) => {e}
    case BulletCollider(b) => {b}
    case PlainCollider => {}
  }

  /** The touched object belongs to the sphere's session and is in a consistent state. */
  predicate SameSession(sphere: SphereCDM, c: Collider)
    reads Component(c)
  {
    match c
    case PickupCollider(p) => p.session == sphere.session
    case LavaCollider(_) => true
    case EnemyCollider(e) => e.session == sphere.session && e.Valid()
    case BulletCollider(b) => b.session == sphere.session && b.Valid()
    case PlainCollider => true
  }

  /** The sphere started touching `other`. */
  method OnTriggerEnter2D(sphere: SphereCDM, other: Collider, now: real)
    requires sphere.Valid() && SameSession(sphere, other)
    modifies sphere, sphere.session`events, Component(other)
    ensures sphere.Valid()
    ensures !sphere.session.isServer || !IsEnterInteractable(other) ==>
      && sphere.State() == old(sphere.State())
      && sphere.session.events == old(sphere.session.events)
      && unchanged(Component(other))
    ensures sphere.session.isServer && other.PickupCollider? ==>
      var r := Pickups.EnterStep(old(sphere.State()), other.pickup.scoreValue, sphere.session.visibility,
                                 true, other.pickup.id, now);
      && !other.pickup.active
      && sphere.State() == r.state
      && sphere.session.events == old(sphere.session.events) + r.events
    ensures sphere.session.isServer && other.LavaCollider? ==>
      && sphere.State() == Lava.HitStep(old(sphere.State()), now).state
      && sphere.session.events == old(sphere.session.events) + Lava.HitStep(old(sphere.State()), now).events
    ensures sphere.session.isServer && other.EnemyCollider? ==>
      var r := Enemies.HitStep(old(other.enemy.State()), other.enemy.stats, other.enemy.id, old(sphere.State()),
                               true, now);
      && other.enemy.Valid()
      && other.enemy.State() == r.enemy
      && other.enemy.path == old(other.enemy.path)
      && sphere.State() == old(sphere.State())
      && sphere.session.events == old(sphere.session.events) + r.events
    ensures sphere.session.isServer && other.BulletCollider? ==>
      && other.bullet.velocity == 0.0 && other.bullet.destroyed
      && other.bullet.moveEnabled == old(other.bullet.moveEnabled) && other.bullet.Valid()
      && sphere.State() == old(sphere.State())
      && sphere.session.events == old(sphere.session.events)
         + Bullets.EnterEvents(other.bullet.scoreValue, sphere.session.invisibleSphere, true, other.bullet.id)
  {
    if !sphere.session.isServer {
      return;
    }
    match other
    case PickupCollider(p) =>
      p.OnEnterEffect(sphere, now);
    case LavaCollider(l) =>
      l.OnEnterEffect(sphere, now);
    case EnemyCollider(e) =>
      e.OnEnterEffect(sphere, now);
    case BulletCollider(b) =>
      b.OnEnterEffect(sphere);
    case PlainCollider =>
  }

  /** The sphere is still touching `other`. */
  method OnTriggerStay2D(sphere: SphereCDM, other: Collider, now: real)
    requires sphere.Valid()
    modifies sphere, sphere.session`events
    ensures sphere.Valid()
    ensures !sphere.session.isServer || !IsStayInteractable(other) ==>
      && sphere.State() == old(sphere.State())
      && sphere.session.events == old(sphere.session.events)
    ensures sphere.session.isServer && IsStayInteractable(other) ==>
      && sphere.State() == Lava.HitStep(old(sphere.State()), now).state
      && sphere.session.events == old(sphere.session.events) + Lava.HitStep(old(sphere.State()), now).events
  {
    if !sphere.session.isServer {
      return;
    }
    if other.LavaCollider? {
      other.lava.OnStayEffect(sphere, now);
    }
  }

  /** The sphere stopped touching `other`: the only exit effect there is does nothing. */
  method OnTriggerExit2D(sphere: SphereCDM, other: Collider, now: real)
    ensures sphere.State() == old(sphere.State())
    ensures sphere.session.events == old(sphere.session.events)
  {
    if !sphere.session.isServer {
      return;
    }
    if IsExitInteractable(other) {
      other.lava.OnExitEffect(sphere, now);
    }
  }
}
