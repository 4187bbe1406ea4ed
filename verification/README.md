# Move2D: the sphere's interactions, in Dafny

Move2D is a cooperative networked Unity game. Its players push one shared object,
the sphere (`SphereCDM`), through a level. This project models what happens on the
authoritative server when the sphere touches something in the level. The four kinds
of object it can touch are:

- a **pickup** (`Pickup`): it disappears, the players gain its score value, a hidden
  sphere blinks, and the clients are told;
- a **lava zone** (`CrossLava`): entering it or staying in it costs a life and
  destroys the sphere, and a respawn is requested one second later;
- an **enemy** (`Enemy`): it costs a life, shows the sphere's damage animation, and
  then either destroys the enemy or starts its blink cooldown, during which further
  contacts are ignored;
- a **bullet** (`Bullet`): the players lose its score value, a hidden sphere shows
  the damage animation, and the bullet is destroyed.

The model also covers the sphere's own operations (`LoseLife`, `DestroySphere`,
`Blink`, `Damage`, the visibility mode applied at level start and at respawn, the
score popup and the `Danger` flag) and the enemy's path finding and waypoint cycle.

How the model is built:

- **Classes and step functions.** Each component is a Dafny `class` whose fields are
  the component's fields. Each method's `ensures` ties the new state, and what the
  method emitted, to a pure step function of the old state (`DestroyStep`, `HitStep`,
  `EnterStep`, …). The lemmas state the game's rules about those step functions.
- **The event log.** The game manager (`GameManager`) is not part of this model. A
  `Session` holds the values the core reads from it: server or client, visibility
  mode, life, whether a level is playing, and invisible-sphere mode. Everything the
  core asks of the game manager or sends to the clients is appended to
  `Session.events`. That covers score and life requests, respawn requests, animator
  triggers, RPCs and object destruction. The functions `ScoreDelta`, `LifeLoss` and
  `Occurrences` count over that log.
- **Coroutines and time.** A coroutine that waits (`WaitForSeconds`) is a `Timer`
  with a due time. The owner's `Tick(now)` runs the timers whose time has come, in
  the order they were scheduled. Time is a `real` parameter `now`, which stands for
  `Time.time`.

## Model

| member | source | states |
|---|---|---|
| Sphere.SphereCDM.constructor | Move2D/Assets/Scripts/Sphere/SphereCDM.cs:17-41 | a new sphere is vulnerable, has its physics and line manager, no coroutine running, and waits 5 seconds before fading by default |
| Sphere.SphereCDM.LoseLife | Move2D/Assets/Scripts/Sphere/SphereCDM.cs:114-119 | appends the life request given by `LoseLifeEvents` and leaves the sphere unchanged |
| Sphere.LoseLifeGate | Move2D/Assets/Scripts/Sphere/SphereCDM.cs:114-119 | a vulnerable sphere asks for exactly `amount` lives; an invincible one asks for nothing |
| Sphere.SphereCDM.DestroySphere | Move2D/Assets/Scripts/Sphere/SphereCDM.cs:121-131 | the new sphere and the appended events are those of `DestroyStep`; the sphere invariant is kept |
| Sphere.DestroySphereEffects | Move2D/Assets/Scripts/Sphere/SphereCDM.cs:121-131 | destroying a vulnerable sphere makes it invincible and removes its physics and line manager. It schedules exactly one respawn, 1 second later, leaves the fade timers alone, and emits the destroy trigger then the destroy RPC |
| Sphere.DestroyIdempotent | Move2D/Assets/Scripts/Sphere/SphereCDM.cs:121-124 | a second destruction before the respawn changes nothing and emits nothing |
| Sphere.SphereCDM.Blink | Move2D/Assets/Scripts/Sphere/SphereCDM.cs:106-112 | the server sends the blink RPC; every machine triggers the blink; the last apparition time becomes `now` |
| Sphere.SphereCDM.Damage | Move2D/Assets/Scripts/Sphere/SphereCDM.cs:136-141 | the server sends the damage RPC, then the damage animation is triggered; the sphere is unchanged |
| Sphere.SphereCDM.SphereVisibility | Move2D/Assets/Scripts/Sphere/SphereCDM.cs:143-158 | the sphere's new state is `VisibilityStep` for the level's mode; the invariant is kept |
| Sphere.VisibilityModes | Move2D/Assets/Scripts/Sphere/SphereCDM.cs:143-158 | Visible makes the sphere opaque. Fade-after-start schedules one fade after `waitTimeUntilFade`. Invisible schedules one fade at once. No mode touches invincibility or the pending respawns |
| Sphere.SphereCDM.OnLevelStarted | Move2D/Assets/Scripts/Sphere/SphereCDM.cs:65-68 | level start and respawn both reapply the visibility mode |
| Sphere.SphereCDM.OnScoreChange | Move2D/Assets/Scripts/Sphere/SphereCDM.cs:60-63 | a score change is forwarded to the clients as one popup RPC carrying the value |
| Sphere.PopupColour | Move2D/Assets/Scripts/Sphere/SphereCDM.cs:188-188 | the popup is white exactly for a non-negative change and red exactly for a negative one |
| Sphere.SphereCDM.Tick | Move2D/Assets/Scripts/Sphere/SphereCDM.cs:160-165 | the expired coroutines finish in scheduling order: a respawn wait asks for a respawn and a fade wait triggers the fade. The others stay pending. The invariant is kept |
| Sphere.FiredRespawns | Move2D/Assets/Scripts/Sphere/SphereCDM.cs:160-165 | the expired coroutines ask for exactly one respawn per finished respawn wait, and never for score or lives |
| Sphere.ApplyKeepsInvincible | Move2D/Assets/Scripts/Sphere/SphereCDM.cs:121-131 | no sphere operation makes an invincible sphere vulnerable; only `DestroySphere` makes a vulnerable one invincible |
| Sphere.RunKeepsInvincible | Move2D/Assets/Scripts/Sphere/SphereCDM.cs:121-131 | the same over any sequence of operations and time steps |
| Sphere.ApplyRespawnBalance | Move2D/Assets/Scripts/Sphere/SphereCDM.cs:121-165 | for one operation: respawns requested plus respawns pending equal those pending before, plus one exactly when this operation destroyed the sphere. Lives are lost only by `LoseLife` on a vulnerable sphere |
| Sphere.RunRespawnBalance | Move2D/Assets/Scripts/Sphere/SphereCDM.cs:121-165 | the same balance over any sequence of operations and time steps |
| Sphere.RespawnAtMostOnce | Move2D/Assets/Scripts/Sphere/SphereCDM.cs:121-165 | from its creation on, a sphere requests at most one respawn. It has requested one, or has one pending, exactly when it has been destroyed |
| Sphere.ApplyKeepsInv | Move2D/Assets/Scripts/Sphere/SphereCDM.cs:121-131 | every operation keeps the invariant: at most one pending respawn, and none unless destroyed; a vulnerable sphere still has its physics and line manager |
| Sphere.SphereCDM.Update | Move2D/Assets/Scripts/Sphere/SphereCDM.cs:199-202 | the `Danger` flag is set exactly when at most one life is left and a level is playing |
| Sphere.SphereCDM.GetMass | Move2D/Assets/Scripts/Sphere/SphereCDM.cs:211-214 | the sphere's mass as a line object is 1 |
| Contacts.OnTriggerEnter2D | Move2D/Assets/Scripts/Sphere/SphereCDM.cs:73-79 | on a client, or for an object with no enter effect, nothing changes. On the server, the touched object's enter effect is applied, kind by kind; an enemy keeps its path and a bullet never starts moving |
| Contacts.OnTriggerStay2D | Move2D/Assets/Scripts/Sphere/SphereCDM.cs:81-87 | on the server, staying in lava applies the lava hit; everything else is a no-op |
| Contacts.OnTriggerExit2D | Move2D/Assets/Scripts/Sphere/SphereCDM.cs:89-95 | leaving any object changes neither the sphere nor the log |
| Timers.Split | Move2D/Assets/Scripts/Sphere/SphereCDM.cs:160-165 | in one pass, splits the coroutines into those whose wait is over and those still waiting. Both keep scheduling order, and together they are a permutation of the schedule |
| Timers.DuePendingPartition | Move2D/Assets/Scripts/Sphere/SphereCDM.cs:160-165 | firing loses, duplicates and invents no coroutine |
| Timers.CountOfPartition | Move2D/Assets/Scripts/Sphere/SphereCDM.cs:160-165 | for every action, the fired coroutines plus the pending ones are the scheduled ones |
| Pickups.Pickup.constructor | Move2D/Assets/Scripts/Interactables/Pickup.cs:19-19 | a new pickup is active; its score value defaults to 1 |
| Pickups.Pickup.OnEnterEffect | Move2D/Assets/Scripts/Interactables/Pickup.cs:23-34 | server only: on a client nothing changes; on the server the pickup is deactivated, and the sphere and the appended events are those of `EnterStep` |
| Pickups.PickupScore | Move2D/Assets/Scripts/Interactables/Pickup.cs:24-34 | a pickup gives exactly its score value, costs no life, and leaves invincibility as it was, even on an invincible sphere |
| Pickups.PickupBlink | Move2D/Assets/Scripts/Interactables/Pickup.cs:28-31 | the sphere blinks exactly when the level's sphere fades or is invisible. Otherwise the sphere is unchanged |
| Pickups.PickupBroadcastOnce | Move2D/Assets/Scripts/Interactables/Pickup.cs:32-33 | each effect sends exactly one disable RPC and one pickup-event RPC |
| Pickups.PickupEffectNotIdempotent | Move2D/Assets/Scripts/Interactables/Pickup.cs:24-34 | the effect has no guard of its own: applied twice, it gives twice the score |
| Pickups.Pickup.RpcDisable | Move2D/Assets/Scripts/Interactables/Pickup.cs:39-42 | the pickup becomes inactive, and the RPC is logged once |
| Pickups.Pickup.RpcPickupEvent | Move2D/Assets/Scripts/Interactables/Pickup.cs:45-49 | the pickup event reaches handlers exactly when someone subscribed |
| Lava.CrossLava.OnEnterEffect | Move2D/Assets/Scripts/Interactables/CrossLava.cs:23-33 | server only: on a client nothing changes; on the server the sphere and the appended events are those of `HitStep`: `LoseLife(1)`, then `DestroySphere`. The invariant is kept |
| Lava.CrossLava.OnStayEffect | Move2D/Assets/Scripts/Interactables/CrossLava.cs:35-46 | staying has the same effect as entering |
| Lava.CrossLava.OnExitEffect | Move2D/Assets/Scripts/Interactables/CrossLava.cs:49-58 | leaving changes nothing |
| Lava.HitIsLoseLifeThenDestroy | Move2D/Assets/Scripts/Interactables/CrossLava.cs:24-33 | a lava hit is the same as the sphere running `LoseLife(1)` and then `DestroySphere` |
| Lava.HitEffects | Move2D/Assets/Scripts/Interactables/CrossLava.cs:24-46 | a hit on a vulnerable sphere costs exactly one life and destroys it. A hit on an invincible sphere does nothing. The sphere is invincible afterwards |
| Lava.EnterThenStayOnce | Move2D/Assets/Scripts/Interactables/CrossLava.cs:24-46 | entering and then staying any number of times costs exactly one life. It destroys the sphere once, schedules one respawn, and sends one destroy RPC |
| Bullets.Bullet.constructor | Move2D/Assets/Scripts/Interactables/Bullet.cs:16-38 | a new bullet has score value 1, velocity 2 and movement disabled by default |
| Bullets.Bullet.OnEnterEffect | Move2D/Assets/Scripts/Interactables/Bullet.cs:42-50 | server only: on a client nothing changes; on the server the bullet stops and is destroyed, and the events of `EnterEvents` are appended |
| Bullets.BulletEffects | Move2D/Assets/Scripts/Interactables/Bullet.cs:43-50 | a bullet costs exactly its score value and no life. It shows the damage animation exactly in invisible-sphere mode and destroys itself exactly once, whether or not the sphere is invincible |
| Bullets.Bullet.OnAnimationEnd | Move2D/Assets/Scripts/Interactables/Bullet.cs:54-58 | only the server destroys the bullet across the network |
| Bullets.Bullet.FixedUpdate | Move2D/Assets/Scripts/Interactables/Bullet.cs:76-80 | a bullet moves only when movement is enabled, which never happens |
| Enemies.Enemy.constructor | Move2D/Assets/Scripts/Interactables/Enemy.cs:60-67 | a new enemy is not damaged, heads for waypoint 0 and runs no coroutine |
| Enemies.Enemy.OnEnterEffect | Move2D/Assets/Scripts/Interactables/Enemy.cs:188-199 | the enemy's new state and the appended events are those of `HitStep`; the sphere's fields are untouched |
| Enemies.HitDuringCooldown | Move2D/Assets/Scripts/Interactables/Enemy.cs:190-191 | a contact during the blink cooldown is ignored entirely |
| Enemies.HitEffects | Move2D/Assets/Scripts/Interactables/Enemy.cs:188-199 | outside the cooldown, a contact costs one life (none on an invincible sphere) and no score, and shows the damage animation. Then it either destroys the enemy across the network or starts one blink of `blinkDuration`, never both |
| Enemies.CooldownIsPerEnemy | Move2D/Assets/Scripts/Interactables/Enemy.cs:188-199 | the cooldown is per enemy: a contact with an enemy in its cooldown emits nothing, while one with another enemy out of cooldown costs a vulnerable sphere one life |
| Enemies.TwoHitsLoseAtMostOne | Move2D/Assets/Scripts/Interactables/Enemy.cs:188-209 | with no time step between them, a second contact after one that started a blink is ignored, so the two cost at most one life |
| Enemies.BlinkCooldownEnds | Move2D/Assets/Scripts/Interactables/Enemy.cs:202-209 | the cooldown lasts until `blinkDuration` after the hit and ends then, turning the damage animation off |
| Enemies.HitKeepsInv | Move2D/Assets/Scripts/Interactables/Enemy.cs:188-209 | a contact keeps the invariant: the enemy is damaged exactly while one blink is running |
| Enemies.TickKeepsInv | Move2D/Assets/Scripts/Interactables/Enemy.cs:202-209 | the passing of time keeps that invariant |
| Enemies.BlinkEnds | Move2D/Assets/Scripts/Interactables/Enemy.cs:206-208 | each finished blink turns the enemy's damage animation off once |
| Enemies.Enemy.Blink | Move2D/Assets/Scripts/Interactables/Enemy.cs:181-186 | the server sends the blink RPC. The enemy becomes damaged, its damage animation is switched on, and the blink's end is scheduled `blinkDuration` later |
| Enemies.Enemy.Tick | Move2D/Assets/Scripts/Interactables/Enemy.cs:202-209 | blinks whose duration is over end, in scheduling order; the invariant is kept |
| Enemies.Enemy.Start | Move2D/Assets/Scripts/Interactables/Enemy.cs:84-91 | with a non-empty path, the enemy heads for waypoint 0 from `now`; with an empty path nothing changes |
| Enemies.StartStep | Move2D/Assets/Scripts/Interactables/Enemy.cs:84-91 | after `Start`, the destination index is within a non-empty path |
| Enemies.Enemy.FindPath | Move2D/Assets/Scripts/Interactables/Enemy.cs:93-98 | the path becomes exactly `PathNodes` of the enemy's own object |
| Enemies.Enemy.GetChildObject | Move2D/Assets/Scripts/Interactables/Enemy.cs:100-111 | appends the nodes tagged "Path" below `parent`, depth first, each before its own descendants |
| Enemies.PathNodesMembers | Move2D/Assets/Scripts/Interactables/Enemy.cs:93-111 | a node is found exactly when it is tagged "Path" and lies below the enemy at any depth |
| Enemies.CollectMembers | Move2D/Assets/Scripts/Interactables/Enemy.cs:102-110 | the nodes collected from the first `k` children are exactly the tagged nodes below those children |
| Enemies.Enemy.Move | Move2D/Assets/Scripts/Interactables/Enemy.cs:144-166 | one frame of movement is `MoveStep`. On arrival, the server advances the destination cyclically and every machine restarts the journey clock |
| Enemies.Enemy.Update | Move2D/Assets/Scripts/Interactables/Enemy.cs:168-173 | the enemy moves only with a non-empty path while a level is playing |
| Enemies.UpdateEffects | Move2D/Assets/Scripts/Interactables/Enemy.cs:144-173 | it does not move exactly when the path is empty or no level is playing. Only an arrival changes its state. On arrival the server advances the index cyclically and a client keeps it. An index within the path stays within it |
| Enemies.TeleportArrival | Move2D/Assets/Scripts/Interactables/Enemy.cs:131-136 | a teleporting enemy arrives exactly when `speed` seconds have passed since its journey started |
| Enemies.NextIndex | Move2D/Assets/Scripts/Interactables/Enemy.cs:162-162 | the next waypoint is the following one, or the first after the last; it is always within the path |
| Enemies.AdvanceBy | Move2D/Assets/Scripts/Interactables/Enemy.cs:160-165 | any number of arrivals keeps the destination within the path |
| Enemies.PathIsCyclic | Move2D/Assets/Scripts/Interactables/Enemy.cs:160-165 | after as many arrivals as there are waypoints, the enemy heads for the same waypoint again |
| Enemies.EveryWaypointVisited | Move2D/Assets/Scripts/Interactables/Enemy.cs:160-165 | from any waypoint, every waypoint becomes the destination within one round |

## Left out

- `SpherePhysics` (the centroid computation that moves the sphere) is not part of this
  model. Disabling it is modelled only as the `physicsEnabled` flag.
- `GameManager` is not part of this model. Its `AddToScore`, `LoseLife` and
  `StartRespawn` are logged, not carried out, so life and score are not updated here.
  Its level data (visibility mode, invisible-sphere mode, life, `isPlaying`) are inputs
  held in `Session`.
- Positions and movement geometry are left out: `MoveLinear`, `MoveLerp`,
  `MoveFollow`, `Destination`, `_journeyLength`, `Bullet.Move` and the bullet's
  `direction`. Whether the enemy stands exactly on its destination after a frame is
  the input `reached` of `Enemies.Enemy.Move`. Vector arithmetic and float equality are
  not modelled.
- Enemies.Enemy.Move: the effect of an out-of-range destination index (possible after
  `FindPath`, which does not reset the index) is reported as the outcome `IndexFault`
  rather than as an exception that ends the frame.
- Floating-point time: `Time.time` is a `real` parameter, so rounding is not modelled.
- The RPCs' effects on the clients are logged as events and not run there. This covers
  the sphere's `RpcBlink`, `RpcDamage` and `RpcDestroySphere`, and the enemy's
  `RpcBlink`, which starts a blink on each client. The score popup's instantiation
  and text are left out; only its colour is modelled.
- Host mode (one process acting as server and client at once) is left out: the model
  is of a dedicated server. On a host, the server's own client RPCs also run on its
  objects, so `Enemy.Blink`'s `RpcBlink` starts a second `BlinkRoutine` on the same
  enemy; the invariant "at most one blink running" (`Enemies.HitKeepsInv`,
  `Enemies.TickKeepsInv`) describes the dedicated server only.
- Replication timing and message loss are left out: every RPC is assumed delivered, in
  order. The `[SyncVar]` copy of the enemy's destination index on the clients is not
  modelled.
- Animator state is left out: triggers and flags are logged as events.
  `SphereCDM.GetColor` reads a renderer colour and is left out.
- Event subscription (`OnEnable`/`OnDisable`) is left out; handlers are called
  directly. Enemy.OnLevelStarted only looks up the sphere for `MoveFollow` and is left
  out with the movement geometry.
- `Bullet.Start` destroys the bullet after `bulletLifeSpan` through the engine's
  delayed destroy. That and the engine stopping a destroyed object's coroutines are
  left out.
- Which contacts the engine reports is left out. The callbacks take the contact as a
  parameter, and nothing in the model stops a contact with an inactive pickup. The
  engine does not report such contacts, and that is what keeps a collected pickup from
  paying twice (see `Pickups.PickupEffectNotIdempotent`).
- The unused fields `damageDuration`, `sphereApparitionTime`,
  `sphereApparitionDuration` and `_blinkTime` have no behaviour and are not modelled.
  `EnemyStats.damageValue` (the enemy always passes 1) and `CrossLava.scoreCooldownTime`
  (its cooldown is commented out) are declared but have no behaviour.
- Bullets.BulletEffects: scores are unbounded integers, so the 32-bit wrap-around of
  `-scoreValue` in `Bullet.OnEnterEffect` is not modelled. For `scoreValue` equal to
  the smallest 32-bit integer, the code asks for that same negative value, while the
  model asks for its positive opposite. The same holds for `Bullets.EnterEvents` and
  `Bullets.Bullet.OnEnterEffect`.

## Design and code

Where the design description of the game and its code differ, the model follows the
code:

- **Invincibility.** The design says an enter effect does nothing on an invincible
  sphere, except for pickups. In the code, invincibility gates only `LoseLife` and
  `DestroySphere`. On an invincible sphere, an enemy still shows damage, blinks or is
  destroyed, and a bullet still costs its score value (`Enemies.HitEffects`,
  `Bullets.BulletEffects`).
- **Pickup idempotence.** The design says a pickup's effect is idempotent once the
  pickup is deactivated. The effect itself has no guard (`Pickups.PickupEffectNotIdempotent`).
- **Cooldown across enemies.** The design says that during a blink cooldown a second
  contact, from the same or another enemy, costs no further life. In the code the
  cooldown flag `_damaged` belongs to each enemy, so a contact with a second enemy
  still costs a life (`Enemies.CooldownIsPerEnemy`); only the same enemy is ignored
  (`Enemies.TwoHitsLoseAtMostOne`).
- **Respawn.** The design says the respawn clears invincibility. The respawn is the
  game manager's and is outside this model. Here the sphere stays invincible until it
  is recreated (`Sphere.RunKeepsInvincible`).
