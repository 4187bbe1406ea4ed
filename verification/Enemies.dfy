/**
  An enemy (`Enemy`): it follows a cyclic path of waypoints, and when the sphere enters
  it the sphere loses a life and shows its damage animation, after which the enemy is
  either destroyed or blinks for a while, during which further contacts are ignored.
 */
module Enemies {
  import opened Timers
  import opened Game
  import opened Sphere

  datatype MovementType = Lerp | Linear | Teleport | Follow

  /** The enemy's settings (`EnemyStat`). */
  datatype EnemyStats = EnemyStats(
    speed: real,          // for Teleport: the time between two teleports
    movementType: MovementType,
    damageValue: int,     // declared, but the contact effect loses 1 whatever it says
    isDestroyedOnHit: bool,
    blinkDuration: real)

  /** A scene object (`Transform`) with its tag and its children, in order. */
  datatype Node = Node(id: nat, tag: string, children: seq<Node>)

  const PathTag: string := "Path"

  /** What an enemy coroutine does when its wait is over. */
  datatype EnemyAction = EndBlink

  /** The enemy's fields as a value (the path and the positions aside). */
  datatype EnemyState = EnemyState(
    damaged: bool,                  // _damaged
    destroyed: bool,                // removed by NetworkServer.Destroy
    destinationIndex: nat,          // _currentDestinationIndex
    startTime: real,                // _startTime
    timers: seq<Timer<EnemyAction>> // running BlinkRoutine coroutines
  )

  datatype EnemyStep = EnemyStep(enemy: EnemyState, events: seq<Event>)

  /** The enemy is in its blink cooldown exactly while one blink is running. */
  predicate EnemyInv(e: EnemyState)
  {
    |e.timers| <= 1 && (e.damaged <==> |e.timers| == 1)
  }

  // ---------------------------------------------------------------- contact

  /** `Blink ()`: the RPC to the clients, then the start of `BlinkRoutine (blinkDuration)`. */
  function StartBlink(e: EnemyState, stats: EnemyStats, id: nat, isServer: bool, now: real): EnemyStep
  {
    EnemyStep(e.(damaged := true, timers := e.timers + [Timer(now + stats.blinkDuration, EndBlink)]),
              (if isServer then [EnemyRpcBlink(id)] else []) + [EnemyDamageAnim(id, true)])
  }

  /** `OnEnterEffect (sphere)` */
  function HitStep(e: EnemyState, stats: EnemyStats, id: nat, s: SphereState, isServer: bool, now: real): EnemyStep
  {
    if e.damaged then EnemyStep(e, [])
    else
      var hurt := LoseLifeEvents(s, 1) + DamageEvents(isServer);
      if stats.isDestroyedOnHit then EnemyStep(e.(destroyed := true), hurt + [NetworkDestroy(id)])
      else
        var blink := StartBlink(e, stats, id, isServer, now);
        EnemyStep(blink.enemy, hurt + blink.events)
  }

  /** What the finished blinks do: each turns the damage animation off. */
  function BlinkEnds(id: nat, fired: seq<Timer<EnemyAction>>): (evs: seq<Event>)
    ensures |evs| == |fired|
    ensures forall i :: 0 <= i < |evs| ==> evs[i] == EnemyDamageAnim(id, false)
  {
    if fired == [] then [] else BlinkEnds(id, fired[..|fired| - 1]) + [EnemyDamageAnim(id, false)]
  }

  /** Advancing time to `now`: the blinks whose duration is over end, and the cooldown with them. */
  function EnemyTickStep(e: EnemyState, id: nat, now: real): EnemyStep
  {
    var fired := Due(e.timers, now);
    EnemyStep(e.(damaged := if fired == [] then e.damaged else false, timers := Pending(e.timers, now)),
              BlinkEnds(id, fired))
  }

  /** A contact during the cooldown is ignored entirely. */
  lemma HitDuringCooldown(e: EnemyState, stats: EnemyStats, id: nat, s: SphereState, isServer: bool, now: real)
    requires e.damaged
    ensures HitStep(e, stats, id, s, isServer, now) == EnemyStep(e, [])
  {
  }

  /**
    A contact outside the cooldown asks for a loss of exactly one life (not
    `damageValue`) unless the sphere is invincible, shows the sphere's damage animation
    whether or not it is invincible, and then either destroys the enemy or starts a
    blink ending `blinkDuration` later, never both.
   */
  lemma {:induction false} HitEffects(e: EnemyState, stats: EnemyStats, id: nat, s: SphereState, isServer: bool, now: real)
    requires !e.damaged
    ensures var r := HitStep(e, stats, id, s, isServer, now);
      && LifeLoss(r.events) == (if s.isInvincible then 0 else 1)
      && ScoreDelta(r.events) == 0
      && SphereTrigger(DamageAnim) in r.events
      && r.enemy.destroyed == (e.destroyed || stats.isDestroyedOnHit)
      && r.enemy.damaged == !stats.isDestroyedOnHit
      && (stats.isDestroyedOnHit ==> r.enemy.timers == e.timers && NetworkDestroy(id) in r.events)
      && (!stats.isDestroyedOnHit ==> r.enemy.timers == e.timers + [Timer(now + stats.blinkDuration, EndBlink)])
      && (!stats.isDestroyedOnHit ==> NetworkDestroy(id) !in r.events)
      && r.enemy.destinationIndex == e.destinationIndex && r.enemy.startTime == e.startTime
  {
    var r := HitStep(e, stats, id, s, isServer, now);
    var lose := LoseLifeEvents(s, 1);
    var dmg := DamageEvents(isServer);
    var tail := if stats.isDestroyedOnHit then [NetworkDestroy(id)] else StartBlink(e, stats, id, isServer, now).events;
    assert r.events == lose + dmg + tail;
    NoLoseLifeNoLoss(dmg);
    NoLoseLifeNoLoss(tail);
    NoAddToScoreNoDelta(lose);
    NoAddToScoreNoDelta(dmg);
    NoAddToScoreNoDelta(tail);
    CountersAppend(lose, dmg, StartRespawn);
    CountersAppend(lose + dmg, tail, StartRespawn);
    assert dmg[|dmg| - 1] == SphereTrigger(DamageAnim);
    assert r.events[|lose| + |dmg| - 1] == SphereTrigger(DamageAnim);
    if stats.isDestroyedOnHit {
      assert r.events[|r.events| - 1] == NetworkDestroy(id);
    } else {
      BlinkHitKeepsEnemy(e, stats, id, s, isServer, now);
    }
  }

  /** A contact that starts a blink does not destroy the enemy. */
  lemma BlinkHitKeepsEnemy(e: EnemyState, stats: EnemyStats, id: nat, s: SphereState, isServer: bool, now: real)
    requires !e.damaged && !stats.isDestroyedOnHit
    ensures NetworkDestroy(id) !in HitStep(e, stats, id, s, isServer, now).events
  {
    var lose := LoseLifeEvents(s, 1);
    var dmg := DamageEvents(isServer);
    var blink := StartBlink(e, stats, id, isServer, now).events;
    assert HitStep(e, stats, id, s, isServer, now).events == lose + dmg + blink;
    assert NetworkDestroy(id) !in lose && NetworkDestroy(id) !in dmg && NetworkDestroy(id) !in blink;
  }

  /**
    Blink cooldown: after a contact that starts a blink, a second contact from the same
    enemy before any time has passed asks for no further life loss, so the two together
    ask for at most one.
   */
  lemma TwoHitsLoseAtMostOne(e: EnemyState, stats: EnemyStats, id: nat, s: SphereState, isServer: bool, now: real, later: real)
    requires !stats.isDestroyedOnHit
    ensures var first := HitStep(e, stats, id, s, isServer, now);
      var second := HitStep(first.enemy, stats, id, s, isServer, later);
      second.events == [] && LifeLoss(first.events + second.events) <= 1
  {
    var first := HitStep(e, stats, id, s, isServer, now);
    assert first.enemy.damaged;
    assert first.events + [] == first.events;
    if !e.damaged {
      HitEffects(e, stats, id, s, isServer, now);
    }
  }

  /**
    The cooldown belongs to each enemy: while enemy `a` blinks, a contact with it is
    ignored, but a contact with another enemy `b` out of cooldown still costs a
    vulnerable sphere a life.
   */
  lemma CooldownIsPerEnemy(a: EnemyState, b: EnemyState, statsA: EnemyStats, statsB: EnemyStats,
                           idA: nat, idB: nat, s: SphereState, isServer: bool, now: real)
    requires a.damaged && !b.damaged && !s.isInvincible
    ensures HitStep(a, statsA, idA, s, isServer, now).events == []
    ensures LifeLoss(HitStep(b, statsB, idB, s, isServer, now).events) == 1
  {
    HitEffects(b, statsB, idB, s, isServer, now);
  }

  /**
    The cooldown lasts exactly `blinkDuration`: once a blink has started on an enemy out
    of cooldown, the enemy is still damaged at any time before the blink's end and no
    longer damaged from its end on.
   */
  lemma BlinkCooldownEnds(e: EnemyState, stats: EnemyStats, id: nat, s: SphereState, isServer: bool, now: real, later: real)
    requires EnemyInv(e) && !e.damaged && !stats.isDestroyedOnHit
    ensures var hit := HitStep(e, stats, id, s, isServer, now).enemy;
      var r := EnemyTickStep(hit, id, later);
      && (later < now + stats.blinkDuration ==> r.enemy.damaged && r.events == [])
      && (now + stats.blinkDuration <= later ==>
            !r.enemy.damaged && r.enemy.timers == [] && r.events == [EnemyDamageAnim(id, false)])
  {
    var t := Timer(now + stats.blinkDuration, EndBlink);
    assert e.timers == [];
    HitEffects(e, stats, id, s, isServer, now);
    var hit := HitStep(e, stats, id, s, isServer, now).enemy;
    assert hit.timers == [] + [t];
    ScheduledTimerFires([], t, later);
    assert Due([t], later) == (if t.due <= later then [t] else []);
    assert BlinkEnds(id, [t]) == [EnemyDamageAnim(id, false)];
  }

  lemma HitKeepsInv(e: EnemyState, stats: EnemyStats, id: nat, s: SphereState, isServer: bool, now: real)
    requires EnemyInv(e)
    ensures EnemyInv(HitStep(e, stats, id, s, isServer, now).enemy)
  {
  }

  lemma TickKeepsInv(e: EnemyState, id: nat, now: real)
    requires EnemyInv(e)
    ensures EnemyInv(EnemyTickStep(e, id, now).enemy)
  {
    DuePendingPartition(e.timers, now);
  }

  // ---------------------------------------------------------------- waypoints

  /** The waypoint after `i` on a cyclic path of `n` waypoints. */
  function NextIndex(i: nat, n: nat): (r: nat)
    requires i < n
    ensures r < n
    ensures i + 1 < n ==> r == i + 1
    ensures i + 1 == n ==> r == 0
  {
    (i + 1) % n
  }

  /** The waypoint reached from `i` after `k` arrivals. */
  function AdvanceBy(i: nat, n: nat, k: nat): (r: nat)
    requires i < n
    ensures r < n
  {
    if k == 0 then i else NextIndex(AdvanceBy(i, n, k - 1), n)
  }

  lemma {:induction false} AdvanceByCompose(i: nat, n: nat, a: nat, b: nat)
    requires i < n
    ensures AdvanceBy(i, n, a + b) == AdvanceBy(AdvanceBy(i, n, a), n, b)
  {
    if b != 0 {
      AdvanceByCompose(i, n, a, b - 1);
    }
  }

  lemma {:induction false} AdvanceByStraight(i: nat, n: nat, k: nat)
    requires i + k < n
    ensures AdvanceBy(i, n, k) == i + k
  {
    if k != 0 {
      AdvanceByStraight(i, n, k - 1);
    }
  }

  /** The path is a cycle: after as many arrivals as there are waypoints, the enemy heads for the same one again. */
  lemma PathIsCyclic(i: nat, n: nat)
    requires i < n
    ensures AdvanceBy(i, n, n) == i
  {
    AdvanceByStraight(i, n, n - 1 - i);
    assert AdvanceBy(i, n, n - i) == 0;
    AdvanceByStraight(0, n, i);
    AdvanceByCompose(i, n, n - i, i);
  }

  /** Every waypoint is visited within one round, starting anywhere. */
  lemma EveryWaypointVisited(i: nat, n: nat, j: nat)
    requires i < n && j < n
    ensures exists k :: 0 <= k < n && AdvanceBy(i, n, k) == j
  {
    if i <= j {
      AdvanceByStraight(i, n, j - i);
      assert AdvanceBy(i, n, j - i) == j;
    } else {
      AdvanceByStraight(i, n, n - 1 - i);
      assert AdvanceBy(i, n, n - i) == 0;
      AdvanceByStraight(0, n, j);
      AdvanceByCompose(i, n, n - i, j);
      assert AdvanceBy(i, n, n - i + j) == j;
    }
  }

  /** Whether a teleporting enemy's cooldown is over (`MoveTeleport`). */
  predicate TeleportDue(startTime: real, speed: real, now: real)
  {
    startTime + speed <= now
  }

  /** The result of one frame of `Update`. */
  datatype MoveOutcome =
    | NotMoving     // the guard of Update was false
    | Travelling    // moved, not yet on the destination
    | Arrived       // on the destination: the next one is chosen
    | IndexFault    // the destination index is outside the path: `path [i]` throws

  /**
    `Move ()` for one frame at time `now`. `reached` says whether the movement left the
    enemy exactly on its destination; a teleport that is due always does.
   */
  function MoveStep(e: EnemyState, stats: EnemyStats, pathCount: nat, isServer: bool, now: real, reached: bool): (EnemyState, MoveOutcome)
    requires pathCount > 0
  {
    if e.destinationIndex >= pathCount then (e, IndexFault)
    else if reached || (stats.movementType == Teleport && TeleportDue(e.startTime, stats.speed, now)) then
      (e.(destinationIndex := if isServer then NextIndex(e.destinationIndex, pathCount) else e.destinationIndex,
          startTime := now),
       Arrived)
    else (e, Travelling)
  }

  /** `Update ()` for one frame. */
  function UpdateStep(e: EnemyState, stats: EnemyStats, pathCount: nat, isPlaying: bool, isServer: bool, now: real, reached: bool): (EnemyState, MoveOutcome)
  {
    if pathCount != 0 && isPlaying then MoveStep(e, stats, pathCount, isServer, now, reached)
    else (e, NotMoving)
  }

  /**
    A frame moves the enemy only on a non-empty path while the game is playing; an
    arrival on the server moves the destination one step along the cycle, keeping it
    on the path.
   */
  lemma UpdateEffects(e: EnemyState, stats: EnemyStats, pathCount: nat, isPlaying: bool, isServer: bool, now: real, reached: bool)
    ensures var (e', outcome) := UpdateStep(e, stats, pathCount, isPlaying, isServer, now, reached);
      && (pathCount == 0 || !isPlaying <==> outcome == NotMoving)
      && (outcome != Arrived ==> e' == e)
      && (outcome == Arrived ==> e'.startTime == now && e'.damaged == e.damaged && e'.timers == e.timers)
      && (outcome == Arrived && isServer ==> e'.destinationIndex == NextIndex(e.destinationIndex, pathCount))
      && (outcome == Arrived && !isServer ==> e'.destinationIndex == e.destinationIndex)
      && (pathCount > 0 && e.destinationIndex < pathCount ==> e'.destinationIndex < pathCount && outcome != IndexFault)
  {
  }

  /** A teleporting enemy that is not already on its destination arrives exactly when its cooldown is over. */
  lemma TeleportArrival(e: EnemyState, stats: EnemyStats, pathCount: nat, isServer: bool, now: real)
    requires pathCount > 0 && e.destinationIndex < pathCount && stats.movementType == Teleport
    ensures MoveStep(e, stats, pathCount, isServer, now, false).1 == Arrived <==> e.startTime + stats.speed <= now
  {
  }

  /** `Start ()` */
  function StartStep(e: EnemyState, pathCount: nat, now: real): (r: EnemyState)
    ensures pathCount != 0 ==> r.destinationIndex == 0 && r.destinationIndex < pathCount && r.startTime == now
    ensures pathCount == 0 ==> r == e
    ensures r.damaged == e.damaged && r.timers == e.timers && r.destroyed == e.destroyed
  {
    if pathCount != 0 then e.(destinationIndex := 0, startTime := now) else e
  }

  // ---------------------------------------------------------------- path discovery

  /** The nodes tagged "Path" under the first `k` children of `n`, depth first, each before its own descendants. */
  function Collect(n: Node, k: nat): seq<Node>
    requires k <= |n.children|
    decreases n, k
  {
    if k == 0 then []
    else
      var child := n.children[k - 1];
      Collect(n, k - 1) + (if child.tag == PathTag then [child] else []) + Collect(child, |child.children|)
  }

  /** Every node tagged "Path" strictly below `n`, in depth-first pre-order. */
  function PathNodes(n: Node): seq<Node>
  {
    Collect(n, |n.children|)
  }

  /** `d` lies strictly below `n`, at any depth. */
  ghost predicate Below(d: Node, n: Node)
    decreases n
  {
    exists i :: 0 <= i < |n.children| && (n.children[i] == d || Below(d, n.children[i]))
  }

  lemma {:induction false} CollectMembers(n: Node, k: nat, d: Node)
    requires k <= |n.children|
    ensures d in Collect(n, k) <==>
      d.tag == PathTag && exists i :: 0 <= i < k && (n.children[i] == d || Below(d, n.children[i]))
    decreases n, k
  {
    if k > 0 {
      var child := n.children[k - 1];
      CollectMembers(n, k - 1, d);
      CollectMembers(child, |child.children|, d);
      if d in Collect(n, k) {
        if d in Collect(n, k - 1) {
        } else if d.tag == PathTag && d == child {
          assert n.children[k - 1] == d;
        } else {
          assert d in Collect(child, |child.children|);
          assert Below(d, n.children[k - 1]);
        }
      }
      if d.tag == PathTag && exists i :: 0 <= i < k && (n.children[i] == d || Below(d, n.children[i])) {
        var i :| 0 <= i < k && (n.children[i] == d || Below(d, n.children[i]));
        if i < k - 1 {
          assert d in Collect(n, k - 1);
        } else if child == d {
        } else {
          assert d in Collect(child, |child.children|);
        }
      }
    }
  }

  /** `FindPath` finds exactly the nodes tagged "Path" below the enemy, nested ones included. */
  lemma PathNodesMembers(n: Node, d: Node)
    ensures d in PathNodes(n) <==> d.tag == PathTag && Below(d, n)
  {
    CollectMembers(n, |n.children|, d);
  }

  // ---------------------------------------------------------------- the component

  class Enemy {
    const id: nat
    const session: Session
    const stats: EnemyStats
    /** The enemy's own scene object, with its children. */
    const transform: Node

    /** The waypoints, in order. */
    var path: seq<Node>
    var damaged: bool
    var destroyed: bool
    var destinationIndex: nat
    var startTime: real
    var timers: seq<Timer<EnemyAction>>

    function State(): EnemyState
      reads this
    {
      EnemyState(damaged, destroyed, destinationIndex, startTime, timers)
    }

    predicate Valid()
      reads this
    {
      EnemyInv(State())
    }

    constructor (id: nat, session: Session, stats: EnemyStats, transform: Node, path: seq<Node>)
      ensures this.id == id && this.session == session && this.stats == stats
      ensures this.transform == transform && this.path == path
      ensures State() == EnemyState(false, false, 0, 0.0, []) && Valid()
    {
      this.id := id;
      this.session := session;
      this.stats := stats;
      this.transform := transform;
      this.path := path;
      damaged := false;
      destroyed := false;
      destinationIndex := 0;
      startTime := 0.0;
      timers := [];
    }

    method Start(now: real)
      modifies this`destinationIndex, this`startTime
      ensures State() == StartStep(old(State()), |path|, now)
    {
      if |path| != 0 {
        destinationIndex := 0;
        startTime := now;
      }
    }

    /** Rebuilds the path from the enemy's descendants tagged "Path". */
    method FindPath()
      modifies this`path
      ensures path == PathNodes(transform)
    {
      path := [];
      GetChildObject(transform);
    }

    /** Appends the nodes tagged "Path" below `parent`, depth first. */
    method GetChildObject(parent: Node)
      modifies this`path
      ensures path == old(path) + PathNodes(parent)
      decreases parent
    {
      var i := 0;
      while i < |parent.children|
        invariant 0 <= i <= |parent.children|
        invariant path == old(path) + Collect(parent, i)
      {
        var child := parent.children[i];
        if child.tag == PathTag {
          path := path + [child];
        }
        if |child.children| > 0 {
          GetChildObject(child);
        }
        i := i + 1;
      }
    }

    /** One frame of movement; `reached` says whether the enemy is now exactly on its destination. */
    method Move(now: real, reached: bool) returns (outcome: MoveOutcome)
      requires |path| != 0
      modifies this`destinationIndex, this`startTime
      ensures (State(), outcome) == MoveStep(old(State()), stats, |path|, session.isServer, now, reached)
    {
      if destinationIndex >= |path| {
        return IndexFault;
      }
      var arrived := reached;
      if stats.movementType == Teleport && startTime + stats.speed <= now {
        arrived := true;
      }
      if arrived {
        if session.isServer {
          destinationIndex := (destinationIndex + 1) % |path|;
        }
        startTime := now;
        outcome := Arrived;
      } else {
        outcome := Travelling;
      }
    }

    method Update(now: real, reached: bool) returns (outcome: MoveOutcome)
      modifies this`destinationIndex, this`startTime
      ensures (State(), outcome) == UpdateStep(old(State()), stats, |path|, session.isPlaying, session.isServer, now, reached)
    {
      if |path| != 0 && session.isPlaying {
        outcome := Move(now, reached);
      } else {
        outcome := NotMoving;
      }
    }

    /** Starts the blink and its cooldown. */
    method Blink(now: real)
      modifies this`damaged, this`timers, session`events
      ensures State() == StartBlink(old(State()), stats, id, session.isServer, now).enemy
      ensures session.events == old(session.events) + StartBlink(old(State()), stats, id, session.isServer, now).events
    {
      if session.isServer {
        session.events := session.events + [EnemyRpcBlink(id)];
      }
      damaged := true;
      session.events := session.events + [EnemyDamageAnim(id, true)];
      timers := timers + [Timer(now + stats.blinkDuration, EndBlink)];
    }

    /** The sphere entered the enemy. */
    method OnEnterEffect(sphere: SphereCDM, now: real)
      requires Valid() && sphere.session == session
      modifies this`damaged, this`timers, this`destroyed, session`events
      ensures Valid()
      ensures State() == HitStep(old(State()), stats, id, sphere.State(), session.isServer, now).enemy
      ensures session.events
        == old(session.events) + HitStep(old(State()), stats, id, sphere.State(), session.isServer, now).events
    {
      if damaged {
        return;
      }
      sphere.LoseLife(1);
      sphere.Damage();
      if stats.isDestroyedOnHit {
        destroyed := true;
        session.events := session.events + [NetworkDestroy(id)];
      } else {
        Blink(now);
      }
    }

    /** Lets time pass until `now`: blinks whose duration is over end. */
    method Tick(now: real)
      requires Valid()
      modifies this`damaged, this`timers, session`events
      ensures Valid()
      ensures State() == EnemyTickStep(old(State()), id, now).enemy
      ensures session.events == old(session.events) + EnemyTickStep(old(State()), id, now).events
    {
      ghost var before := State();
      var fired, pending := Split(timers, now);
      timers := pending;
      if fired != [] {
        damaged := false;
      }
      session.events := session.events + BlinkEnds(id, fired);
      assert State() == EnemyTickStep(before, id, now).enemy;
      TickKeepsInv(before, id, now);
    }
  }
}
