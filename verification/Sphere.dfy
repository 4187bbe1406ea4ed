/**
  The shared sphere (`SphereCDM`): its two gates (`LoseLife`, `DestroySphere`), its
  blink and damage animations, its visibility at level start, its danger flag and its
  score popups.

  The pure step functions below are the specification; the class `SphereCDM` is the
  component itself, whose methods are proved to follow them.
 */
module Sphere {
  import opened Timers
  import opened Game

  /** What a sphere coroutine does when its wait is over. */
  datatype SphereAction =
    | Respawn   // WaitForRespawn: ask the game manager to respawn
    | FadeOut   // DelayedFadeOut: set the animator's FadeOut trigger

  /** Delay between a destruction and the respawn request (`WaitForRespawn (1.0f)`). */
  const RespawnDelay: real := 1.0
  /** Default of `waitTimeUntilFade`. */
  const DefaultWaitTimeUntilFade: real := 5.0

  /** The sphere's fields as a value. */
  datatype SphereState = SphereState(
    isInvincible: bool,
    physicsEnabled: bool,            // the SpherePhysics component is enabled
    hasLineManager: bool,            // the PlayerLineManager component still exists
    alpha: real,                     // alpha of the renderer's material colour
    lastApparition: real,            // _timeSinceLastApparition
    timers: seq<Timer<SphereAction>> // running coroutines
  )

  /** A sphere operation's outcome: the new sphere and what it emitted. */
  datatype Step = Step(state: SphereState, events: seq<Event>)

  datatype Colour = White | Red

  /** A freshly created sphere. */
  function Initial(alpha: real): SphereState
  {
    SphereState(false, true, true, alpha, 0.0, [])
  }

  /**
    The sphere's invariant: it is destroyed exactly when it is invincible, and then at
    most one respawn is pending; a live sphere has physics, its line manager and no
    pending respawn.
   */
  predicate Inv(s: SphereState)
  {
    && CountOf(s.timers, Respawn) <= (if s.isInvincible then 1 else 0)
    && (!s.isInvincible ==> s.physicsEnabled && s.hasLineManager)
  }

  /** `LoseLife (amount)`: what it asks of the game manager. */
  function LoseLifeEvents(s: SphereState, amount: int): seq<Event>
  {
    if s.isInvincible then [] else [Event.LoseLife(amount)]
  }

  /** `DestroySphere ()` */
  function DestroyStep(s: SphereState, now: real): Step
  {
    if s.isInvincible then Step(s, [])
    else
      Step(s.(isInvincible := true, physicsEnabled := false, hasLineManager := false,
              timers := s.timers + [Timer(now + RespawnDelay, Respawn)]),
           [SphereTrigger(DestroyAnim), RpcDestroySphere])
  }

  /** `Blink (blinkTime)` */
  function BlinkStep(s: SphereState, isServer: bool, blinkTime: real, now: real): Step
  {
    Step(s.(lastApparition := now),
         (if isServer then [RpcBlink(blinkTime)] else []) + [SphereTrigger(BlinkAnim)])
  }

  /** `Damage ()`: it changes no field of the sphere. */
  function DamageEvents(isServer: bool): seq<Event>
  {
    (if isServer then [RpcDamage] else []) + [SphereTrigger(DamageAnim)]
  }

  /** `SphereVisibility ()`: it emits nothing at once. */
  function VisibilityStep(s: SphereState, vis: Visibility, waitTimeUntilFade: real, now: real): SphereState
  {
    match vis
    case Visible => s.(alpha := 1.0)
    case FadeAfterStartLevel => s.(timers := s.timers + [Timer(now + waitTimeUntilFade, FadeOut)])
    case Invisible => s.(timers := s.timers + [Timer(now + 0.0, FadeOut)])
  }

  /** What the expired coroutines do, in scheduling order. */
  function Fired(ts: seq<Timer<SphereAction>>): seq<Event>
  {
    if ts == [] then []
    else
      Fired(ts[..|ts| - 1])
      + [match ts[|ts| - 1].action
         case Respawn => StartRespawn
         case FadeOut => SphereTrigger(FadeOutAnim)]
  }

  /** Advancing time to `now`: the expired coroutines resume and finish. */
  function TickStep(s: SphereState, now: real): Step
  {
    Step(s.(timers := Pending(s.timers, now)), Fired(Due(s.timers, now)))
  }

  /** Colour of the popup showing a score change (`RpcScoreChange`). */
  function PopupColour(value: int): (c: Colour)
    ensures c == White <==> value >= 0
    ensures c == Red <==> value < 0
  {
    if value >= 0 then White else Red
  }

  // ---------------------------------------------------------------- traces

  /** The operations other components invoke on the sphere, and the passing of time. */
  datatype SphereOp =
    | OpLoseLife(amount: int)
    | OpDestroy
    | OpBlink(blinkTime: real)
    | OpDamage
    | OpVisibility(vis: Visibility)
    | OpScoreChange(value: int)
    | OpTick

  datatype Call = Call(op: SphereOp, now: real)

  function Apply(s: SphereState, c: Call, isServer: bool, waitTimeUntilFade: real): Step
  {
    match c.op
    case OpLoseLife(amount) => Step(s, LoseLifeEvents(s, amount))
    case OpDestroy => DestroyStep(s, c.now)
    case OpBlink(blinkTime) => BlinkStep(s, isServer, blinkTime, c.now)
    case OpDamage => Step(s, DamageEvents(isServer))
    case OpVisibility(vis) => Step(VisibilityStep(s, vis, waitTimeUntilFade, c.now), [])
    case OpScoreChange(value) => Step(s, [RpcScoreChange(value)])
    case OpTick => TickStep(s, c.now)
  }

  /** A sequence of calls, applied in order; the events are concatenated. */
  function Run(s: SphereState, calls: seq<Call>, isServer: bool, waitTimeUntilFade: real): Step
  {
    if calls == [] then Step(s, [])
    else
      var before := Run(s, calls[..|calls| - 1], isServer, waitTimeUntilFade);
      var last := Apply(before.state, calls[|calls| - 1], isServer, waitTimeUntilFade);
      Step(last.state, before.events + last.events)
  }

  // ---------------------------------------------------------------- lemmas

  /** `LoseLife` asks for exactly `amount` unless the sphere is invincible, and then for nothing. */
  lemma LoseLifeGate(s: SphereState, amount: int)
    ensures !s.isInvincible ==> LoseLifeEvents(s, amount) == [Event.LoseLife(amount)]
    ensures !s.isInvincible ==> LifeLoss(LoseLifeEvents(s, amount)) == amount
    ensures s.isInvincible ==> LoseLifeEvents(s, amount) == []
  {
  }

  /**
    Destroying a live sphere makes it invincible, disables its physics, removes its line
    manager and schedules exactly one respawn, due one time unit later.
   */
  lemma DestroySphereEffects(s: SphereState, now: real)
    requires !s.isInvincible
    ensures var r := DestroyStep(s, now);
      && r.state.isInvincible && !r.state.physicsEnabled && !r.state.hasLineManager
      && CountOf(r.state.timers, Respawn) == CountOf(s.timers, Respawn) + 1
      && CountOf(r.state.timers, FadeOut) == CountOf(s.timers, FadeOut)
      && r.state.timers == s.timers + [Timer(now + 1.0, Respawn)]
      && r.events == [SphereTrigger(DestroyAnim), RpcDestroySphere]
  {
    CountOfAppend(s.timers, [Timer(now + RespawnDelay, Respawn)], Respawn);
    CountOfAppend(s.timers, [Timer(now + RespawnDelay, Respawn)], FadeOut);
  }

  /** A second `DestroySphere` before the respawn changes nothing and emits nothing. */
  lemma DestroyIdempotent(s: SphereState, now: real, later: real)
    ensures DestroyStep(DestroyStep(s, now).state, later) == Step(DestroyStep(s, now).state, [])
  {
  }

  /** The visibility modes at level start (and at respawn). */
  lemma VisibilityModes(s: SphereState, wait: real, now: real)
    ensures VisibilityStep(s, Visible, wait, now) == s.(alpha := 1.0)
    ensures VisibilityStep(s, FadeAfterStartLevel, wait, now).timers == s.timers + [Timer(now + wait, FadeOut)]
    ensures VisibilityStep(s, Invisible, wait, now).timers == s.timers + [Timer(now, FadeOut)]
    ensures forall v :: VisibilityStep(s, v, wait, now).isInvincible == s.isInvincible
    ensures forall v :: CountOf(VisibilityStep(s, v, wait, now).timers, Respawn) == CountOf(s.timers, Respawn)
  {
    CountOfAppend(s.timers, [Timer(now + wait, FadeOut)], Respawn);
    CountOfAppend(s.timers, [Timer(now + 0.0, FadeOut)], Respawn);
  }

  /** Each fired respawn coroutine asks for exactly one respawn. */
  lemma {:induction false} FiredRespawns(ts: seq<Timer<SphereAction>>)
    ensures Occurrences(Fired(ts), StartRespawn) == CountOf(ts, Respawn)
    ensures LifeLoss(Fired(ts)) == 0 && ScoreDelta(Fired(ts)) == 0
  {
    if ts != [] {
      var n := |ts| - 1;
      var ev := match ts[n].action case Respawn => StartRespawn case FadeOut => SphereTrigger(FadeOutAnim);
      FiredRespawns(ts[..n]);
      CountersAppend(Fired(ts[..n]), [ev], StartRespawn);
      assert Occurrences([ev], StartRespawn) == (if ts[n].action == Respawn then 1 else 0);
    }
  }

  /** No call ever makes an invincible sphere vulnerable again. */
  lemma ApplyKeepsInvincible(s: SphereState, c: Call, isServer: bool, wait: real)
    ensures s.isInvincible ==> Apply(s, c, isServer, wait).state.isInvincible
    ensures !s.isInvincible && Apply(s, c, isServer, wait).state.isInvincible ==> c.op == OpDestroy
  {
  }

  lemma {:induction false} RunKeepsInvincible(s: SphereState, calls: seq<Call>, isServer: bool, wait: real)
    ensures s.isInvincible ==> Run(s, calls, isServer, wait).state.isInvincible
  {
    if calls != [] {
      var n := |calls| - 1;
      RunKeepsInvincible(s, calls[..n], isServer, wait);
      ApplyKeepsInvincible(Run(s, calls[..n], isServer, wait).state, calls[n], isServer, wait);
    }
  }

  /**
    One call keeps the respawn books balanced: respawns asked for plus respawns pending
    equal the respawns pending before, plus one if this call destroyed the sphere.
   */
  lemma ApplyRespawnBalance(s: SphereState, c: Call, isServer: bool, wait: real)
    ensures var r := Apply(s, c, isServer, wait);
      Occurrences(r.events, StartRespawn) + CountOf(r.state.timers, Respawn)
      == CountOf(s.timers, Respawn) + (if !s.isInvincible && r.state.isInvincible then 1 else 0)
    ensures LifeLoss(Apply(s, c, isServer, wait).events) == (if c.op.OpLoseLife? && !s.isInvincible then c.op.amount else 0)
  {
    var r := Apply(s, c, isServer, wait);
    match c.op
    case OpLoseLife(amount) =>
      assert r == Step(s, LoseLifeEvents(s, amount));
      AbsentNoOccurrences(r.events, StartRespawn);
    case OpDestroy =>
      assert r == DestroyStep(s, c.now);
      if !s.isInvincible {
        DestroySphereEffects(s, c.now);
      }
      AbsentNoOccurrences(r.events, StartRespawn);
      NoLoseLifeNoLoss(r.events);
    case OpBlink(t) =>
      assert r == BlinkStep(s, isServer, t, c.now);
      AbsentNoOccurrences(r.events, StartRespawn);
      NoLoseLifeNoLoss(r.events);
    case OpDamage =>
      assert r == Step(s, DamageEvents(isServer));
      AbsentNoOccurrences(r.events, StartRespawn);
      NoLoseLifeNoLoss(r.events);
    case OpVisibility(v) =>
      assert r == Step(VisibilityStep(s, v, wait, c.now), []);
      VisibilityModes(s, wait, c.now);
    case OpScoreChange(v) =>
      assert r == Step(s, [RpcScoreChange(v)]);
      AbsentNoOccurrences(r.events, StartRespawn);
    case OpTick =>
      assert r == TickStep(s, c.now);
      FiredRespawns(Due(s.timers, c.now));
      CountOfPartition(s.timers, c.now, Respawn);
  }

  /**
    Over any run: the respawns asked for plus those still pending equal those pending at
    the start, plus one exactly when the run destroyed the sphere.
   */
  lemma {:induction false} RunRespawnBalance(s: SphereState, calls: seq<Call>, isServer: bool, wait: real)
    ensures var r := Run(s, calls, isServer, wait);
      Occurrences(r.events, StartRespawn) + CountOf(r.state.timers, Respawn)
      == CountOf(s.timers, Respawn) + (if !s.isInvincible && r.state.isInvincible then 1 else 0)
  {
    if calls != [] {
      var n := |calls| - 1;
      var before := Run(s, calls[..n], isServer, wait);
      var last := Apply(before.state, calls[n], isServer, wait);
      RunRespawnBalance(s, calls[..n], isServer, wait);
      ApplyRespawnBalance(before.state, calls[n], isServer, wait);
      RunKeepsInvincible(s, calls[..n], isServer, wait);
      ApplyKeepsInvincible(before.state, calls[n], isServer, wait);
      CountersAppend(before.events, last.events, StartRespawn);
    }
  }

  /**
    A sphere, from its creation on, asks for at most one respawn whatever happens to it,
    and it asks for one (or still has one pending) exactly when it has been destroyed.
   */
  lemma RespawnAtMostOnce(alpha: real, calls: seq<Call>, isServer: bool, wait: real)
    ensures var r := Run(Initial(alpha), calls, isServer, wait);
      && Occurrences(r.events, StartRespawn) <= 1
      && (Occurrences(r.events, StartRespawn) + CountOf(r.state.timers, Respawn) == 1 <==> r.state.isInvincible)
  {
    RunRespawnBalance(Initial(alpha), calls, isServer, wait);
  }

  /** Every call keeps the sphere's invariant. */
  lemma ApplyKeepsInv(s: SphereState, c: Call, isServer: bool, wait: real)
    requires Inv(s)
    ensures Inv(Apply(s, c, isServer, wait).state)
  {
    var r := Apply(s, c, isServer, wait).state;
    match c.op
    case OpDestroy =>
      assert r == DestroyStep(s, c.now).state;
      if !s.isInvincible {
        DestroySphereEffects(s, c.now);
      }
    case OpVisibility(v) =>
      assert r == VisibilityStep(s, v, wait, c.now);
      VisibilityModes(s, wait, c.now);
    case OpTick =>
      assert r == TickStep(s, c.now).state;
      CountOfPartition(s.timers, c.now, Respawn);
    case OpBlink(t) =>
      assert r == s.(lastApparition := c.now);
    case OpLoseLife(_) =>
      assert r == s;
    case OpDamage =>
      assert r == s;
    case OpScoreChange(_) =>
      assert r == s;
  }

  // ---------------------------------------------------------------- the component

  class SphereCDM {
    const session: Session
    /** How long the sphere waits until it fades (`waitTimeUntilFade`). */
    const waitTimeUntilFade: real

    var isInvincible: bool
    var physicsEnabled: bool
    var hasLineManager: bool
    var alpha: real
    var timeSinceLastApparition: real
    var timers: seq<Timer<SphereAction>>

    function State(): SphereState
      reads this
    {
      SphereState(isInvincible, physicsEnabled, hasLineManager, alpha, timeSinceLastApparition, timers)
    }

    predicate Valid()
      reads this
    {
      Inv(State())
    }

    constructor (session: Session, alpha: real, waitTimeUntilFade: real := DefaultWaitTimeUntilFade)
      ensures this.session == session && this.waitTimeUntilFade == waitTimeUntilFade
      ensures State() == Initial(alpha) && Valid()
    {
      this.session := session;
      this.waitTimeUntilFade := waitTimeUntilFade;
      isInvincible := false;
      physicsEnabled := true;
      hasLineManager := true;
      this.alpha := alpha;
      timeSinceLastApparition := 0.0;
      timers := [];
    }

    /** Asks the game manager for a life loss, unless the sphere is invincible. */
    method LoseLife(amount: int)
      modifies session`events
      ensures session.events == old(session.events) + LoseLifeEvents(State(), amount)
    {
      if !isInvincible {
        session.events := session.events + [Event.LoseLife(amount)];
      }
    }

    /** Destroys the sphere once; a call on an invincible sphere does nothing. */
    method DestroySphere(now: real)
      requires Valid()
      modifies this, session`events
      ensures Valid()
      ensures State() == DestroyStep(old(State()), now).state
      ensures session.events == old(session.events) + DestroyStep(old(State()), now).events
    {
      if !isInvincible {
        isInvincible := true;
        physicsEnabled := false;
        session.events := session.events + [SphereTrigger(DestroyAnim)];
        timers := timers + [Timer(now + RespawnDelay, Respawn)];
        hasLineManager := false;
        session.events := session.events + [RpcDestroySphere];
        DestroySphereEffects(old(State()), now);
      }
    }

    /** Starts the blink animation and records the time of the apparition. */
    method Blink(now: real, blinkTime: real := 0.0)
      modifies this`timeSinceLastApparition, session`events
      ensures State() == BlinkStep(old(State()), session.isServer, blinkTime, now).state
      ensures session.events == old(session.events) + BlinkStep(old(State()), session.isServer, blinkTime, now).events
    {
      if session.isServer {
        session.events := session.events + [RpcBlink(blinkTime)];
      }
      session.events := session.events + [SphereTrigger(BlinkAnim)];
      timeSinceLastApparition := now;
    }

    /** Starts the damage animation. */
    method Damage()
      modifies session`events
      ensures session.events == old(session.events) + DamageEvents(session.isServer)
    {
      if session.isServer {
        session.events := session.events + [RpcDamage];
      }
      session.events := session.events + [SphereTrigger(DamageAnim)];
    }

    /** Applies the level's visibility mode (on level start and on respawn). */
    method SphereVisibility(now: real)
      requires Valid()
      modifies this`alpha, this`timers
      ensures Valid()
      ensures State() == VisibilityStep(old(State()), session.visibility, waitTimeUntilFade, now)
    {
      VisibilityModes(State(), waitTimeUntilFade, now);
      match session.visibility
      case Visible =>
        alpha := 1.0;
      case FadeAfterStartLevel =>
        timers := timers + [Timer(now + waitTimeUntilFade, FadeOut)];
      case Invisible =>
        timers := timers + [Timer(now + 0.0, FadeOut)];
    }

    /** Handler of `GameManager.onLevelStarted` and `GameManager.onRespawn`. */
    method OnLevelStarted(now: real)
      requires Valid()
      modifies this`alpha, this`timers
      ensures Valid()
      ensures State() == VisibilityStep(old(State()), session.visibility, waitTimeUntilFade, now)
    {
      SphereVisibility(now);
    }

    /** Handler of `GameManager.onScoreChange`: the clients show a popup. */
    method OnScoreChange(value: int)
      modifies session`events
      ensures session.events == old(session.events) + [RpcScoreChange(value)]
    {
      session.events := session.events + [RpcScoreChange(value)];
    }

    /** Lets time pass until `now`: the sphere's coroutines whose wait is over finish. */
    method Tick(now: real)
      requires Valid()
      modifies this`timers, session`events
      ensures Valid()
      ensures State() == TickStep(old(State()), now).state
      ensures session.events == old(session.events) + TickStep(old(State()), now).events
    {
      ghost var before := State();
      var fired, pending := Split(timers, now);
      timers := pending;
      session.events := session.events + Fired(fired);
      assert State() == TickStep(before, now).state;
      CountOfPartition(before.timers, now, Respawn);
    }

    /** The animator's `Danger` flag, set every frame. */
    method Update() returns (danger: bool)
      ensures danger <==> session.life <= 1 && session.isPlaying
    {
      danger := session.life <= 1 && session.isPlaying;
    }

    /** The sphere's mass as a line object. */
    function GetMass(): (m: real)
      ensures m == 1.0
    {
      1.0
    }
  }
}
