/** The poop monster's per-frame decision (idle, chase or attack by distance to the
    player) and its attack coroutine, which holds a latch for the wind-up (0.3 s) and
    the recovery (1.2 s) and fires one projectile in between.

    The coroutine is modelled as an explicit phase: `WindUp(left)` and `Recover(left)`
    carry the seconds the current WaitForSeconds still has to run, and `Advance(dt)`
    is the engine resuming it after `dt` seconds. Engine facts (the distance to the
    player, whether the agent is on the NavMesh, the agent's speed, whether a spawned
    projectile has a Rigidbody) are inputs; the agent destination, the animator bools
    and the spawned projectiles are recorded. */
module MonsterAI {

  const WindUpTime: real := 0.3
  const RecoverTime: real := 1.2

  /** The inspector settings, and whether the two optional references are set. */
  datatype Config = Config(detectionRadius: real, attackRange: real, attackForce: real,
                           hasPoopPrefab: bool, hasFirePoint: bool)

  /** Where the NavMeshAgent was last sent: its own position, or the player's. */
  datatype Destination = Unset | HoldPosition | ToPlayer

  /** The coroutine's place: not running, or waiting in one of its two waits. */
  datatype Phase = Ready | WindUp(left: real) | Recover(left: real)

  /** A spawned projectile, and whether it had a Rigidbody to push. */
  datatype Shot = Shot(pushed: bool)

  datatype MonsterState = MonsterState(isAttacking: bool, phase: Phase, destination: Destination,
                                       chase: bool, attack: bool, speed: real, shots: seq<Shot>)

  /** What one frame sees. */
  datatype Sight = Sight(hasPlayer: bool, hasAnimator: bool, distance: real, onNavMesh: bool, agentSpeed: real)

  /** The branch Update takes once no attack is running. */
  datatype Decision = StartAttack | ChaseIt | StayIdle

  function Decide(cfg: Config, distance: real): (d: Decision)
    ensures d == StartAttack <==> distance <= cfg.detectionRadius && distance <= cfg.attackRange
    ensures d == ChaseIt <==> cfg.attackRange < distance <= cfg.detectionRadius
    ensures d == StayIdle <==> cfg.detectionRadius < distance
  {
    if distance <= cfg.detectionRadius then
      if distance <= cfg.attackRange then StartAttack else ChaseIt
    else StayIdle
  }

  /** The state after Start, before any frame. */
  function Start(): MonsterState {
    MonsterState(false, Ready, Unset, false, false, 0.0, [])
  }

  /** ChasePlayer(): only on the NavMesh. */
  function ChaseStep(s: MonsterState, onNavMesh: bool): (r: MonsterState)
    ensures !onNavMesh ==> r == s
    ensures onNavMesh ==> r == s.(destination := ToPlayer, chase := true, attack := false)
  {
    if !onNavMesh then s else s.(destination := ToPlayer, chase := true, attack := false)
  }

  /** Idle(): only on the NavMesh. */
  function IdleStep(s: MonsterState, onNavMesh: bool): (r: MonsterState)
    ensures !onNavMesh ==> r == s
    ensures onNavMesh ==> r == s.(destination := HoldPosition, chase := false, attack := false)
  {
    if !onNavMesh then s else s.(destination := HoldPosition, chase := false, attack := false)
  }

  /** AttackPlayer() up to its first wait: the latch, a stop and the animator bools. */
  function AttackStart(s: MonsterState): (r: MonsterState)
    ensures r.isAttacking && r.attack && !r.chase && r.destination == HoldPosition
    ensures r.phase == WindUp(WindUpTime) && r.shots == s.shots && r.speed == s.speed
  {
    s.(isAttacking := true, destination := HoldPosition, attack := true, chase := false, phase := WindUp(WindUpTime))
  }

  /** One Update. */
  function UpdateStep(cfg: Config, s: MonsterState, v: Sight): (r: MonsterState)
    ensures !v.hasPlayer || !v.hasAnimator ==> r == s
    ensures v.hasPlayer && v.hasAnimator && s.isAttacking ==> r == s.(destination := HoldPosition)
    ensures v.hasPlayer && v.hasAnimator && !s.isAttacking ==>
              r.speed == v.agentSpeed && r.shots == s.shots &&
              match Decide(cfg, v.distance)
              case StartAttack => r == AttackStart(s).(speed := v.agentSpeed)
              case ChaseIt => r == ChaseStep(s, v.onNavMesh).(speed := v.agentSpeed)
              case StayIdle => r == IdleStep(s, v.onNavMesh).(speed := v.agentSpeed)
  {
    if !v.hasPlayer || !v.hasAnimator then s
    else if s.isAttacking then s.(destination := HoldPosition)
    else
      var t := match Decide(cfg, v.distance)
               case StartAttack => AttackStart(s)
               case ChaseIt => ChaseStep(s, v.onNavMesh)
               case StayIdle => IdleStep(s, v.onNavMesh);
      t.(speed := v.agentSpeed)
  }

  /** The engine resumes the coroutine after `dt` seconds. Once the wind-up has run out
      a projectile spawns when both references are set (pushed when it has a
      Rigidbody) and the recovery wait starts afresh; once the recovery has run out the
      latch and the attack bool clear. */
  function AdvanceStep(cfg: Config, s: MonsterState, dt: real, hasRigidbody: bool): (r: MonsterState)
    ensures s.phase.Ready? ==> r == s
    ensures s.phase.WindUp? && dt < s.phase.left ==> r == s.(phase := WindUp(s.phase.left - dt))
    ensures s.phase.WindUp? && s.phase.left <= dt ==>
              r == s.(phase := Recover(RecoverTime),
                      shots := if cfg.hasPoopPrefab && cfg.hasFirePoint then s.shots + [Shot(hasRigidbody)] else s.shots)
    ensures s.phase.Recover? && dt < s.phase.left ==> r == s.(phase := Recover(s.phase.left - dt))
    ensures s.phase.Recover? && s.phase.left <= dt ==>
              r == s.(phase := Ready, attack := false, isAttacking := false)
  {
    match s.phase
    case Ready => s
    case WindUp(left) =>
      if dt < left then s.(phase := WindUp(left - dt))
      else
        var shots := if cfg.hasPoopPrefab && cfg.hasFirePoint then s.shots + [Shot(hasRigidbody)] else s.shots;
        s.(phase := Recover(RecoverTime), shots := shots)
    case Recover(left) =>
      if dt < left then s.(phase := Recover(left - dt))
      else s.(phase := Ready, attack := false, isAttacking := false)
  }

  datatype Event = Frame(sight: Sight) | Advance(dt: real, hasRigidbody: bool)

  function Step(cfg: Config, s: MonsterState, e: Event): MonsterState {
    match e
    case Frame(v) => UpdateStep(cfg, s, v)
    case Advance(dt, rb) => AdvanceStep(cfg, s, dt, rb)
  }

  function Run(cfg: Config, s: MonsterState, events: seq<Event>): MonsterState
    decreases |events|
  {
    if events == [] then s else Run(cfg, Step(cfg, s, events[0]), events[1..])
  }

  /** The latch is set exactly while the coroutine runs, the attack bool stays on and
      chase off for the whole attack, and a pending wait is positive and no longer than
      its full length. */
  predicate Inv(s: MonsterState) {
    (s.isAttacking <==> !s.phase.Ready?) &&
    (s.isAttacking ==> s.attack && !s.chase) &&
    (s.phase.WindUp? ==> 0.0 < s.phase.left <= WindUpTime) &&
    (s.phase.Recover? ==> 0.0 < s.phase.left <= RecoverTime)
  }

  lemma StartEstablishesInv()
    ensures Inv(Start())
  {
  }

  /** Resumptions never go back in time. */
  predicate TimeForward(e: Event) {
    e.Advance? ==> 0.0 <= e.dt
  }

  lemma StepKeepsInv(cfg: Config, s: MonsterState, e: Event)
    requires Inv(s) && TimeForward(e)
    ensures Inv(Step(cfg, s, e))
  {
    match e
    case Frame(v) =>
      if v.hasPlayer && v.hasAnimator && !s.isAttacking {
        match Decide(cfg, v.distance)
        case StartAttack =>
        case ChaseIt => assert !ChaseStep(s, v.onNavMesh).isAttacking;
        case StayIdle => assert !IdleStep(s, v.onNavMesh).isAttacking;
      }
    case Advance(dt, rb) =>
  }

  /** Every state reached from one satisfying Inv satisfies it; in particular no second
      attack coroutine can start while one is running. */
  lemma {:induction false} RunKeepsInv(cfg: Config, s: MonsterState, events: seq<Event>)
    requires Inv(s) && forall i :: 0 <= i < |events| ==> TimeForward(events[i])
    ensures Inv(Run(cfg, s, events))
    decreases |events|
  {
    if events != [] {
      StepKeepsInv(cfg, s, events[0]);
      assert forall i :: 0 <= i < |events[1..]| ==> TimeForward(events[1..][i]) by {
        forall i | 0 <= i < |events[1..]| ensures TimeForward(events[1..][i]) {
          assert events[1..][i] == events[i + 1];
        }
      }
      RunKeepsInv(cfg, Step(cfg, s, events[0]), events[1..]);
    }
  }

  /** Without the prefab or the fire point no projectile ever spawns. */
  lemma {:induction false} NoShotsWithoutPrefab(cfg: Config, s: MonsterState, events: seq<Event>)
    requires !(cfg.hasPoopPrefab && cfg.hasFirePoint)
    ensures Run(cfg, s, events).shots == s.shots
    decreases |events|
  {
    if events != [] {
      var t := Step(cfg, s, events[0]);
      assert t.shots == s.shots;
      NoShotsWithoutPrefab(cfg, t, events[1..]);
    }
  }

  /** Projectiles are only ever added: every step keeps the earlier ones as a prefix and
      adds at most one. */
  lemma {:induction false} ShotsOnlyGrow(cfg: Config, s: MonsterState, events: seq<Event>)
    ensures var r := Run(cfg, s, events); |s.shots| <= |r.shots| && r.shots[..|s.shots|] == s.shots
    decreases |events|
  {
    if events != [] {
      var t := Step(cfg, s, events[0]);
      assert |s.shots| <= |t.shots| && t.shots[..|s.shots|] == s.shots;
      ShotsOnlyGrow(cfg, t, events[1..]);
      var r := Run(cfg, t, events[1..]);
      assert r.shots[..|s.shots|] == r.shots[..|t.shots|][..|s.shots|];
    }
  }

  /** An attack started from rest, resumed once after its wind-up and once after its
      recovery, fires exactly one projectile (given both references) and ends at rest
      with the attack bool off. */
  lemma AttackCompletes(cfg: Config, s: MonsterState, v: Sight, dt1: real, dt2: real, rb: bool)
    requires v.hasPlayer && v.hasAnimator && !s.isAttacking
    requires Decide(cfg, v.distance) == StartAttack
    requires WindUpTime <= dt1 && RecoverTime <= dt2
    ensures var r := Run(cfg, s, [Frame(v), Advance(dt1, rb), Advance(dt2, rb)]);
            !r.isAttacking && !r.attack && r.phase == Ready &&
            r.shots == if cfg.hasPoopPrefab && cfg.hasFirePoint then s.shots + [Shot(rb)] else s.shots
  {
    var events := [Frame(v), Advance(dt1, rb), Advance(dt2, rb)];
    var s1 := Step(cfg, s, events[0]);
    var s2 := Step(cfg, s1, events[1]);
    var s3 := Step(cfg, s2, events[2]);
    assert s1.phase == WindUp(WindUpTime) && s1.shots == s.shots;
    assert s3.phase == Ready;
    assert Run(cfg, s, events) == Run(cfg, s1, events[1..]);
    assert Run(cfg, s1, events[1..]) == Run(cfg, s2, events[2..]);
    assert Run(cfg, s2, events[2..]) == Run(cfg, s3, events[3..]);
    assert events[3..] == [];
  }

  /** The MonoBehaviour. `hasPlayer` and `hasAnimator` are what Start found: the player
      by its tag and the serialized animator reference. */
  class PoopMonsterAI {
    const cfg: Config
    const hasPlayer: bool
    const hasAnimator: bool
    const stoppingDistance: real

    var isAttacking: bool
    var phase: Phase
    var destination: Destination
    var chase: bool
    var attack: bool
    var speed: real
    var shots: seq<Shot>

    ghost function Snapshot(): MonsterState
      reads this
    {
      MonsterState(isAttacking, phase, destination, chase, attack, speed, shots)
    }

    /** Start: the agent stops 0.1 short of the attack range. */
    constructor (cfg: Config, playerFound: bool, animatorAssigned: bool)
      ensures this.cfg == cfg && hasPlayer == playerFound && hasAnimator == animatorAssigned
      ensures stoppingDistance == cfg.attackRange - 0.1
      ensures Snapshot() == Start()
    {
      this.cfg := cfg;
      hasPlayer := playerFound;
      hasAnimator := animatorAssigned;
      stoppingDistance := cfg.attackRange - 0.1;
      isAttacking, phase, destination := false, Ready, Unset;
      chase, attack, speed, shots := false, false, 0.0, [];
    }

    method Update(distance: real, onNavMesh: bool, agentSpeed: real)
      modifies this
      ensures Snapshot() == UpdateStep(cfg, old(Snapshot()), Sight(hasPlayer, hasAnimator, distance, onNavMesh, agentSpeed))
    {
      if !hasPlayer || !hasAnimator {
        return;
      }
      if isAttacking {
        destination := HoldPosition;
        return;
      }
      if distance <= cfg.detectionRadius {
        if distance <= cfg.attackRange {
          AttackPlayer();
        } else {
          ChasePlayer(onNavMesh);
        }
      } else {
        Idle(onNavMesh);
      }
      speed := agentSpeed;
    }

    method ChasePlayer(onNavMesh: bool)
      modifies this
      ensures Snapshot() == ChaseStep(old(Snapshot()), onNavMesh)
    {
      if !onNavMesh {
        return;
      }
      destination := ToPlayer;
      chase := true;
      attack := false;
    }

    method Idle(onNavMesh: bool)
      modifies this
      ensures Snapshot() == IdleStep(old(Snapshot()), onNavMesh)
    {
      if !onNavMesh {
        return;
      }
      destination := HoldPosition;
      chase := false;
      attack := false;
    }

    /** StartCoroutine(AttackPlayer()): the part that runs before the first wait. */
    method AttackPlayer()
      modifies this
      ensures Snapshot() == AttackStart(old(Snapshot()))
    {
      isAttacking := true;
      destination := HoldPosition;
      attack := true;
      chase := false;
      phase := WindUp(WindUpTime);
    }

    /** The engine resumes the running coroutine `dt` seconds after it last waited. */
    method Advance(dt: real, hasRigidbody: bool)
      modifies this
      ensures Snapshot() == AdvanceStep(cfg, old(Snapshot()), dt, hasRigidbody)
    {
      match phase
      case Ready =>
      case WindUp(left) =>
        if dt < left {
          phase := WindUp(left - dt);
        } else {
          if cfg.hasPoopPrefab && cfg.hasFirePoint {
            shots := shots + [Shot(hasRigidbody)];
          }
          phase := Recover(RecoverTime);
        }
      case Recover(left) =>
        if dt < left {
          phase := Recover(left - dt);
        } else {
          attack := false;
          isAttacking := false;
          phase := Ready;
        }
    }
  }
}
