/** WaterGun: a fire-rate-gated gun. Each attempt moves the next allowed time one
    fireRate on, whether or not a bullet comes out: a missing prefab or fire point
    spawns nothing, and a bullet without a rigidbody is spawned but neither launched
    nor scheduled for destruction. Time.time and the mouse button are inputs. */
module WaterGunning {
  import opened FireGate

  /** Seconds after a successful launch before the bullet is destroyed. */
  const BulletLifetime: real := 5.0

  datatype Config = Config(fireRate: real, bulletSpeed: real)

  const Defaults: Config := Config(0.3, 25.0)

  datatype Setup = Setup(hasPrefab: bool, hasFirePoint: bool, prefabHasRigidbody: bool)

  /** A spawned water bullet. `launched`: its velocity was set to bulletSpeed along the
      fire point's forward axis and its destruction scheduled BulletLifetime later. */
  datatype WaterBullet = WaterBullet(time: real, launched: bool)

  /** nextFireTime, the times of all attempts so far and the spawned bullets. */
  datatype WaterState = WaterState(nextFireTime: real, attempts: seq<real>, bullets: seq<WaterBullet>)

  function Initial(): (r: WaterState)
    ensures r.nextFireTime == 0.0 && r.attempts == [] && r.bullets == []
  {
    WaterState(0.0, [], [])
  }

  /** How a call of Fire ends. */
  datatype Outcome = MissingReference | MissingRigidbody | Launched

  function FireOutcome(setup: Setup): (r: Outcome)
    ensures r == MissingReference <==> !setup.hasPrefab || !setup.hasFirePoint
    ensures r == MissingRigidbody <==> setup.hasPrefab && setup.hasFirePoint && !setup.prefabHasRigidbody
    ensures r == Launched <==> setup.hasPrefab && setup.hasFirePoint && setup.prefabHasRigidbody
  {
    if !setup.hasPrefab || !setup.hasFirePoint then MissingReference
    else if !setup.prefabHasRigidbody then MissingRigidbody
    else Launched
  }

  /** Fire: a bullet unless a reference is missing; launched only with a rigidbody. */
  function FireStep(setup: Setup, s: WaterState, time: real): (r: WaterState)
    ensures r.nextFireTime == s.nextFireTime && r.attempts == s.attempts
    ensures FireOutcome(setup) == MissingReference ==> r.bullets == s.bullets
    ensures FireOutcome(setup) != MissingReference ==>
              r.bullets == s.bullets + [WaterBullet(time, FireOutcome(setup) == Launched)]
  {
    match FireOutcome(setup)
    case MissingReference => s
    case MissingRigidbody => s.(bullets := s.bullets + [WaterBullet(time, false)])
    case Launched => s.(bullets := s.bullets + [WaterBullet(time, true)])
  }

  /** One Update: an attempt when the gate is open, and the next allowed time moved on
      after it however Fire ended. */
  function UpdateStep(cfg: Config, setup: Setup, s: WaterState, time: real, held: bool): (r: WaterState)
    ensures !Ready(held, time, s.nextFireTime) ==> r == s
    ensures Ready(held, time, s.nextFireTime) ==>
              r.nextFireTime == time + cfg.fireRate && r.attempts == s.attempts + [time]
    ensures |r.bullets| == |s.bullets| + 1 <==> Ready(held, time, s.nextFireTime) && setup.hasPrefab && setup.hasFirePoint
    ensures |r.bullets| != |s.bullets| + 1 ==> r.bullets == s.bullets
  {
    if Ready(held, time, s.nextFireTime) then
      FireStep(setup, s, time).(nextFireTime := time + cfg.fireRate, attempts := s.attempts + [time])
    else s
  }

  datatype Frame = Frame(time: real, held: bool)

  function Run(cfg: Config, setup: Setup, s: WaterState, frames: seq<Frame>): WaterState
    decreases |frames|
  {
    if frames == [] then s else Run(cfg, setup, UpdateStep(cfg, setup, s, frames[0].time, frames[0].held), frames[1..])
  }

  /** When a bullet was spawned. */
  function SpawnTime(b: WaterBullet): real { b.time }

  /** Attempts and bullets are each one fireRate apart, and the latest of either is at
      least a fireRate before the next allowed time. Bullets, which fall on a
      subset of the attempts, keep the spacing only for a fireRate that is not negative. */
  predicate Inv(cfg: Config, s: WaterState) {
    Spaced(s.attempts, cfg.fireRate) &&
    (|s.attempts| > 0 ==> s.attempts[|s.attempts| - 1] + cfg.fireRate <= s.nextFireTime) &&
    (0.0 <= cfg.fireRate ==>
       Spaced(Times(s.bullets, SpawnTime), cfg.fireRate) &&
       (|s.bullets| > 0 ==> s.bullets[|s.bullets| - 1].time + cfg.fireRate <= s.nextFireTime))
  }

  lemma InitialInv(cfg: Config)
    ensures Inv(cfg, Initial())
  {
  }

  lemma StepKeepsInv(cfg: Config, setup: Setup, s: WaterState, f: Frame)
    requires Inv(cfg, s)
    ensures Inv(cfg, UpdateStep(cfg, setup, s, f.time, f.held))
  {
    var r := UpdateStep(cfg, setup, s, f.time, f.held);
    if Ready(f.held, f.time, s.nextFireTime) {
      SpacedAppend(s.attempts, f.time, cfg.fireRate);
      if 0.0 <= cfg.fireRate && |r.bullets| == |s.bullets| + 1 {
        TimesAppend(s.bullets, r.bullets[|s.bullets|], SpawnTime);
        assert r.bullets == s.bullets + [r.bullets[|s.bullets|]];
        SpacedAppend(Times(s.bullets, SpawnTime), f.time, cfg.fireRate);
      }
    }
  }

  lemma {:induction false} RunKeepsInv(cfg: Config, setup: Setup, s: WaterState, frames: seq<Frame>)
    requires Inv(cfg, s)
    ensures Inv(cfg, Run(cfg, setup, s, frames))
    decreases |frames|
  {
    if frames != [] {
      StepKeepsInv(cfg, setup, s, frames[0]);
      RunKeepsInv(cfg, setup, UpdateStep(cfg, setup, s, frames[0].time, frames[0].held), frames[1..]);
    }
  }

  /** From the start, attempts (including those that spawn nothing) are at least
      fireRate apart, and so are bullets when fireRate is not negative. */
  lemma AttemptsSpaced(cfg: Config, setup: Setup, frames: seq<Frame>)
    ensures Spaced(Run(cfg, setup, Initial(), frames).attempts, cfg.fireRate)
    ensures 0.0 <= cfg.fireRate ==> Spaced(Times(Run(cfg, setup, Initial(), frames).bullets, SpawnTime), cfg.fireRate)
  {
    InitialInv(cfg);
    RunKeepsInv(cfg, setup, Initial(), frames);
  }

  /** With a reference missing no run spawns anything, yet the attempts go on. */
  lemma {:induction false} NoBulletsWithoutReferences(cfg: Config, setup: Setup, s: WaterState, frames: seq<Frame>)
    requires !setup.hasPrefab || !setup.hasFirePoint
    ensures Run(cfg, setup, s, frames).bullets == s.bullets
    decreases |frames|
  {
    if frames != [] {
      NoBulletsWithoutReferences(cfg, setup, UpdateStep(cfg, setup, s, frames[0].time, frames[0].held), frames[1..]);
    }
  }

  /** Every bullet a run spawns is launched exactly when the prefab has a rigidbody:
      with none, the bullets stay in the scene unlaunched and never scheduled for
      destruction. */
  lemma {:induction false} LaunchedIffRigidbody(cfg: Config, setup: Setup, s: WaterState, frames: seq<Frame>)
    ensures var b := Run(cfg, setup, s, frames).bullets;
            |s.bullets| <= |b| && b[..|s.bullets|] == s.bullets &&
            forall i :: |s.bullets| <= i < |b| ==> b[i].launched == setup.prefabHasRigidbody
    decreases |frames|
  {
    if frames != [] {
      var t := UpdateStep(cfg, setup, s, frames[0].time, frames[0].held);
      LaunchedIffRigidbody(cfg, setup, t, frames[1..]);
      var b := Run(cfg, setup, s, frames).bullets;
      assert b == Run(cfg, setup, t, frames[1..]).bullets;
      assert b[..|s.bullets|] == b[..|t.bullets|][..|s.bullets|];
    }
  }

  class WaterGun {
    const cfg: Config
    const setup: Setup

    var nextFireTime: real
    ghost var attempts: seq<real>
    var bullets: seq<WaterBullet>

    ghost function Snapshot(): WaterState
      reads this
    {
      WaterState(nextFireTime, attempts, bullets)
    }

    constructor (cfg: Config, setup: Setup)
      ensures this.cfg == cfg && this.setup == setup
      ensures Snapshot() == Initial()
    {
      this.cfg := cfg;
      this.setup := setup;
      nextFireTime, attempts, bullets := 0.0, [], [];
    }

    method Update(time: real, mouseHeld: bool)
      modifies this
      ensures Snapshot() == UpdateStep(cfg, setup, old(Snapshot()), time, mouseHeld)
    {
      if mouseHeld && time >= nextFireTime {
        Fire(time);
        nextFireTime := time + cfg.fireRate;
        attempts := attempts + [time];
      }
    }

    method Fire(time: real)
      modifies this
      ensures Snapshot() == FireStep(setup, old(Snapshot()), time)
    {
      if !setup.hasPrefab || !setup.hasFirePoint {
        return;
      }
      bullets := bullets + [WaterBullet(time, false)];
      if !setup.prefabHasRigidbody {
        return;
      }
      bullets := bullets[..|bullets| - 1] + [WaterBullet(time, true)];
    }
  }
}
