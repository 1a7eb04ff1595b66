/** GunShooter: a cooldown-gated rifle. A shot spawns a bullet, pushes it when the
    bullet has a rigidbody, plays the shot sound when both the source and the clip
    are set, and raises the animator's "Shoot" flag, which a coroutine lowers again
    0.17 s later.

    Time.time, the Fire1 button and whether the animator is still present are inputs
    of each frame. A missing prefab or fire point makes Shoot throw; the exception
    ends that Update before nextShootTime is written. */
module GunShooting {
  import opened FireGate

  /** Seconds after a shot before the coroutine lowers the "Shoot" flag. */
  const ResetDelay: real := 0.17

  datatype Config = Config(bulletForce: real, shootCooldown: real)

  const Defaults: Config := Config(700.0, 0.5)

  /** The scene references the script reads and never changes. */
  datatype Setup = Setup(hasPrefab: bool, hasFirePoint: bool, prefabHasRigidbody: bool,
                         hasAudioSource: bool, hasShootSound: bool)

  /** A spawned bullet: when it was fired and whether the force was added to it. */
  datatype Bullet = Bullet(time: real, pushed: bool)

  /** The script's fields together with what it has put into the scene: the bullets,
      the number of shot sounds played and the due times of the pending flag resets. */
  datatype GunState = GunState(nextShootTime: real, shootFlag: bool, pendingResets: seq<real>,
                               bullets: seq<Bullet>, soundsPlayed: nat)

  /** The field initialisers: nextShootTime is 0, nothing is spawned yet. */
  function Initial(): (r: GunState)
    ensures r.nextShootTime == 0.0 && !r.shootFlag && r.pendingResets == [] && r.bullets == []
  {
    GunState(0.0, false, [], [], 0)
  }

  /** When a bullet was spawned. */
  function ShotTime(b: Bullet): real { b.time }

  /** What a call of Shoot does: it throws, or it completes with a new state. */
  datatype Shot = Threw | Fired(state: GunState)

  function ShootStep(setup: Setup, s: GunState, time: real, animator: bool): (r: Shot)
    ensures r.Threw? <==> !setup.hasPrefab || !setup.hasFirePoint
    ensures r.Fired? ==> r.state.bullets == s.bullets + [Bullet(time, setup.prefabHasRigidbody)]
    ensures r.Fired? ==> r.state.nextShootTime == s.nextShootTime
    ensures r.Fired? && (!setup.hasAudioSource || !setup.hasShootSound) ==> r.state.soundsPlayed == s.soundsPlayed
    ensures r.Fired? && setup.hasAudioSource && setup.hasShootSound ==> r.state.soundsPlayed == s.soundsPlayed + 1
    ensures r.Fired? && animator ==> r.state.shootFlag && r.state.pendingResets == s.pendingResets + [time + ResetDelay]
    ensures r.Fired? && !animator ==> r.state.shootFlag == s.shootFlag && r.state.pendingResets == s.pendingResets
  {
    if !setup.hasFirePoint || !setup.hasPrefab then Threw
    else
      var spawned := s.(bullets := s.bullets + [Bullet(time, setup.prefabHasRigidbody)]);
      var heard := if setup.hasAudioSource && setup.hasShootSound
                   then spawned.(soundsPlayed := spawned.soundsPlayed + 1) else spawned;
      Fired(if animator then heard.(shootFlag := true, pendingResets := heard.pendingResets + [time + ResetDelay])
            else heard)
  }

  /** One Update: a shot when the gate is open; a throwing shot leaves the state as it was. */
  function UpdateStep(cfg: Config, setup: Setup, s: GunState, time: real, held: bool, animator: bool): (r: GunState)
    ensures !Ready(held, time, s.nextShootTime) ==> r == s
    ensures Ready(held, time, s.nextShootTime) && ShootStep(setup, s, time, animator).Threw? ==> r == s
    ensures Ready(held, time, s.nextShootTime) && ShootStep(setup, s, time, animator).Fired? ==>
              r == ShootStep(setup, s, time, animator).state.(nextShootTime := time + cfg.shootCooldown)
    ensures |r.bullets| == |s.bullets| + 1 <==> Ready(held, time, s.nextShootTime) && setup.hasPrefab && setup.hasFirePoint
  {
    if Ready(held, time, s.nextShootTime) then
      match ShootStep(setup, s, time, animator)
      case Threw => s
      case Fired(t) => t.(nextShootTime := time + cfg.shootCooldown)
    else s
  }

  /** The pending resets not yet due at `time`, in their order. */
  function Later(pending: seq<real>, time: real): (r: seq<real>)
    ensures |r| <= |pending|
    ensures forall i :: 0 <= i < |r| ==> r[i] > time
    ensures forall x :: multiset(r)[x] == if x > time then multiset(pending)[x] else 0
  {
    if pending == [] then []
    else
      var rest := Later(pending[1..], time);
      assert pending == [pending[0]] + pending[1..];
      if pending[0] > time then [pending[0]] + rest else rest
  }

  /** When nothing is due at `time`, every pending reset stays. */
  lemma {:induction false} LaterKeepsAll(pending: seq<real>, time: real)
    requires forall i :: 0 <= i < |pending| ==> pending[i] > time
    ensures Later(pending, time) == pending
    decreases |pending|
  {
    if pending != [] {
      LaterKeepsAll(pending[1..], time);
    }
  }

  /** The resets that fall due at `time` resume: each lowers the flag if the animator
      is still there, and ends. */
  function ResumeStep(s: GunState, time: real, animator: bool): (r: GunState)
    ensures r.pendingResets == Later(s.pendingResets, time)
    ensures r.nextShootTime == s.nextShootTime && r.bullets == s.bullets && r.soundsPlayed == s.soundsPlayed
    ensures animator && (exists i :: 0 <= i < |s.pendingResets| && s.pendingResets[i] <= time) ==> !r.shootFlag
    ensures !(animator && exists i :: 0 <= i < |s.pendingResets| && s.pendingResets[i] <= time) ==>
              r.shootFlag == s.shootFlag
    ensures r.shootFlag ==> s.shootFlag
  {
    var anyDue := exists i :: 0 <= i < |s.pendingResets| && s.pendingResets[i] <= time;
    s.(pendingResets := Later(s.pendingResets, time), shootFlag := s.shootFlag && !(animator && anyDue))
  }

  /** A frame's inputs. */
  datatype Frame = Frame(time: real, fire1Held: bool, animator: bool)

  /** A frame: Update, then the coroutines that are due. */
  function FrameStep(cfg: Config, setup: Setup, s: GunState, f: Frame): GunState {
    ResumeStep(UpdateStep(cfg, setup, s, f.time, f.fire1Held, f.animator), f.time, f.animator)
  }

  function Run(cfg: Config, setup: Setup, s: GunState, frames: seq<Frame>): GunState
    decreases |frames|
  {
    if frames == [] then s else Run(cfg, setup, FrameStep(cfg, setup, s, frames[0]), frames[1..])
  }

  /** The shots fired so far are one cooldown apart, and the latest one is at least a
      cooldown before the next allowed time. */
  predicate Inv(cfg: Config, s: GunState) {
    Spaced(Times(s.bullets, ShotTime), cfg.shootCooldown) &&
    (|s.bullets| > 0 ==> s.bullets[|s.bullets| - 1].time + cfg.shootCooldown <= s.nextShootTime)
  }

  lemma InitialInv(cfg: Config)
    ensures Inv(cfg, Initial())
  {
  }

  lemma StepKeepsInv(cfg: Config, setup: Setup, s: GunState, f: Frame)
    requires Inv(cfg, s)
    ensures Inv(cfg, FrameStep(cfg, setup, s, f))
  {
    var u := UpdateStep(cfg, setup, s, f.time, f.fire1Held, f.animator);
    if |u.bullets| == |s.bullets| + 1 {
      TimesAppend(s.bullets, u.bullets[|s.bullets|], ShotTime);
      assert u.bullets == s.bullets + [u.bullets[|s.bullets|]];
      SpacedAppend(Times(s.bullets, ShotTime), f.time, cfg.shootCooldown);
    }
  }

  lemma {:induction false} RunKeepsInv(cfg: Config, setup: Setup, s: GunState, frames: seq<Frame>)
    requires Inv(cfg, s)
    ensures Inv(cfg, Run(cfg, setup, s, frames))
    decreases |frames|
  {
    if frames != [] {
      StepKeepsInv(cfg, setup, s, frames[0]);
      RunKeepsInv(cfg, setup, FrameStep(cfg, setup, s, frames[0]), frames[1..]);
    }
  }

  /** Over any run from the start, successive shots are at least shootCooldown apart,
      whatever order the frame times come in. */
  lemma ShotsSpaced(cfg: Config, setup: Setup, frames: seq<Frame>)
    ensures Spaced(Times(Run(cfg, setup, Initial(), frames).bullets, ShotTime), cfg.shootCooldown)
  {
    InitialInv(cfg);
    RunKeepsInv(cfg, setup, Initial(), frames);
  }

  /** With the references set, the first press at any time from 0 on fires. */
  lemma FirstPressFires(cfg: Config, setup: Setup, time: real, animator: bool)
    requires setup.hasPrefab && setup.hasFirePoint && 0.0 <= time
    ensures |UpdateStep(cfg, setup, Initial(), time, true, animator).bullets| == 1
  {
  }

  /** A shot whose Shoot throws changes neither the cooldown nor the scene, so every
      later held frame tries (and throws) again. */
  lemma ThrowingShotRetries(cfg: Config, setup: Setup, s: GunState, f: Frame)
    requires !setup.hasPrefab || !setup.hasFirePoint
    ensures FrameStep(cfg, setup, s, f).nextShootTime == s.nextShootTime
    ensures FrameStep(cfg, setup, s, f).bullets == s.bullets
  {
  }

  /** The "Shoot" flag is raised only by a shot that sees the animator. */
  lemma FlagNeedsAnimator(cfg: Config, setup: Setup, s: GunState, f: Frame)
    requires !s.shootFlag && !f.animator
    ensures !FrameStep(cfg, setup, s, f).shootFlag
  {
  }

  /** Over any run in which the animator is gone, a lowered flag is never raised. */
  lemma {:induction false} FlagNeverRaised(cfg: Config, setup: Setup, s: GunState, frames: seq<Frame>)
    requires !s.shootFlag && forall i :: 0 <= i < |frames| ==> !frames[i].animator
    ensures !Run(cfg, setup, s, frames).shootFlag
    decreases |frames|
  {
    if frames != [] {
      FlagNeedsAnimator(cfg, setup, s, frames[0]);
      assert forall i :: 0 <= i < |frames[1..]| ==> !frames[1..][i].animator by {
        forall i | 0 <= i < |frames[1..]| ensures !frames[1..][i].animator {
          assert frames[1..][i] == frames[i + 1];
        }
      }
      FlagNeverRaised(cfg, setup, FrameStep(cfg, setup, s, frames[0]), frames[1..]);
    }
  }

  /** While the animator stays present, a raised flag always has a reset pending. */
  predicate FlagInv(s: GunState) {
    s.shootFlag ==> |s.pendingResets| > 0
  }

  lemma StepKeepsFlagInv(cfg: Config, setup: Setup, s: GunState, f: Frame)
    requires FlagInv(s) && f.animator
    ensures FlagInv(FrameStep(cfg, setup, s, f))
  {
    var u := UpdateStep(cfg, setup, s, f.time, f.fire1Held, f.animator);
    assert u.shootFlag ==> |u.pendingResets| > 0;
    var r := ResumeStep(u, f.time, f.animator);
    if r.shootFlag {
      LaterKeepsAll(u.pendingResets, f.time);
    }
  }

  class GunShooter {
    const cfg: Config
    const setup: Setup

    var nextShootTime: real
    var shootFlag: bool
    var pendingResets: seq<real>
    var bullets: seq<Bullet>
    var soundsPlayed: nat

    ghost function Snapshot(): GunState
      reads this
    {
      GunState(nextShootTime, shootFlag, pendingResets, bullets, soundsPlayed)
    }

    constructor (cfg: Config, setup: Setup)
      ensures this.cfg == cfg && this.setup == setup
      ensures Snapshot() == Initial()
    {
      this.cfg := cfg;
      this.setup := setup;
      nextShootTime, shootFlag, pendingResets, bullets, soundsPlayed := 0.0, false, [], [], 0;
    }

    method Update(time: real, fire1Held: bool, animator: bool)
      modifies this
      ensures Snapshot() == UpdateStep(cfg, setup, old(Snapshot()), time, fire1Held, animator)
    {
      if fire1Held && time >= nextShootTime {
        var completed := Shoot(time, animator);
        if !completed {
          return;
        }
        nextShootTime := time + cfg.shootCooldown;
      }
    }

    /** Returns false when the call throws; the state is then unchanged. */
    method Shoot(time: real, animator: bool) returns (completed: bool)
      modifies this
      ensures completed <==> ShootStep(setup, old(Snapshot()), time, animator).Fired?
      ensures completed ==> Snapshot() == ShootStep(setup, old(Snapshot()), time, animator).state
      ensures !completed ==> Snapshot() == old(Snapshot())
    {
      if !setup.hasFirePoint || !setup.hasPrefab {
        return false;
      }
      bullets := bullets + [Bullet(time, setup.prefabHasRigidbody)];
      if setup.hasAudioSource && setup.hasShootSound {
        soundsPlayed := soundsPlayed + 1;
      }
      if animator {
        shootFlag := true;
        pendingResets := pendingResets + [time + ResetDelay];
      }
      return true;
    }

    /** The ResetShootAnimation coroutines whose wait has ended at `time`. */
    method ResumeResets(time: real, animator: bool)
      modifies this
      ensures Snapshot() == ResumeStep(old(Snapshot()), time, animator)
    {
      var anyDue := exists i :: 0 <= i < |pendingResets| && pendingResets[i] <= time;
      if animator && anyDue {
        shootFlag := false;
      }
      pendingResets := Later(pendingResets, time);
    }
  }
}
