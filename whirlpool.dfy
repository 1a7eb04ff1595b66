/** The whirlpool projectile (a spiral path with a bounded trail of recent positions
    and a lifetime) and the spawner that keeps at most one of them alive.

    Mathf.Cos and Mathf.Sin of the spiral angle are inputs of each frame. Destroy is
    recorded as the `destroyed` flag; Unity's overloaded `==` makes a destroyed
    object compare equal to null, so the spawner's `currentTP == null` test reads
    `currentTP == null || currentTP.destroyed` here. */
module Whirlpool {
  import opened Unity
  import opened Sequences

  datatype Config = Config(spiralSpeed: real, radialSpeed: real, lifeTime: real,
                           tailUpdateInterval: real, maxTailPoints: int)

  const Defaults: Config := Config(5.0, 1.0, 5.0, 0.05, 100)

  /** The trail after one more point: appended at the end, and the oldest point
      dropped when the count then exceeds the maximum. */
  function Appended(tail: seq<Vec3>, point: Vec3, maxPoints: int): (r: seq<Vec3>)
    ensures 1 <= maxPoints || 0 < |tail| ==> 0 < |r|
    ensures 0 < |r| ==> r[|r| - 1] == point
    ensures r == tail + [point] || r == (tail + [point])[1..]
    ensures |tail| + 1 <= maxPoints ==> r == tail + [point]
    ensures 1 <= maxPoints && |tail| <= maxPoints ==> |r| <= maxPoints
  {
    var longer := tail + [point];
    if |longer| > maxPoints then longer[1..] else longer
  }

  /** The spiral position `timeElapsed` seconds in, given the cosine and sine of the angle. */
  function SpiralPosition(cfg: Config, origin: Vec3, timeElapsed: real, cosAngle: real, sinAngle: real): (r: Vec3)
    ensures r.y == origin.y
  {
    var radius := timeElapsed * cfg.radialSpeed;
    origin.Plus(Vec3(cosAngle * radius, 0.0, sinAngle * radius))
  }

  datatype Projectile = Projectile(origin: Vec3, timeElapsed: real, tailTimer: real, tail: seq<Vec3>,
                                   positionCount: int, position: Vec3, destroyed: bool)

  /** Start: the trail holds exactly the spawn position. */
  function AtSpawn(at: Vec3): (r: Projectile)
    ensures r.tail == [at] && r.origin == at && r.timeElapsed == 0.0 && r.tailTimer == 0.0 && !r.destroyed
  {
    Projectile(at, 0.0, 0.0, [at], 0, at, false)
  }

  /** A frame's inputs: its delta time and the engine's cosine and sine of the angle
      timeElapsed * spiralSpeed. */
  datatype Frame = Frame(dt: real, cosAngle: real, sinAngle: real)

  /** One Update of a live projectile. */
  function ProjectileStep(cfg: Config, s: Projectile, f: Frame): (r: Projectile)
    ensures r.origin == s.origin
    ensures r.timeElapsed == s.timeElapsed + f.dt
    ensures r.position == SpiralPosition(cfg, s.origin, r.timeElapsed, f.cosAngle, f.sinAngle)
    ensures r.position.y == s.origin.y
    ensures s.tailTimer + f.dt >= cfg.tailUpdateInterval ==>
              r.tailTimer == 0.0 && r.tail == Appended(s.tail, r.position, cfg.maxTailPoints) &&
              r.positionCount == |r.tail|
    ensures s.tailTimer + f.dt < cfg.tailUpdateInterval ==>
              r.tailTimer == s.tailTimer + f.dt && r.tail == s.tail && r.positionCount == s.positionCount
    ensures r.destroyed <==> s.destroyed || r.timeElapsed > cfg.lifeTime
  {
    var elapsed := s.timeElapsed + f.dt;
    var timer := s.tailTimer + f.dt;
    var position := SpiralPosition(cfg, s.origin, elapsed, f.cosAngle, f.sinAngle);
    var appended := timer >= cfg.tailUpdateInterval;
    var tail := if appended then Appended(s.tail, position, cfg.maxTailPoints) else s.tail;
    Projectile(s.origin, elapsed, if appended then 0.0 else timer, tail,
               if appended then |tail| else s.positionCount, position,
               s.destroyed || elapsed > cfg.lifeTime)
  }

  function Run(cfg: Config, s: Projectile, frames: seq<Frame>): Projectile
    decreases |frames|
  {
    if frames == [] then s else Run(cfg, ProjectileStep(cfg, s, frames[0]), frames[1..])
  }

  /** With room for at least one point, the trail never holds more than maxTailPoints
      over any run, and it is never empty. */
  lemma {:induction false} TailBounded(cfg: Config, s: Projectile, frames: seq<Frame>)
    requires 1 <= cfg.maxTailPoints && 1 <= |s.tail| <= cfg.maxTailPoints
    ensures 1 <= |Run(cfg, s, frames).tail| <= cfg.maxTailPoints
    decreases |frames|
  {
    if frames != [] {
      TailBounded(cfg, ProjectileStep(cfg, s, frames[0]), frames[1..]);
    }
  }

  /** The last `n` elements of `xs` (all of them when there are no more than `n`). */
  function LastN<T>(xs: seq<T>, n: nat): (r: seq<T>)
    ensures |r| == if |xs| <= n then |xs| else n
  {
    if |xs| <= n then xs else xs[|xs| - n..]
  }

  /** The position a frame records into the trail: the new position when the tail
      timer fires, nothing otherwise. */
  function RecordedBy(cfg: Config, s: Projectile, f: Frame): seq<Vec3> {
    if s.tailTimer + f.dt >= cfg.tailUpdateInterval then [ProjectileStep(cfg, s, f).position] else []
  }

  /** The positions a run records into the trail, oldest first. */
  function Recorded(cfg: Config, s: Projectile, frames: seq<Frame>): seq<Vec3>
    decreases |frames|
  {
    if frames == [] then []
    else RecordedBy(cfg, s, frames[0]) + Recorded(cfg, ProjectileStep(cfg, s, frames[0]), frames[1..])
  }

  /** One append is the last `n` points of the longer list. */
  lemma AppendedIsLastN(tail: seq<Vec3>, point: Vec3, n: nat)
    requires 1 <= n && |tail| <= n
    ensures Appended(tail, point, n) == LastN(tail + [point], n)
  {
  }

  /** Dropping a prefix that leaves at least `n` elements does not change the last `n`. */
  lemma LastNOfSuffix<T>(zs: seq<T>, j: nat, n: nat)
    requires j <= |zs| && n <= |zs| - j
    ensures LastN(zs[j..], n) == LastN(zs, n)
  {
    assert zs[j..][|zs| - j - n..] == zs[|zs| - n..];
  }

  /** Trimming before appending more points does not change the last `n`. */
  lemma LastNOfLastN<T>(xs: seq<T>, ys: seq<T>, n: nat)
    ensures LastN(LastN(xs, n) + ys, n) == LastN(xs + ys, n)
  {
    if n < |xs| {
      assert LastN(xs, n) + ys == (xs + ys)[|xs| - n..];
      LastNOfSuffix(xs + ys, |xs| - n, n);
    }
  }

  /** One frame keeps the last maxTailPoints of the trail and what the frame records. */
  lemma StepTail(cfg: Config, s: Projectile, f: Frame)
    requires 1 <= cfg.maxTailPoints && |s.tail| <= cfg.maxTailPoints
    ensures ProjectileStep(cfg, s, f).tail == LastN(s.tail + RecordedBy(cfg, s, f), cfg.maxTailPoints)
    ensures |ProjectileStep(cfg, s, f).tail| <= cfg.maxTailPoints
  {
    if s.tailTimer + f.dt >= cfg.tailUpdateInterval {
      AppendedIsLastN(s.tail, ProjectileStep(cfg, s, f).position, cfg.maxTailPoints);
    } else {
      assert s.tail + [] == s.tail;
    }
  }

  /** The trail is a FIFO of the recorded positions: after any run it holds the last
      maxTailPoints points of the old trail followed by everything recorded since. */
  lemma {:induction false} TailIsLastRecorded(cfg: Config, s: Projectile, frames: seq<Frame>)
    requires 1 <= cfg.maxTailPoints && |s.tail| <= cfg.maxTailPoints
    ensures Run(cfg, s, frames).tail == LastN(s.tail + Recorded(cfg, s, frames), cfg.maxTailPoints)
    decreases |frames|
  {
    var n := cfg.maxTailPoints;
    if frames == [] {
      assert s.tail + [] == s.tail;
    } else {
      var t := ProjectileStep(cfg, s, frames[0]);
      var now := RecordedBy(cfg, s, frames[0]);
      var rest := Recorded(cfg, t, frames[1..]);
      assert Run(cfg, s, frames) == Run(cfg, t, frames[1..]);
      assert Recorded(cfg, s, frames) == now + rest;
      StepTail(cfg, s, frames[0]);
      TailIsLastRecorded(cfg, t, frames[1..]);
      LastNOfLastN(s.tail + now, rest, n);
      ConcatAssoc(s.tail, now, rest);
    }
  }

  /** Once the lifetime has run out the projectile is destroyed, and it stays so. */
  lemma {:induction false} ExpiryIsFinal(cfg: Config, s: Projectile, frames: seq<Frame>)
    requires s.destroyed
    ensures Run(cfg, s, frames).destroyed
    decreases |frames|
  {
    if frames != [] {
      ExpiryIsFinal(cfg, ProjectileStep(cfg, s, frames[0]), frames[1..]);
    }
  }

  /** The spawner. `spawned` records every projectile it instantiated, oldest first. */
  class TPWhirlpoolSpawner {
    /** Whether tpWhirlpoolPrefab and firePoint are assigned in the scene. */
    const hasPrefab: bool
    const hasFirePoint: bool
    var currentTP: TPWhirlpoolProjectile?
    ghost var spawned: seq<TPWhirlpoolProjectile>

    ghost function SpawnedSet(): set<object>
      reads this
    {
      set i | 0 <= i < |spawned| :: spawned[i]
    }

    /** All but the newest projectile are destroyed, currentTP is the newest, and when
        currentTP was cleared every projectile is destroyed. */
    ghost predicate Valid()
      reads this, SpawnedSet()
    {
      (forall i :: 0 <= i < |spawned| - 1 ==> spawned[i].destroyed) &&
      (currentTP != null ==> |spawned| > 0 && currentTP == spawned[|spawned| - 1]) &&
      (currentTP == null ==> forall i :: 0 <= i < |spawned| ==> spawned[i].destroyed)
    }

    /** Unity's null test on the current projectile: true for null and for a destroyed object. */
    predicate NoCurrent()
      reads this, currentTP
    {
      currentTP == null || currentTP.destroyed
    }

    constructor (hasPrefab: bool, hasFirePoint: bool)
      ensures this.hasPrefab == hasPrefab && this.hasFirePoint == hasFirePoint
      ensures currentTP == null && spawned == [] && Valid()
    {
      this.hasPrefab := hasPrefab;
      this.hasFirePoint := hasFirePoint;
      currentTP := null;
      spawned := [];
    }

    /** A click spawns a projectile at `firePoint` only when there is no current one.
        Reading an unassigned fire point, or instantiating a missing prefab, throws:
        that Update ends with nothing spawned and currentTP as it was. */
    method Update(cfg: Config, clicked: bool, firePoint: Vec3) returns (spawnedNow: bool, threw: bool)
      requires Valid()
      modifies this
      ensures Valid()
      ensures threw <==> clicked && old(NoCurrent()) && !(hasPrefab && hasFirePoint)
      ensures spawnedNow <==> clicked && old(NoCurrent()) && hasPrefab && hasFirePoint
      ensures spawnedNow ==> fresh(currentTP) && currentTP.Snapshot() == AtSpawn(firePoint) &&
                             currentTP.spawner == this && spawned == old(spawned) + [currentTP]
      ensures !spawnedNow ==> currentTP == old(currentTP) && spawned == old(spawned)
    {
      spawnedNow, threw := false, false;
      if clicked && (currentTP == null || currentTP.destroyed) {
        if !hasFirePoint || !hasPrefab {
          threw := true;
          return;
        }
        var p := new TPWhirlpoolProjectile(cfg, firePoint, this);
        currentTP := p;
        spawned := spawned + [p];
        spawnedNow := true;
      }
    }

    method ClearTP()
      modifies this`currentTP
      ensures currentTP == null
    {
      currentTP := null;
    }
  }

  /** The projectile. `spawner` is what FindObjectOfType returned at Start. */
  class TPWhirlpoolProjectile {
    const cfg: Config
    const origin: Vec3
    const spawner: TPWhirlpoolSpawner?
    var timeElapsed: real
    var tailTimer: real
    var tailPoints: seq<Vec3>
    var positionCount: int
    var position: Vec3
    var destroyed: bool

    ghost function Snapshot(): Projectile
      reads this
    {
      Projectile(origin, timeElapsed, tailTimer, tailPoints, positionCount, position, destroyed)
    }

    /** Instantiate at `at`, followed by Start. */
    constructor (cfg: Config, at: Vec3, spawner: TPWhirlpoolSpawner?)
      ensures this.cfg == cfg && this.spawner == spawner && Snapshot() == AtSpawn(at)
    {
      this.cfg := cfg;
      origin := at;
      this.spawner := spawner;
      timeElapsed, tailTimer := 0.0, 0.0;
      tailPoints := [at];
      positionCount := 0;
      position := at;
      destroyed := false;
    }

    /** One frame of a live projectile. On expiry it clears the spawner (when there is
        one) and destroys itself. */
    method Update(dt: real, cosAngle: real, sinAngle: real)
      requires !destroyed
      requires spawner != null ==> spawner.Valid() && this in spawner.SpawnedSet()
      modifies this, spawner
      ensures Snapshot() == ProjectileStep(cfg, old(Snapshot()), Frame(dt, cosAngle, sinAngle))
      ensures spawner != null ==> spawner.Valid() && spawner.spawned == old(spawner.spawned)
      ensures spawner != null && destroyed ==> spawner.currentTP == null
      ensures spawner != null && !destroyed ==> spawner.currentTP == old(spawner.currentTP)
    {
      Advance(dt, cosAngle, sinAngle);
      if timeElapsed > cfg.lifeTime {
        if spawner != null {
          spawner.ClearTP();
        }
        destroyed := true;
      }
    }

    /** The timers, the spiral position and the trail of one frame. */
    method Advance(dt: real, cosAngle: real, sinAngle: real)
      modifies this`timeElapsed, this`tailTimer, this`tailPoints, this`positionCount, this`position
      ensures Snapshot() == ProjectileStep(cfg, old(Snapshot()), Frame(dt, cosAngle, sinAngle)).(destroyed := destroyed)
    {
      timeElapsed := timeElapsed + dt;
      tailTimer := tailTimer + dt;
      var radius := timeElapsed * cfg.radialSpeed;
      position := origin.Plus(Vec3(cosAngle * radius, 0.0, sinAngle * radius));
      if tailTimer >= cfg.tailUpdateInterval {
        tailTimer := 0.0;
        tailPoints := tailPoints + [position];
        if |tailPoints| > cfg.maxTailPoints {
          tailPoints := tailPoints[1..];
        }
        positionCount := |tailPoints|;
        assert tailPoints == Appended(old(tailPoints), position, cfg.maxTailPoints);
      }
      assert position == SpiralPosition(cfg, origin, timeElapsed, cosAngle, sinAngle);
    }
  }

  /** At most one projectile the spawner made is alive. */
  lemma AtMostOneAlive(sp: TPWhirlpoolSpawner, i: int, j: int)
    requires sp.Valid() && 0 <= i < |sp.spawned| && 0 <= j < |sp.spawned|
    requires !sp.spawned[i].destroyed && !sp.spawned[j].destroyed
    ensures i == j
  {
  }
}
