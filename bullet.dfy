/** Bullet: scheduled for destruction lifeTime after Start; the first collision (and
    only the first) spawns the impact effect at the first contact, when there is an
    effect and a contact, and schedules the bullet's destruction 0.1 s later.
    A scheduled destruction is recorded by its delay; when the engine carries it out
    is not modelled. */
module Bullets {
  import opened Unity

  /** Seconds the impact effect lives. */
  const EffectLifetime: real := 2.0
  /** Seconds between the first hit and the bullet's destruction. */
  const HitDestroyDelay: real := 0.1

  datatype Contact = Contact(point: Vec3, normal: Vec3)

  /** An impact effect spawned at `point`, facing along `normal`. */
  datatype Effect = Effect(point: Vec3, normal: Vec3, destroyAfter: real)

  /** The hasHit latch, the effects spawned and the delays of the destructions
      scheduled for the bullet itself. */
  datatype BulletState = BulletState(hasHit: bool, effects: seq<Effect>, destroyDelays: seq<real>)

  function Loaded(): (r: BulletState)
    ensures !r.hasHit && r.effects == [] && r.destroyDelays == []
  {
    BulletState(false, [], [])
  }

  /** Start: destruction after lifeTime. */
  function Started(s: BulletState, lifeTime: real): (r: BulletState)
    ensures r.hasHit == s.hasHit && r.effects == s.effects
    ensures r.destroyDelays == s.destroyDelays + [lifeTime]
  {
    s.(destroyDelays := s.destroyDelays + [lifeTime])
  }

  /** OnCollisionEnter. */
  function Collide(hasImpactEffect: bool, s: BulletState, contacts: seq<Contact>): (r: BulletState)
    ensures s.hasHit ==> r == s
    ensures !s.hasHit ==> r.hasHit && r.destroyDelays == s.destroyDelays + [HitDestroyDelay]
    ensures !s.hasHit && hasImpactEffect && |contacts| > 0 ==>
              r.effects == s.effects + [Effect(contacts[0].point, contacts[0].normal, EffectLifetime)]
    ensures !hasImpactEffect || |contacts| == 0 ==> r.effects == s.effects
  {
    if s.hasHit then s
    else
      var effects := if hasImpactEffect && |contacts| > 0
                     then s.effects + [Effect(contacts[0].point, contacts[0].normal, EffectLifetime)]
                     else s.effects;
      BulletState(true, effects, s.destroyDelays + [HitDestroyDelay])
  }

  /** A sequence of collisions, each given by its contact points. */
  function Collisions(hasImpactEffect: bool, s: BulletState, hits: seq<seq<Contact>>): BulletState
    decreases |hits|
  {
    if hits == [] then s else Collisions(hasImpactEffect, Collide(hasImpactEffect, s, hits[0]), hits[1..])
  }

  /** Once hit, every later collision returns at once. */
  lemma {:induction false} LatchedIgnoresCollisions(hasImpactEffect: bool, s: BulletState, hits: seq<seq<Contact>>)
    requires s.hasHit
    ensures Collisions(hasImpactEffect, s, hits) == s
    decreases |hits|
  {
    if hits != [] {
      LatchedIgnoresCollisions(hasImpactEffect, Collide(hasImpactEffect, s, hits[0]), hits[1..]);
    }
  }

  /** Only the first collision counts: after Start and any collisions, at most one
      effect exists, it exists exactly when the first collision had a contact and an
      effect was set, and the bullet has its lifetime destruction and, once hit, the
      0.1 s one. */
  lemma FirstCollisionDecides(hasImpactEffect: bool, lifeTime: real, hits: seq<seq<Contact>>)
    ensures var s := Collisions(hasImpactEffect, Started(Loaded(), lifeTime), hits);
            s.hasHit == (hits != []) &&
            (hits == [] ==> s.effects == [] && s.destroyDelays == [lifeTime]) &&
            (hits != [] ==> s.destroyDelays == [lifeTime, HitDestroyDelay]) &&
            (hits != [] && hasImpactEffect && |hits[0]| > 0 ==>
               s.effects == [Effect(hits[0][0].point, hits[0][0].normal, EffectLifetime)]) &&
            (hits != [] && (!hasImpactEffect || |hits[0]| == 0) ==> s.effects == [])
  {
    if hits != [] {
      var s1 := Collide(hasImpactEffect, Started(Loaded(), lifeTime), hits[0]);
      LatchedIgnoresCollisions(hasImpactEffect, s1, hits[1..]);
    }
  }

  class Bullet {
    const hasImpactEffect: bool
    const lifeTime: real

    var hasHit: bool
    var effects: seq<Effect>
    var destroyDelays: seq<real>

    ghost function Snapshot(): BulletState
      reads this
    {
      BulletState(hasHit, effects, destroyDelays)
    }

    constructor (hasImpactEffect: bool, lifeTime: real)
      ensures this.hasImpactEffect == hasImpactEffect && this.lifeTime == lifeTime
      ensures Snapshot() == Loaded()
    {
      this.hasImpactEffect := hasImpactEffect;
      this.lifeTime := lifeTime;
      hasHit, effects, destroyDelays := false, [], [];
    }

    method Start()
      modifies this
      ensures Snapshot() == Started(old(Snapshot()), lifeTime)
    {
      destroyDelays := destroyDelays + [lifeTime];
    }

    method OnCollisionEnter(contacts: seq<Contact>)
      modifies this
      ensures Snapshot() == Collide(hasImpactEffect, old(Snapshot()), contacts)
    {
      if hasHit {
        return;
      }
      hasHit := true;
      if hasImpactEffect && |contacts| > 0 {
        var contact := contacts[0];
        effects := effects + [Effect(contact.point, contact.normal, EffectLifetime)];
      }
      destroyDelays := destroyDelays + [HitDestroyDelay];
    }
  }
}
