/** PoopProjectile (the monster's projectile): the first collision latches
    hasExploded, spawns the impact effect at the first contact when an effect is set,
    and destroys the projectile. The contact list is read without a length check, so
    with an effect set and no contact the handler throws after latching, and the
    projectile is never destroyed by this script. */
module PoopProjectiles {
  import opened Unity

  datatype Contact = Contact(point: Vec3, normal: Vec3)

  /** An impact effect spawned at `point`, facing along `normal`. */
  datatype Effect = Effect(point: Vec3, normal: Vec3)

  datatype PoopState = PoopState(hasExploded: bool, effects: seq<Effect>, destroyed: bool)

  function Loaded(): (r: PoopState)
    ensures !r.hasExploded && r.effects == [] && !r.destroyed
  {
    PoopState(false, [], false)
  }

  /** How a call of OnCollisionEnter ends. */
  datatype Outcome = Ignored | Exploded | Threw

  function CollideOutcome(hasImpactEffect: bool, s: PoopState, contacts: seq<Contact>): (r: Outcome)
    ensures r == Ignored <==> s.hasExploded
    ensures r == Threw <==> !s.hasExploded && hasImpactEffect && |contacts| == 0
  {
    if s.hasExploded then Ignored
    else if hasImpactEffect && |contacts| == 0 then Threw
    else Exploded
  }

  /** OnCollisionEnter. */
  function Collide(hasImpactEffect: bool, s: PoopState, contacts: seq<Contact>): (r: PoopState)
    ensures s.hasExploded ==> r == s
    ensures !s.hasExploded ==> r.hasExploded
    ensures r.destroyed <==> s.destroyed || CollideOutcome(hasImpactEffect, s, contacts) == Exploded
    ensures CollideOutcome(hasImpactEffect, s, contacts) == Exploded && hasImpactEffect ==>
              r.effects == s.effects + [Effect(contacts[0].point, contacts[0].normal)]
    ensures CollideOutcome(hasImpactEffect, s, contacts) != Exploded || !hasImpactEffect ==> r.effects == s.effects
  {
    match CollideOutcome(hasImpactEffect, s, contacts)
    case Ignored => s
    case Threw => s.(hasExploded := true)
    case Exploded =>
      var effects := if hasImpactEffect then s.effects + [Effect(contacts[0].point, contacts[0].normal)] else s.effects;
      PoopState(true, effects, true)
  }

  function Collisions(hasImpactEffect: bool, s: PoopState, hits: seq<seq<Contact>>): PoopState
    decreases |hits|
  {
    if hits == [] then s else Collisions(hasImpactEffect, Collide(hasImpactEffect, s, hits[0]), hits[1..])
  }

  /** Once latched, every later collision returns at once. */
  lemma {:induction false} LatchedIgnoresCollisions(hasImpactEffect: bool, s: PoopState, hits: seq<seq<Contact>>)
    requires s.hasExploded
    ensures Collisions(hasImpactEffect, s, hits) == s
    decreases |hits|
  {
    if hits != [] {
      LatchedIgnoresCollisions(hasImpactEffect, Collide(hasImpactEffect, s, hits[0]), hits[1..]);
    }
  }

  /** Only the first collision counts: the projectile is destroyed by it unless it
      threw, at most one effect is spawned, and one is spawned exactly when an effect
      is set and the first collision had a contact. */
  lemma FirstCollisionDecides(hasImpactEffect: bool, hits: seq<seq<Contact>>)
    requires hits != []
    ensures var s := Collisions(hasImpactEffect, Loaded(), hits);
            s.hasExploded &&
            (s.destroyed <==> !hasImpactEffect || |hits[0]| > 0) &&
            (hasImpactEffect && |hits[0]| > 0 ==> s.effects == [Effect(hits[0][0].point, hits[0][0].normal)]) &&
            (!hasImpactEffect || |hits[0]| == 0 ==> s.effects == [])
  {
    LatchedIgnoresCollisions(hasImpactEffect, Collide(hasImpactEffect, Loaded(), hits[0]), hits[1..]);
  }

  class PoopProjectile {
    const hasImpactEffect: bool

    var hasExploded: bool
    var effects: seq<Effect>
    var destroyed: bool

    ghost function Snapshot(): PoopState
      reads this
    {
      PoopState(hasExploded, effects, destroyed)
    }

    constructor (hasImpactEffect: bool)
      ensures this.hasImpactEffect == hasImpactEffect
      ensures Snapshot() == Loaded()
    {
      this.hasImpactEffect := hasImpactEffect;
      hasExploded, effects, destroyed := false, [], false;
    }

    /** `threw` reports the exception from reading a contact that does not exist. */
    method OnCollisionEnter(contacts: seq<Contact>) returns (threw: bool)
      modifies this
      ensures threw <==> CollideOutcome(hasImpactEffect, old(Snapshot()), contacts) == Threw
      ensures Snapshot() == Collide(hasImpactEffect, old(Snapshot()), contacts)
    {
      if hasExploded {
        return false;
      }
      hasExploded := true;
      if hasImpactEffect {
        if |contacts| == 0 {
          return true;
        }
        var contact := contacts[0];
        effects := effects + [Effect(contact.point, contact.normal)];
      }
      destroyed := true;
      return false;
    }
  }
}
