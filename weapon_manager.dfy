/** WeaponManager: keys 1 and 2 toggle the water gun and the plunger. Selecting a
    weapon deactivates both and then activates the chosen one; selecting the active
    weapon again leaves nothing selected. The two weapon objects' active flags are
    part of the state; both references are taken to be assigned. */
module Weapons {

  /** activeWeapon: 0 none, 1 water gun, 2 plunger. */
  const NoWeapon: int := 0
  const WaterGunId: int := 1
  const PlungerId: int := 2

  datatype WeaponState = WeaponState(activeWeapon: int, waterGunActive: bool, plungerActive: bool)

  /** Before Start: activeWeapon from its initialiser, the weapons as the scene left them. */
  function Loaded(waterGunActive: bool, plungerActive: bool): (r: WeaponState)
    ensures r.activeWeapon == NoWeapon
  {
    WeaponState(NoWeapon, waterGunActive, plungerActive)
  }

  /** DeactivateAllWeapons. */
  function Deactivated(s: WeaponState): (r: WeaponState)
    ensures !r.waterGunActive && !r.plungerActive && r.activeWeapon == s.activeWeapon
  {
    s.(waterGunActive := false, plungerActive := false)
  }

  /** Start: nothing active. */
  function Started(s: WeaponState): (r: WeaponState)
    ensures !r.waterGunActive && !r.plungerActive && r.activeWeapon == s.activeWeapon
  {
    Deactivated(s)
  }

  /** ActivateWeapon: only the chosen weapon is active afterwards, and it is recorded as
      the active one; an id other than 1 or 2 activates nothing. */
  function Activated(s: WeaponState, id: int): (r: WeaponState)
    ensures r.activeWeapon == id
    ensures r.waterGunActive <==> id == WaterGunId
    ensures r.plungerActive <==> id == PlungerId
  {
    var off := Deactivated(s);
    var on := if id == WaterGunId then off.(waterGunActive := true)
              else if id == PlungerId then off.(plungerActive := true)
              else off;
    on.(activeWeapon := id)
  }

  /** ToggleWeapon. */
  function Toggled(s: WeaponState, id: int): (r: WeaponState)
    ensures s.activeWeapon == id ==> r == WeaponState(NoWeapon, false, false)
    ensures s.activeWeapon != id ==> r == Activated(s, id)
  {
    if s.activeWeapon == id then Deactivated(s).(activeWeapon := NoWeapon)
    else Activated(s, id)
  }

  /** Update: key 1 is checked first, so it wins when both keys go down in one frame. */
  function UpdateStep(s: WeaponState, key1Down: bool, key2Down: bool): (r: WeaponState)
    ensures key1Down ==> r == Toggled(s, WaterGunId)
    ensures !key1Down && key2Down ==> r == Toggled(s, PlungerId)
    ensures !key1Down && !key2Down ==> r == s
  {
    if key1Down then Toggled(s, WaterGunId)
    else if key2Down then Toggled(s, PlungerId)
    else s
  }

  /** activeWeapon names at most one weapon, and exactly that one is active. */
  predicate Inv(s: WeaponState) {
    s.activeWeapon in {NoWeapon, WaterGunId, PlungerId} &&
    (s.waterGunActive <==> s.activeWeapon == WaterGunId) &&
    (s.plungerActive <==> s.activeWeapon == PlungerId)
  }

  /** After Start both weapons are off and none is selected, whatever the scene held. */
  lemma StartEstablishesInv(waterGunActive: bool, plungerActive: bool)
    ensures Started(Loaded(waterGunActive, plungerActive)) == WeaponState(NoWeapon, false, false)
    ensures Inv(Started(Loaded(waterGunActive, plungerActive)))
  {
  }

  lemma InvMeansAtMostOne(s: WeaponState)
    requires Inv(s)
    ensures !(s.waterGunActive && s.plungerActive)
  {
  }

  /** Toggling the active weapon leaves none selected. */
  lemma ToggleActiveDeselects(s: WeaponState, id: int)
    requires s.activeWeapon == id
    ensures Toggled(s, id) == WeaponState(NoWeapon, false, false) && Inv(Toggled(s, id))
  {
  }

  /** Toggling another weapon selects exactly that one, from any state. */
  lemma ToggleOtherSelects(s: WeaponState, id: int)
    requires id == WaterGunId || id == PlungerId
    requires s.activeWeapon != id
    ensures Toggled(s, id).activeWeapon == id && Inv(Toggled(s, id))
  {
  }

  /** From none selected, the same key twice returns to none selected. */
  lemma ToggleTwiceFromNone(s: WeaponState, id: int)
    requires Inv(s) && s.activeWeapon == NoWeapon
    requires id == WaterGunId || id == PlungerId
    ensures Toggled(Toggled(s, id), id) == s
  {
  }

  lemma UpdateKeepsInv(s: WeaponState, key1Down: bool, key2Down: bool)
    requires Inv(s)
    ensures Inv(UpdateStep(s, key1Down, key2Down))
  {
    if key1Down {
      if s.activeWeapon == WaterGunId {
        ToggleActiveDeselects(s, WaterGunId);
      } else {
        ToggleOtherSelects(s, WaterGunId);
      }
    } else if key2Down {
      if s.activeWeapon == PlungerId {
        ToggleActiveDeselects(s, PlungerId);
      } else {
        ToggleOtherSelects(s, PlungerId);
      }
    }
  }

  datatype Keys = Keys(key1Down: bool, key2Down: bool)

  function Run(s: WeaponState, frames: seq<Keys>): WeaponState
    decreases |frames|
  {
    if frames == [] then s else Run(UpdateStep(s, frames[0].key1Down, frames[0].key2Down), frames[1..])
  }

  /** Over any run after Start, at most one weapon is active and it is the selected one. */
  lemma {:induction false} RunKeepsInv(s: WeaponState, frames: seq<Keys>)
    requires Inv(s)
    ensures Inv(Run(s, frames))
    decreases |frames|
  {
    if frames != [] {
      UpdateKeepsInv(s, frames[0].key1Down, frames[0].key2Down);
      RunKeepsInv(UpdateStep(s, frames[0].key1Down, frames[0].key2Down), frames[1..]);
    }
  }

  class WeaponManager {
    var activeWeapon: int
    var waterGunActive: bool
    var plungerActive: bool

    ghost function Snapshot(): WeaponState
      reads this
    {
      WeaponState(activeWeapon, waterGunActive, plungerActive)
    }

    constructor (waterGunActive: bool, plungerActive: bool)
      ensures Snapshot() == Loaded(waterGunActive, plungerActive)
    {
      activeWeapon := NoWeapon;
      this.waterGunActive := waterGunActive;
      this.plungerActive := plungerActive;
    }

    method Start()
      modifies this
      ensures Snapshot() == Started(old(Snapshot()))
    {
      DeactivateAllWeapons();
    }

    method Update(key1Down: bool, key2Down: bool)
      modifies this
      ensures Snapshot() == UpdateStep(old(Snapshot()), key1Down, key2Down)
    {
      if key1Down {
        ToggleWeapon(WaterGunId);
      } else if key2Down {
        ToggleWeapon(PlungerId);
      }
    }

    method ToggleWeapon(weaponId: int)
      modifies this
      ensures Snapshot() == Toggled(old(Snapshot()), weaponId)
    {
      if activeWeapon == weaponId {
        DeactivateAllWeapons();
        activeWeapon := NoWeapon;
      } else {
        ActivateWeapon(weaponId);
      }
    }

    method ActivateWeapon(weaponId: int)
      modifies this
      ensures Snapshot() == Activated(old(Snapshot()), weaponId)
    {
      DeactivateAllWeapons();
      if weaponId == WaterGunId {
        waterGunActive := true;
      } else if weaponId == PlungerId {
        plungerActive := true;
      }
      activeWeapon := weaponId;
    }

    method DeactivateAllWeapons()
      modifies this
      ensures Snapshot() == Deactivated(old(Snapshot()))
    {
      waterGunActive := false;
      plungerActive := false;
    }
  }
}
