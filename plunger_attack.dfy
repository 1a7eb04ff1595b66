/** PlungerAttack: a left click fires a plunger from one of three slots in turn
    (top, right, left). A missing slot transform or prefab spawns nothing and leaves
    the turn where it is. The slot transforms' positions and the forward axis are
    not modelled: a spawned plunger records its slot. */
module PlungerFiring {
  import opened Sequences

  /** Seconds after spawning before a plunger is destroyed. */
  const PlungerLifetime: real := 5.0

  datatype Slot = Top | Right | Left

  /** The slots in firing order, indexed by plungerIndex. */
  const Order: seq<Slot> := [Top, Right, Left]

  /** The inspector references this script reads and never changes. */
  datatype Setup = Setup(hasTop: bool, hasRight: bool, hasLeft: bool, hasPrefab: bool, prefabHasRigidbody: bool)

  /** A spawned plunger: its slot, whether its velocity was set (plungerSpeed along the
      slot's forward axis), and the delay of its scheduled destruction. */
  datatype Plunger = Plunger(slot: Slot, pushed: bool, destroyAfter: real)

  datatype PlungerState = PlungerState(index: int, launched: seq<Plunger>)

  function Initial(): (r: PlungerState)
    ensures r.index == 0 && r.launched == []
  {
    PlungerState(0, [])
  }

  /** GetCurrentPlungerTransform: the slot for an index; any index other than 0, 1, 2
      falls back to the top slot. */
  function SlotOf(index: int): (r: Slot)
    ensures 0 <= index < |Order| ==> r == Order[index]
    ensures !(0 <= index < |Order|) ==> r == Top
  {
    match index
    case 0 => Top
    case 1 => Right
    case 2 => Left
    case _ => Top
  }

  /** Whether the transform of a slot is assigned. */
  function Assigned(setup: Setup, slot: Slot): bool {
    match slot
    case Top => setup.hasTop
    case Right => setup.hasRight
    case Left => setup.hasLeft
  }

  /** Whether a click fires from the current slot. */
  predicate CanFire(setup: Setup, s: PlungerState) {
    Assigned(setup, SlotOf(s.index)) && setup.hasPrefab
  }

  /** FireNextPlunger: spawn from the current slot and move the turn on, or do nothing
      when the slot or the prefab is missing. */
  function FireStep(setup: Setup, s: PlungerState): (r: PlungerState)
    ensures !CanFire(setup, s) ==> r == s
    ensures CanFire(setup, s) ==>
              r.index == (s.index + 1) % 3 &&
              r.launched == s.launched + [Plunger(SlotOf(s.index), setup.prefabHasRigidbody, PlungerLifetime)]
    ensures 0 <= s.index < 3 ==> 0 <= r.index < 3
  {
    if !CanFire(setup, s) then s
    else PlungerState((s.index + 1) % 3,
                      s.launched + [Plunger(SlotOf(s.index), setup.prefabHasRigidbody, PlungerLifetime)])
  }

  /** One Update: only a click (GetMouseButtonDown) fires. */
  function UpdateStep(setup: Setup, s: PlungerState, mouseDown: bool): (r: PlungerState)
    ensures !mouseDown ==> r == s
    ensures 0 <= s.index < 3 ==> 0 <= r.index < 3
  {
    if mouseDown then FireStep(setup, s) else s
  }

  /** `n` clicks in a row. */
  function Fires(setup: Setup, s: PlungerState, n: nat): PlungerState
    decreases n
  {
    if n == 0 then s else Fires(setup, FireStep(setup, s), n - 1)
  }

  predicate Inv(s: PlungerState) {
    0 <= s.index < 3
  }

  lemma {:induction false} FiresKeepInv(setup: Setup, s: PlungerState, n: nat)
    requires Inv(s)
    ensures Inv(Fires(setup, s, n))
    decreases n
  {
    if n > 0 {
      FiresKeepInv(setup, FireStep(setup, s), n - 1);
    }
  }

  /** The index invariant holds from the start, so the fallback case of the slot
      switch is never taken. */
  lemma FallbackNeverTaken(setup: Setup, clicks: nat)
    ensures var i := Fires(setup, Initial(), clicks).index;
            0 <= i < |Order| && SlotOf(i) == Order[i]
  {
    FiresKeepInv(setup, Initial(), clicks);
  }

  /** Every slot and the prefab assigned. */
  predicate Complete(setup: Setup) {
    setup.hasTop && setup.hasRight && setup.hasLeft && setup.hasPrefab
  }

  /** The plungers that `n` successful fires spawn, starting from slot index `i`. */
  function Expected(setup: Setup, i: int, n: nat): (r: seq<Plunger>)
    ensures |r| == n
    decreases n
  {
    if n == 0 then []
    else [Plunger(SlotOf(i), setup.prefabHasRigidbody, PlungerLifetime)] + Expected(setup, (i + 1) % 3, n - 1)
  }

  /** The expected plungers go round the slots in the order top, right, left, and each
      is scheduled for destruction PlungerLifetime after spawning. */
  lemma {:induction false} ExpectedCycles(setup: Setup, i: int, n: nat, k: nat)
    requires 0 <= i < 3 && k < n
    ensures Expected(setup, i, n)[k] == Plunger(Order[(i + k) % 3], setup.prefabHasRigidbody, PlungerLifetime)
    decreases n
  {
    if k > 0 {
      ExpectedCycles(setup, (i + 1) % 3, n - 1, k - 1);
      assert ((i + 1) % 3 + (k - 1)) % 3 == (i + k) % 3;
    }
  }

  lemma ModStep(i: int, n: nat)
    requires n > 0
    ensures ((i + 1) % 3 + (n - 1)) % 3 == (i + n) % 3
  {
  }

  /** With everything assigned, `n` clicks spawn the expected plungers and move the turn
      on by `n` slots. */
  lemma {:induction false} RoundRobin(setup: Setup, s: PlungerState, n: nat)
    requires Complete(setup) && Inv(s)
    ensures Fires(setup, s, n).launched == s.launched + Expected(setup, s.index, n)
    ensures Fires(setup, s, n).index == (s.index + n) % 3
    decreases n
  {
    if n == 0 {
      assert s.launched + [] == s.launched;
    } else {
      var t := FireStep(setup, s);
      var p := Plunger(SlotOf(s.index), setup.prefabHasRigidbody, PlungerLifetime);
      assert t == PlungerState((s.index + 1) % 3, s.launched + [p]);
      assert Fires(setup, s, n) == Fires(setup, t, n - 1);
      RoundRobin(setup, t, n - 1);
      assert Expected(setup, s.index, n) == [p] + Expected(setup, t.index, n - 1);
      ConcatAssoc(s.launched, [p], Expected(setup, t.index, n - 1));
      ModStep(s.index, n);
    }
  }

  /** Three successful fires in a row bring the turn back to where it was. */
  lemma ThreeFiresRestore(setup: Setup, s: PlungerState)
    requires Complete(setup) && Inv(s)
    ensures Fires(setup, s, 3).index == s.index
  {
    RoundRobin(setup, s, 3);
  }

  /** A missing slot stalls the rotation: however often the player clicks, nothing is
      spawned and the same slot is tried again. */
  lemma {:induction false} MissingSlotStalls(setup: Setup, s: PlungerState, n: nat)
    requires !CanFire(setup, s)
    ensures Fires(setup, s, n) == s
    decreases n
  {
    if n > 0 {
      MissingSlotStalls(setup, FireStep(setup, s), n - 1);
    }
  }

  class PlungerAttack {
    const setup: Setup

    var plungerIndex: int
    var launched: seq<Plunger>

    ghost function Snapshot(): PlungerState
      reads this
    {
      PlungerState(plungerIndex, launched)
    }

    constructor (setup: Setup)
      ensures this.setup == setup
      ensures Snapshot() == Initial()
    {
      this.setup := setup;
      plungerIndex, launched := 0, [];
    }

    method Update(mouseDown: bool)
      modifies this
      ensures Snapshot() == UpdateStep(setup, old(Snapshot()), mouseDown)
    {
      if mouseDown {
        FireNextPlunger();
      }
    }

    method FireNextPlunger()
      modifies this
      ensures Snapshot() == FireStep(setup, old(Snapshot()))
    {
      var slot := SlotOf(plungerIndex);
      if !Assigned(setup, slot) || !setup.hasPrefab {
        return;
      }
      launched := launched + [Plunger(slot, setup.prefabHasRigidbody, PlungerLifetime)];
      plungerIndex := (plungerIndex + 1) % 3;
    }
  }
}
