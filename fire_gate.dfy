/** The time-based fire gate shared by the gun scripts: a button that is held fires
    once `Time.time` has reached the next allowed time, and the next allowed time
    then moves one cooldown past the moment of firing. */
module FireGate {

  /** The gate condition: the button is held and the time has come. */
  predicate Ready(held: bool, time: real, next: real) {
    held && time >= next
  }

  /** The time of each entry of `xs`, in order. */
  function Times<T>(xs: seq<T>, at: T -> real): (r: seq<real>)
    ensures |r| == |xs|
    ensures forall i :: 0 <= i < |r| ==> r[i] == at(xs[i])
  {
    if xs == [] then [] else Times(xs[..|xs| - 1], at) + [at(xs[|xs| - 1])]
  }

  lemma TimesAppend<T>(xs: seq<T>, x: T, at: T -> real)
    ensures Times(xs + [x], at) == Times(xs, at) + [at(x)]
  {
    assert (xs + [x])[..|xs|] == xs;
  }

  /** Consecutive entries of `times` are at least `gap` apart. */
  predicate Spaced(times: seq<real>, gap: real) {
    forall i :: 0 <= i < |times| - 1 ==> times[i] + gap <= times[i + 1]
  }

  /** Firing at `t` no earlier than one gap after the latest entry keeps the times spaced. */
  lemma SpacedAppend(times: seq<real>, t: real, gap: real)
    requires Spaced(times, gap)
    requires |times| > 0 ==> times[|times| - 1] + gap <= t
    ensures Spaced(times + [t], gap)
  {
    var u := times + [t];
    forall i | 0 <= i < |u| - 1
      ensures u[i] + gap <= u[i + 1]
    {
      if i + 1 < |times| {
        assert u[i] == times[i] && u[i + 1] == times[i + 1];
      }
    }
  }

  /** Spacing adds up: entries `j - i` places apart are at least `(j - i) * gap` apart. */
  lemma {:induction false} SpacedSpread(times: seq<real>, gap: real, i: nat, j: nat)
    requires Spaced(times, gap)
    requires i <= j < |times|
    ensures times[i] + ((j - i) as real) * gap <= times[j]
    decreases j - i
  {
    if i < j {
      SpacedSpread(times, gap, i, j - 1);
      assert times[j - 1] + gap <= times[j];
      assert ((j - i) as real) * gap == ((j - 1 - i) as real) * gap + gap;
    }
  }
}
