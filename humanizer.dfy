/**
 * StrummingHumanizer: staggers the onsets of a chord's notes to imitate a
 * strum, and perturbs their velocities. The random draws the source takes
 * from numpy's global generator are parameters here.
 */
module Humanizer {
  import opened Notes
  import opened Sorting

  /** The range of `np.random.uniform(0.002, 0.007)`, the per-note jitter of a humanized strum. */
  const JitterLow: real := 0.002
  const JitterHigh: real := 0.007

  predicate JitterDraws(jitter: seq<real>)
  {
    forall j :: 0 <= j < |jitter| ==> JitterLow <= jitter[j] <= JitterHigh
  }

  function PitchKey(n: StrumNote): real
  {
    n.pitch as real
  }

  /** `sorted(notes, key=lambda x: x[0])`. */
  function ByPitch(notes: seq<StrumNote>): seq<StrumNote>
  {
    SortBy(notes, PitchKey)
  }

  /** Sorting by pitch permutes the notes into ascending pitch order. */
  lemma ByPitchOrdered(notes: seq<StrumNote>)
    ensures var order := ByPitch(notes);
      |order| == |notes| && multiset(order) == multiset(notes) &&
      forall i, j :: 0 <= i < j < |order| ==> order[i].pitch <= order[j].pitch
  {
    var order := ByPitch(notes);
    SortByCorrect(notes, PitchKey);
    forall i, j | 0 <= i < j < |order| ensures order[i].pitch <= order[j].pitch {
      assert PitchKey(order[i]) <= PitchKey(order[j]);
    }
  }

  /** Reversed, the pitch-sorted notes are the same notes in descending pitch order. */
  lemma ByPitchReversed(notes: seq<StrumNote>)
    ensures var order := Reverse(ByPitch(notes));
      |order| == |notes| && multiset(order) == multiset(notes) &&
      forall i, j :: 0 <= i < j < |order| ==> order[i].pitch >= order[j].pitch
  {
    ByPitchOrdered(notes);
    ReverseDescending(ByPitch(notes));
  }

  lemma ReverseDescending(sorted: seq<StrumNote>)
    requires forall i, j :: 0 <= i < j < |sorted| ==> sorted[i].pitch <= sorted[j].pitch
    ensures var order := Reverse(sorted);
      multiset(order) == multiset(sorted) &&
      forall i, j :: 0 <= i < j < |order| ==> order[i].pitch >= order[j].pitch
  {
    ReversePermutes(sorted);
    var order := Reverse(sorted);
    forall i, j | 0 <= i < j < |order| ensures order[i].pitch >= order[j].pitch {
      assert order[i] == sorted[|sorted| - 1 - i] && order[j] == sorted[|sorted| - 1 - j];
    }
  }

  /** The fixed part of the i-th note's delay: 8 ms steps when humanized, 10 ms steps otherwise. */
  function StepDelay(i: nat, humanize: bool): real
  {
    if humanize then i as real * 0.008 else i as real * 0.01
  }

  /** The delay window the i-th note of a down or up strum falls in. */
  predicate DelayInWindow(delay: real, i: nat, humanize: bool)
  {
    if humanize then i as real * 0.008 + JitterLow <= delay <= i as real * 0.008 + JitterHigh
    else delay == i as real * 0.01
  }

  /** A down or up strum over `order`: the i-th note is delayed by its step,
      plus its jitter draw when humanized. */
  function Sweep(order: seq<StrumNote>, humanize: bool, jitter: seq<real>): (r: seq<StrumNote>)
    requires |jitter| == |order|
    ensures |r| == |order|
  {
    seq(|order|, i requires 0 <= i < |order| =>
      order[i].(start := order[i].start + (StepDelay(i, humanize) + if humanize then jitter[i] else 0.0)))
  }

  /** One half of a down-up strum: every note lasts `half`, shifted by `shift`, no jitter. */
  function HalfSweep(order: seq<StrumNote>, shift: real, half: real, humanize: bool): (r: seq<StrumNote>)
    ensures |r| == |order|
  {
    seq(|order|, i requires 0 <= i < |order| =>
      StrumNote(order[i].pitch, order[i].start + shift + StepDelay(i, humanize), half))
  }

  /** What `apply_strumming_pattern` returns. */
  function Strummed(notes: seq<StrumNote>, pattern: string, humanize: bool, jitter: seq<real>): (r: seq<StrumNote>)
    requires |jitter| == |notes|
  {
    if notes == [] then notes
    else
      var sorted := ByPitch(notes);
      if pattern == "down" then Sweep(sorted, humanize, jitter)
      else if pattern == "up" then Sweep(Reverse(sorted), humanize, jitter)
      else if pattern == "down-up" then
        var half := sorted[0].duration / 2.0;
        HalfSweep(sorted, 0.0, half, humanize) + HalfSweep(Reverse(sorted), half, half, humanize)
      else notes
  }

  /** The loop over `enumerate(order)` of a down or up strum. */
  method SweepLoop(order: seq<StrumNote>, humanize: bool, jitter: seq<real>) returns (result: seq<StrumNote>)
    requires |jitter| == |order|
    ensures result == Sweep(order, humanize, jitter)
  {
    result := [];
    for i := 0 to |order|
      invariant result == Sweep(order, humanize, jitter)[..i]
    {
      var delay := if humanize then i as real * 0.008 + jitter[i] else i as real * 0.01;
      result := result + [StrumNote(order[i].pitch, order[i].start + delay, order[i].duration)];
    }
  }

  /** The loop over `enumerate(order)` of one half of a down-up strum. */
  method HalfSweepLoop(order: seq<StrumNote>, shift: real, half: real, humanize: bool) returns (result: seq<StrumNote>)
    ensures result == HalfSweep(order, shift, half, humanize)
  {
    result := [];
    for i := 0 to |order|
      invariant result == HalfSweep(order, shift, half, humanize)[..i]
    {
      var delay := if humanize then i as real * 0.008 else i as real * 0.01;
      result := result + [StrumNote(order[i].pitch, order[i].start + shift + delay, half)];
    }
  }

  /** `apply_strumming_pattern`; `jitter` holds the draw for each note of a
      humanized down or up strum, in strum order. */
  method ApplyStrummingPattern(notes: seq<StrumNote>, pattern: string, humanize: bool, jitter: seq<real>)
    returns (result: seq<StrumNote>)
    requires |jitter| == |notes|
    ensures result == Strummed(notes, pattern, humanize, jitter)
    ensures |result| == if notes != [] && pattern == "down-up" then 2 * |notes| else |notes|
    ensures notes == [] || pattern !in {"down", "up", "down-up"} ==> result == notes
  {
    if notes == [] {
      return notes;
    }
    var sorted := ByPitch(notes);
    if pattern == "down" {
      result := SweepLoop(sorted, humanize, jitter);
    } else if pattern == "up" {
      result := SweepLoop(Reverse(sorted), humanize, jitter);
    } else if pattern == "down-up" {
      var half := sorted[0].duration / 2.0;
      var down := HalfSweepLoop(sorted, 0.0, half, humanize);
      var up := HalfSweepLoop(Reverse(sorted), half, half, humanize);
      result := down + up;
    } else {
      result := notes;
    }
  }

  /** A sweep keeps each note's pitch and duration and delays its onset by an
      amount inside the i-th window. */
  lemma SweepShape(order: seq<StrumNote>, humanize: bool, jitter: seq<real>)
    requires |jitter| == |order| && JitterDraws(jitter)
    ensures forall i :: 0 <= i < |order| ==>
      var n := Sweep(order, humanize, jitter)[i];
      n.pitch == order[i].pitch && n.duration == order[i].duration &&
      DelayInWindow(n.start - order[i].start, i, humanize)
  {
  }

  /** A down strum is a permutation of the input ordered by ascending pitch,
      each note keeping its duration and delayed by an amount in its window. */
  lemma DownStrum(notes: seq<StrumNote>, humanize: bool, jitter: seq<real>)
    requires notes != [] && |jitter| == |notes| && JitterDraws(jitter)
    ensures var order := ByPitch(notes);
      var r := Strummed(notes, "down", humanize, jitter);
      multiset(order) == multiset(notes) && |r| == |notes| &&
      (forall i, j :: 0 <= i < j < |r| ==> r[i].pitch <= r[j].pitch) &&
      forall i :: 0 <= i < |r| ==>
        r[i].pitch == order[i].pitch && r[i].duration == order[i].duration &&
        DelayInWindow(r[i].start - order[i].start, i, humanize)
  {
    ByPitchOrdered(notes);
    SweepShape(ByPitch(notes), humanize, jitter);
  }

  /** An up strum is the same permutation in descending pitch order. */
  lemma UpStrum(notes: seq<StrumNote>, humanize: bool, jitter: seq<real>)
    requires notes != [] && |jitter| == |notes| && JitterDraws(jitter)
    ensures var order := Reverse(ByPitch(notes));
      var r := Strummed(notes, "up", humanize, jitter);
      multiset(order) == multiset(notes) && |r| == |notes| &&
      (forall i, j :: 0 <= i < j < |r| ==> r[i].pitch >= r[j].pitch) &&
      forall i :: 0 <= i < |r| ==>
        r[i].pitch == order[i].pitch && r[i].duration == order[i].duration &&
        DelayInWindow(r[i].start - order[i].start, i, humanize)
  {
    ByPitchReversed(notes);
    SweepShape(Reverse(ByPitch(notes)), humanize, jitter);
  }

  lemma {:induction false} ReversePermutes<T>(s: seq<T>)
    ensures multiset(Reverse(s)) == multiset(s)
  {
    if s != [] {
      ReversePermutes(s[1..]);
      assert s == [s[0]] + s[1..];
    }
  }

  /** When the chord's notes share one onset, a down or up strum sounds them
      one after another: onsets strictly increase along the strum and stay
      within (n - 1) steps plus the largest jitter of that onset. */
  lemma StrumOnsetsIncrease(notes: seq<StrumNote>, pattern: string, humanize: bool, jitter: seq<real>, t: real)
    requires pattern == "down" || pattern == "up"
    requires |jitter| == |notes| && JitterDraws(jitter)
    requires forall k :: 0 <= k < |notes| ==> notes[k].start == t
    ensures var r := Strummed(notes, pattern, humanize, jitter);
      (forall i, j :: 0 <= i < j < |r| ==> r[i].start < r[j].start) &&
      forall i :: 0 <= i < |r| ==> t <= r[i].start <= t + (|r| - 1) as real * 0.01 + JitterHigh
  {
    if notes != [] {
      var sorted := ByPitch(notes);
      ByPitchOrdered(notes);
      forall k | 0 <= k < |sorted| ensures sorted[k].start == t {
        assert sorted[k] in multiset(notes);
      }
      if pattern == "down" {
        SweepOnsets(sorted, humanize, jitter, t);
      } else {
        SweepOnsets(Reverse(sorted), humanize, jitter, t);
      }
    }
  }

  /** A sweep over notes sharing the onset `t` sounds them one after another
      within (n - 1) steps plus the largest jitter of `t`. */
  lemma SweepOnsets(order: seq<StrumNote>, humanize: bool, jitter: seq<real>, t: real)
    requires |jitter| == |order| && JitterDraws(jitter)
    requires forall k :: 0 <= k < |order| ==> order[k].start == t
    ensures var r := Sweep(order, humanize, jitter);
      (forall i, j :: 0 <= i < j < |r| ==> r[i].start < r[j].start) &&
      forall i :: 0 <= i < |r| ==> t <= r[i].start <= t + (|r| - 1) as real * 0.01 + JitterHigh
  {
    SweepShape(order, humanize, jitter);
  }

  /** The first element of a sequence sorted by pitch has the lowest pitch of the input. */
  lemma ByPitchFirstIsLowest(notes: seq<StrumNote>)
    requires notes != []
    ensures forall k :: 0 <= k < |notes| ==> ByPitch(notes)[0].pitch <= notes[k].pitch
  {
    var order := ByPitch(notes);
    ByPitchOrdered(notes);
    forall k | 0 <= k < |notes| ensures order[0].pitch <= notes[k].pitch {
      assert notes[k] in multiset(order);
      var j :| 0 <= j < |order| && order[j] == notes[k];
    }
  }

  /** A down-up strum plays the chord twice, up the pitches then down again,
      uses no jitter, gives every note half the lowest note's duration, and
      starts the second strum that half-duration later. */
  lemma DownUpStrum(notes: seq<StrumNote>, humanize: bool, jitter: seq<real>, other: seq<real>)
    requires notes != [] && |jitter| == |notes| && |other| == |notes|
    ensures var r := Strummed(notes, "down-up", humanize, jitter);
      var order := ByPitch(notes);
      var half := order[0].duration / 2.0;
      var n := |notes|;
      |r| == 2 * n &&
      r == Strummed(notes, "down-up", humanize, other) &&
      (forall k :: 0 <= k < n ==> order[0].pitch <= notes[k].pitch) &&
      (forall k :: 0 <= k < 2 * n ==> r[k].duration == half) &&
      (forall i :: 0 <= i < n ==>
        r[i].pitch == order[i].pitch && r[i].start == order[i].start + StepDelay(i, humanize)) &&
      (forall i :: n <= i < 2 * n ==>
        r[i].pitch == order[2 * n - 1 - i].pitch &&
        r[i].start == order[2 * n - 1 - i].start + half + StepDelay(i - n, humanize))
  {
    ByPitchFirstIsLowest(notes);
    DownUpHalves(notes, humanize, jitter);
    DownUpHalves(notes, humanize, other);
    DownUpShape(ByPitch(notes), humanize);
  }

  lemma DownUpHalves(notes: seq<StrumNote>, humanize: bool, jitter: seq<real>)
    requires notes != [] && |jitter| == |notes|
    ensures var order := ByPitch(notes);
      var half := order[0].duration / 2.0;
      Strummed(notes, "down-up", humanize, jitter) ==
        HalfSweep(order, 0.0, half, humanize) + HalfSweep(Reverse(order), half, half, humanize)
  {
  }

  /** The two halves of a down-up strum over `order`, laid end to end. */
  lemma DownUpShape(order: seq<StrumNote>, humanize: bool)
    requires order != []
    ensures var half := order[0].duration / 2.0;
      var r := HalfSweep(order, 0.0, half, humanize) + HalfSweep(Reverse(order), half, half, humanize);
      var n := |order|;
      |r| == 2 * n &&
      (forall k :: 0 <= k < 2 * n ==> r[k].duration == half) &&
      (forall i :: 0 <= i < n ==>
        r[i].pitch == order[i].pitch && r[i].start == order[i].start + StepDelay(i, humanize)) &&
      (forall i :: n <= i < 2 * n ==>
        r[i].pitch == order[2 * n - 1 - i].pitch &&
        r[i].start == order[2 * n - 1 - i].start + half + StepDelay(i - n, humanize))
  {
  }

  /** The pitches of a chord, in its order. */
  function StrumPitches(notes: seq<StrumNote>): seq<int>
  {
    seq(|notes|, j requires 0 <= j < |notes| => notes[j].pitch)
  }

  /** Every note of `r` plays a pitch of `notes`. */
  predicate PitchesFrom(r: seq<StrumNote>, notes: seq<StrumNote>)
  {
    forall i :: 0 <= i < |r| ==> r[i].pitch in StrumPitches(notes)
  }

  /** Every note of the pitch-sorted chord is a note of the chord. */
  lemma ByPitchElement(notes: seq<StrumNote>, k: int)
    requires 0 <= k < |notes|
    ensures ByPitch(notes)[k] in notes
  {
    ByPitchOrdered(notes);
    assert ByPitch(notes)[k] in multiset(notes);
  }

  lemma ByPitchFromInput(notes: seq<StrumNote>, k: int)
    requires 0 <= k < |notes|
    ensures ByPitch(notes)[k].pitch in StrumPitches(notes)
  {
    ByPitchElement(notes, k);
    var j :| 0 <= j < |notes| && notes[j] == ByPitch(notes)[k];
    assert StrumPitches(notes)[j] == notes[j].pitch;
  }

  /** Whatever the pattern, every strummed note plays a pitch of the chord. */
  lemma StrummedPitchesFromInput(notes: seq<StrumNote>, pattern: string, humanize: bool, jitter: seq<real>)
    requires |jitter| == |notes|
    ensures PitchesFrom(Strummed(notes, pattern, humanize, jitter), notes)
  {
    if notes == [] {
    } else if pattern in {"down", "up", "down-up"} {
      var sorted := ByPitch(notes);
      SortedPitchesFrom(notes);
      ReversePitchesFrom(sorted, notes);
      if pattern == "down" {
        SweepPitchesFrom(sorted, humanize, jitter, notes);
      } else if pattern == "up" {
        SweepPitchesFrom(Reverse(sorted), humanize, jitter, notes);
      } else {
        var half := sorted[0].duration / 2.0;
        HalfSweepPitchesFrom(sorted, 0.0, half, humanize, notes);
        HalfSweepPitchesFrom(Reverse(sorted), half, half, humanize, notes);
        ConcatPitchesFrom(HalfSweep(sorted, 0.0, half, humanize), HalfSweep(Reverse(sorted), half, half, humanize), notes);
      }
    } else {
      forall i | 0 <= i < |notes| ensures notes[i].pitch in StrumPitches(notes) {
        assert StrumPitches(notes)[i] == notes[i].pitch;
      }
    }
  }

  lemma SortedPitchesFrom(notes: seq<StrumNote>)
    ensures PitchesFrom(ByPitch(notes), notes)
  {
    ByPitchOrdered(notes);
    forall k | 0 <= k < |ByPitch(notes)| ensures ByPitch(notes)[k].pitch in StrumPitches(notes) {
      ByPitchFromInput(notes, k);
    }
  }

  lemma ReversePitchesFrom(s: seq<StrumNote>, notes: seq<StrumNote>)
    requires PitchesFrom(s, notes)
    ensures PitchesFrom(Reverse(s), notes)
  {
    forall i | 0 <= i < |s| ensures Reverse(s)[i].pitch in StrumPitches(notes) {
      assert Reverse(s)[i] == s[|s| - 1 - i];
    }
  }

  lemma SweepPitchesFrom(order: seq<StrumNote>, humanize: bool, jitter: seq<real>, notes: seq<StrumNote>)
    requires |jitter| == |order| && PitchesFrom(order, notes)
    ensures PitchesFrom(Sweep(order, humanize, jitter), notes)
  {
    forall i | 0 <= i < |order| ensures Sweep(order, humanize, jitter)[i].pitch in StrumPitches(notes) {
      assert Sweep(order, humanize, jitter)[i].pitch == order[i].pitch;
    }
  }

  lemma HalfSweepPitchesFrom(order: seq<StrumNote>, shift: real, half: real, humanize: bool, notes: seq<StrumNote>)
    requires PitchesFrom(order, notes)
    ensures PitchesFrom(HalfSweep(order, shift, half, humanize), notes)
  {
    forall i | 0 <= i < |order| ensures HalfSweep(order, shift, half, humanize)[i].pitch in StrumPitches(notes) {
      assert HalfSweep(order, shift, half, humanize)[i].pitch == order[i].pitch;
    }
  }

  lemma ConcatPitchesFrom(a: seq<StrumNote>, b: seq<StrumNote>, notes: seq<StrumNote>)
    requires PitchesFrom(a, notes) && PitchesFrom(b, notes)
    ensures PitchesFrom(a + b, notes)
  {
    forall i | 0 <= i < |a + b| ensures (a + b)[i].pitch in StrumPitches(notes) {
      if i >= |a| {
        assert (a + b)[i] == b[i - |a|];
      }
    }
  }

  // ---------------------------------------------------------------------------
  // Velocity variation
  // ---------------------------------------------------------------------------

  /** Python's `int()` of a float: truncation toward zero. */
  function Trunc(x: real): (n: int)
    ensures 0.0 <= x ==> 0 <= n && n as real <= x < n as real + 1.0
    ensures x < 0.0 ==> n <= 0 && n as real - 1.0 < x <= n as real
  {
    if x >= 0.0 then x.Floor else -((-x).Floor)
  }

  /** `max(40, min(127, v))`. */
  function ClampVelocity(v: int): int
  {
    if 127 < v then 127 else if v < 40 then 40 else v
  }

  /** The new velocity for draw `u` of `np.random.uniform(-1, 1)`. */
  function VariedVelocity(velocity: int, variation: real, u: real): (v: int)
    ensures 40 <= v <= 127
  {
    ClampVelocity(velocity + VariationAmount(velocity, variation, u))
  }

  /** `int(velocity * variation * u)`. */
  function VariationAmount(velocity: int, variation: real, u: real): int
  {
    Trunc(velocity as real * variation * u)
  }

  /** `add_velocity_variation`; `draws` holds one uniform draw per note. */
  function WithVariation(notes: seq<GuitarNote>, variation: real, draws: seq<real>): (r: seq<GuitarNote>)
    requires |draws| == |notes|
    ensures |r| == |notes|
  {
    seq(|notes|, i requires 0 <= i < |notes| =>
      notes[i].(velocity := VariedVelocity(notes[i].velocity, variation, draws[i])))
  }

  method AddVelocityVariation(notes: seq<GuitarNote>, variation: real, draws: seq<real>)
    returns (result: seq<GuitarNote>)
    requires |draws| == |notes|
    ensures result == WithVariation(notes, variation, draws)
    ensures forall i :: 0 <= i < |notes| ==>
      result[i] == notes[i].(velocity := VariedVelocity(notes[i].velocity, variation, draws[i]))
    ensures forall i :: 0 <= i < |result| ==> 40 <= result[i].velocity <= 127
  {
    result := [];
    for i := 0 to |notes|
      invariant result == WithVariation(notes, variation, draws)[..i]
    {
      var n := notes[i];
      var amount := VariationAmount(n.velocity, variation, draws[i]);
      var velocity := ClampVelocity(n.velocity + amount);
      assert WithVariation(notes, variation, draws)[..i + 1] ==
        WithVariation(notes, variation, draws)[..i] + [GuitarNote(n.pitch, n.start, n.duration, velocity)];
      result := result + [GuitarNote(n.pitch, n.start, n.duration, velocity)];
    }
    assert WithVariation(notes, variation, draws)[..|notes|] == WithVariation(notes, variation, draws);
  }

  lemma ScaledDrawBounded(a: real, u: real)
    requires 0.0 <= a && -1.0 <= u <= 1.0
    ensures -a <= a * u <= a
  {
    assert a * (1.0 - u) >= 0.0;
    assert a * (1.0 + u) >= 0.0;
  }

  /** Clamping into [40, 127] never moves a value further from one already inside. */
  lemma ClampCloser(velocity: int, d: int)
    requires 40 <= velocity <= 127
    ensures var c := ClampVelocity(velocity + d) - velocity;
      (0 <= d ==> 0 <= c <= d) && (d < 0 ==> d <= c <= 0)
  {
  }

  /** A velocity already in [40, 127] moves by no more than `variation` of itself. */
  lemma VariationBounded(velocity: int, variation: real, u: real)
    requires 40 <= velocity <= 127 && 0.0 <= variation && -1.0 <= u <= 1.0
    ensures var d := VariedVelocity(velocity, variation, u) - velocity;
      -(velocity as real * variation) <= d as real <= velocity as real * variation
  {
    var a := velocity as real * variation;
    assert 0.0 <= a by {
      assert 0.0 <= velocity as real;
    }
    ScaledDrawBounded(a, u);
    TruncBounded(a * u, a);
    assert VariationAmount(velocity, variation, u) == Trunc(a * u);
    ClampCloser(velocity, Trunc(a * u));
  }

  /** Truncation toward zero never grows a magnitude. */
  lemma TruncBounded(x: real, a: real)
    requires -a <= x <= a
    ensures -a <= Trunc(x) as real <= a
  {
  }
}
