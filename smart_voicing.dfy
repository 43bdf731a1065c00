/**
 * SmartGuitarVoicing: turns each chord group of a piano part into guitar
 * notes. A group is labelled by the recogniser, played with the table
 * fingering for that label when there is one and with the fallback voicing
 * otherwise, strummed, and given velocity variation.
 */
module SmartVoicing {
  import opened Wrappers
  import opened Notes
  import opened Sorting
  import opened Fretboard
  import opened Humanizer

  // ---------------------------------------------------------------------------
  // Selecting at most `maxNotes` pitches
  // ---------------------------------------------------------------------------

  function IntKey(x: int): real
  {
    x as real
  }

  /** `sorted(xs)` on a list of integers. */
  function Ascending(xs: seq<int>): seq<int>
  {
    SortBy(xs, IntKey)
  }

  /** `pitches[1:-1]`. */
  function Middle(pitches: seq<int>): (m: seq<int>)
    ensures |pitches| >= 2 ==> pitches == [pitches[0]] + m + [pitches[|pitches| - 1]]
  {
    if |pitches| >= 2 then pitches[1..|pitches| - 1] else []
  }

  lemma PickIndexBelow(i: nat, m: nat, remaining: nat)
    requires i < remaining && 0 < m
    ensures (i * m) / remaining < m
  {
    var q := (i * m) / remaining;
    assert q * remaining <= i * m;
    assert i * m < remaining * m by {
      assert (remaining - i) * m > 0;
    }
  }

  /** `int(i * step)` with `step = m / remaining`: the i-th of `remaining`
      evenly spaced positions among `m` middle notes. */
  function PickIndex(i: nat, m: nat, remaining: nat): (k: nat)
    requires i < remaining && 0 < m
    ensures k < m
  {
    PickIndexBelow(i, m, remaining);
    (i * m) / remaining
  }

  /** When there are more middle notes than slots, successive picks are distinct positions. */
  lemma PickIndexIncreases(i: nat, m: nat, remaining: nat)
    requires i + 1 < remaining && remaining <= m
    ensures PickIndex(i, m, remaining) < PickIndex(i + 1, m, remaining)
  {
    var q := (i * m) / remaining;
    var q' := ((i + 1) * m) / remaining;
    var r' := ((i + 1) * m) % remaining;
    assert q * remaining <= i * m;
    assert (i + 1) * m == i * m + m;
    assert (i + 1) * m == q' * remaining + r' && r' < remaining;
    assert q * remaining < q' * remaining;
    LessByFactor(q, q', remaining);
  }

  lemma LessByFactor(a: int, b: int, c: int)
    requires c > 0 && a * c < b * c
    ensures a < b
  {
  }

  /** The evenly spaced picks from the middle notes. */
  function Picks(middle: seq<int>, remaining: nat): (r: seq<int>)
    requires 0 < remaining && 0 < |middle|
    ensures |r| == remaining
  {
    seq(remaining, i requires 0 <= i < remaining => middle[PickIndex(i, |middle|, remaining)])
  }

  /** The pitches a long list is cut down to, before sorting: its first and
      last pitch, then the evenly spaced picks from the middle. */
  function Chosen(pitches: seq<int>, maxNotes: nat): seq<int>
    requires |pitches| > maxNotes
  {
    var remaining := maxNotes - 2;
    var ends := [pitches[0], pitches[|pitches| - 1]];
    if remaining > 0 then ends + Picks(Middle(pitches), remaining) else ends
  }

  /** What `_select_important_notes` returns. */
  function ImportantNotes(pitches: seq<int>, maxNotes: nat): seq<int>
  {
    if |pitches| <= maxNotes then pitches else Ascending(Chosen(pitches, maxNotes))
  }

  /** `_select_important_notes`: keeps the first and last pitch by position
      and `maxNotes - 2` evenly spaced middle pitches, then sorts them. */
  method SelectImportantNotes(pitches: seq<int>, maxNotes: nat) returns (selected: seq<int>)
    ensures selected == ImportantNotes(pitches, maxNotes)
  {
    if |pitches| <= maxNotes {
      return pitches;
    }
    var chosen := [pitches[0], pitches[|pitches| - 1]];
    var remaining := maxNotes - 2;
    if remaining > 0 {
      var middle := pitches[1..|pitches| - 1];
      ghost var ends := chosen;
      for i := 0 to remaining
        invariant chosen == ends + Picks(middle, remaining)[..i]
      {
        var index := PickIndex(i, |middle|, remaining);
        chosen := chosen + [middle[index]];
      }
      assert Picks(middle, remaining)[..remaining] == Picks(middle, remaining);
      assert middle == Middle(pitches);
    }
    assert chosen == Chosen(pitches, maxNotes);
    selected := Ascending(chosen);
  }

  /** Gathering a sequence at strictly increasing positions takes no element
      more often than the sequence holds it. */
  lemma {:induction false} GatherSubMultiset(s: seq<int>, remaining: nat, k: nat)
    requires 0 < remaining <= |s| && 0 < k <= remaining
    ensures multiset(Picks(s, remaining)[..k]) <= multiset(s[..PickIndex(k - 1, |s|, remaining) + 1])
  {
    var picks := Picks(s, remaining);
    var j := PickIndex(k - 1, |s|, remaining);
    assert s[..j + 1] == s[..j] + [s[j]];
    if k == 1 {
      assert picks[..1] == [s[j]];
    } else {
      var j' := PickIndex(k - 2, |s|, remaining);
      GatherSubMultiset(s, remaining, k - 1);
      PickIndexIncreases(k - 2, |s|, remaining);
      assert picks[..k] == picks[..k - 1] + [s[j]];
      assert s[..j] == s[..j' + 1] + s[j' + 1..j];
    }
  }

  lemma PicksSubMultiset(middle: seq<int>, remaining: nat)
    requires 0 < remaining < |middle|
    ensures multiset(Picks(middle, remaining)) <= multiset(middle)
  {
    var picks := Picks(middle, remaining);
    GatherSubMultiset(middle, remaining, remaining);
    assert picks[..remaining] == picks;
    var j := PickIndex(remaining - 1, |middle|, remaining);
    assert middle == middle[..j + 1] + middle[j + 1..];
  }

  /** `sorted` on integers: ascending, and a permutation. */
  lemma AscendingCorrect(xs: seq<int>)
    ensures var r := Ascending(xs);
      |r| == |xs| && multiset(r) == multiset(xs) && forall i, j :: 0 <= i < j < |r| ==> r[i] <= r[j]
  {
    var r := Ascending(xs);
    SortByOrdered(xs, IntKey);
    forall i, j | 0 <= i < j < |r| ensures r[i] <= r[j] {
      assert IntKey(r[i]) <= IntKey(r[j]);
    }
  }

  /** The cut keeps max(maxNotes, 2) pitches, the first and last among them,
      each taken from the input no more often than it occurs there. */
  lemma ChosenFromInput(pitches: seq<int>, maxNotes: nat)
    requires |pitches| > maxNotes
    ensures var chosen := Chosen(pitches, maxNotes);
      |chosen| == (if maxNotes >= 2 then maxNotes else 2) &&
      pitches[0] in multiset(chosen) && pitches[|pitches| - 1] in multiset(chosen) &&
      (|pitches| >= 2 ==> multiset(chosen) <= multiset(pitches))
  {
    var remaining := maxNotes - 2;
    var chosen := Chosen(pitches, maxNotes);
    var ends := [pitches[0], pitches[|pitches| - 1]];
    if remaining > 0 {
      var middle := Middle(pitches);
      var picks := Picks(middle, remaining);
      PicksSubMultiset(middle, remaining);
      assert chosen == ends + picks;
      EndsAndPicks(pitches, middle, picks);
    } else {
      assert chosen == ends;
      if |pitches| >= 2 {
        EndsAndPicks(pitches, Middle(pitches), []);
      }
    }
  }

  /** The two ends of a list together with a sub-multiset of its middle are a
      sub-multiset of the list. */
  lemma EndsAndPicks(pitches: seq<int>, middle: seq<int>, picks: seq<int>)
    requires |pitches| >= 2 && pitches == [pitches[0]] + middle + [pitches[|pitches| - 1]]
    requires multiset(picks) <= multiset(middle)
    ensures var chosen := [pitches[0], pitches[|pitches| - 1]] + picks;
      |chosen| == |picks| + 2 && chosen[0] == pitches[0] && chosen[1] == pitches[|pitches| - 1] &&
      multiset(chosen) <= multiset(pitches)
  {
    assert multiset(pitches) == multiset([pitches[0], pitches[|pitches| - 1]]) + multiset(middle);
  }

  /** The selection: unchanged when short enough; otherwise exactly
      `maxNotes` pitches (two when `maxNotes < 2`), in ascending order,
      including the first and last input pitches, each drawn from the input
      no more often than it occurs there. */
  lemma ImportantNotesCorrect(pitches: seq<int>, maxNotes: nat)
    ensures var r := ImportantNotes(pitches, maxNotes);
      (|pitches| <= maxNotes ==> r == pitches) &&
      (|pitches| > maxNotes ==>
        |r| == (if maxNotes >= 2 then maxNotes else 2) &&
        (forall i, j :: 0 <= i < j < |r| ==> r[i] <= r[j]) &&
        pitches[0] in r && pitches[|pitches| - 1] in r &&
        (|pitches| >= 2 ==> multiset(r) <= multiset(pitches)))
  {
    if |pitches| > maxNotes {
      var chosen := Chosen(pitches, maxNotes);
      var r := Ascending(chosen);
      AscendingCorrect(chosen);
      ChosenFromInput(pitches, maxNotes);
      assert pitches[0] in multiset(r) && pitches[|pitches| - 1] in multiset(r);
      assert r == ImportantNotes(pitches, maxNotes);
    }
  }

  // ---------------------------------------------------------------------------
  // Fallback voicing
  // ---------------------------------------------------------------------------

  /** The guitar range of the fallback voicing, E2 to E5. */
  const GuitarLow: int := 40
  const GuitarHigh: int := 76

  /** What `_fallback_voicing` returns. */
  function FallbackPitches(pitches: seq<int>): seq<int>
  {
    var chosen := if |pitches| > 6 then ImportantNotes(pitches, 6) else pitches;
    seq(|chosen|, i requires 0 <= i < |chosen| => Fold(chosen[i], GuitarLow, GuitarHigh))
  }

  /** `_fallback_voicing`: cap the count at six, then octave-fold every pitch into [40, 76]. */
  method FallbackVoicing(pitches: seq<int>) returns (guitarPitches: seq<int>)
    ensures guitarPitches == FallbackPitches(pitches)
  {
    var chosen := pitches;
    if |pitches| > 6 {
      chosen := SelectImportantNotes(pitches, 6);
    }
    guitarPitches := [];
    for i := 0 to |chosen|
      invariant |guitarPitches| == i
      invariant forall k :: 0 <= k < i ==> guitarPitches[k] == Fold(chosen[k], GuitarLow, GuitarHigh)
    {
      var pitch := RaiseThenLower(chosen[i], GuitarLow, GuitarHigh);
      guitarPitches := guitarPitches + [pitch];
    }
  }

  /** The fallback plays min(n, 6) pitches in [40, 76]; each keeps the pitch
      class of the input at its position when n <= 6, and in every case the
      pitch class of some input pitch; when n > 6, position by position the
      class of the six important notes selected from the input. */
  lemma FallbackCorrect(pitches: seq<int>)
    ensures var r := FallbackPitches(pitches);
      |r| == (if |pitches| <= 6 then |pitches| else 6) &&
      (forall i :: 0 <= i < |r| ==> GuitarLow <= r[i] <= GuitarHigh) &&
      (|pitches| <= 6 ==> forall i :: 0 <= i < |r| ==> r[i] % 12 == pitches[i] % 12) &&
      (|pitches| > 6 ==> forall i :: 0 <= i < 6 ==> r[i] % 12 == ImportantNotes(pitches, 6)[i] % 12) &&
      (forall i :: 0 <= i < |r| ==> ClassIn(r[i], pitches))
  {
    var chosen := if |pitches| > 6 then ImportantNotes(pitches, 6) else pitches;
    if |pitches| > 6 {
      ImportantNotesCorrect(pitches, 6);
      assert |chosen| == 6 && multiset(chosen) <= multiset(pitches);
    }
    FallbackShape(pitches, chosen, FallbackPitches(pitches));
  }

  /** The fallback's facts, stated over the chosen pitches and their folds alone. */
  lemma FallbackShape(pitches: seq<int>, chosen: seq<int>, r: seq<int>)
    requires |r| == |chosen|
    requires forall i :: 0 <= i < |r| ==> r[i] == Fold(chosen[i], GuitarLow, GuitarHigh)
    requires |pitches| <= 6 ==> chosen == pitches
    requires |pitches| > 6 ==> |chosen| == 6 && multiset(chosen) <= multiset(pitches)
    ensures |r| == (if |pitches| <= 6 then |pitches| else 6) &&
      (forall i :: 0 <= i < |r| ==> GuitarLow <= r[i] <= GuitarHigh) &&
      (|pitches| <= 6 ==> forall i :: 0 <= i < |r| ==> r[i] % 12 == pitches[i] % 12) &&
      (forall i :: 0 <= i < |r| ==> ClassIn(r[i], pitches))
    ensures forall i :: 0 <= i < |r| ==> r[i] % 12 == chosen[i] % 12
  {
    forall i | 0 <= i < |r|
      ensures GuitarLow <= r[i] <= GuitarHigh && r[i] % 12 == chosen[i] % 12
    {
      FoldInWindow(chosen[i], GuitarLow, GuitarHigh);
    }
    forall i | 0 <= i < |r|
      ensures ClassIn(r[i], pitches)
    {
      assert chosen[i] in multiset(chosen);
      ClassFromInput(r[i], chosen[i], pitches);
    }
  }

  /** `x` has the pitch class of some entry of `pitches`. */
  predicate ClassIn(x: int, pitches: seq<int>)
  {
    exists j :: 0 <= j < |pitches| && x % 12 == pitches[j] % 12
  }

  /** A pitch sharing its class with a member of `pitches` shares it with some entry. */
  lemma ClassFromInput(x: int, c: int, pitches: seq<int>)
    requires c in multiset(pitches) && x % 12 == c % 12
    ensures ClassIn(x, pitches)
  {
    var j :| 0 <= j < |pitches| && pitches[j] == c;
  }

  // ---------------------------------------------------------------------------
  // Per-group arrangement
  // ---------------------------------------------------------------------------

  /** The velocity variation `add_velocity_variation` is called with. */
  const Variation: real := 0.15

  /** The strumming pattern of a style: `rock` strums down and up, everything else down. */
  function PatternFor(style: string): (pattern: string)
    ensures pattern == (if style == "rock" then "down-up" else "down")
  {
    if style == "folk" then "down"
    else if style == "rock" then "down-up"
    else "down"
  }

  /** The voicing a group is played with: the table fingering of its label,
      else the fallback. */
  function GroupVoicing(pitches: seq<int>): seq<int>
  {
    match ChordVoicing(RecognizeChord(pitches), 0)
    case Some(v) => v
    case None => FallbackPitches(pitches)
  }

  /** The played strings of a voicing, in string order. */
  function Sounding(voicing: seq<int>): (r: seq<int>)
    ensures |r| <= |voicing|
    ensures forall i :: 0 <= i < |r| ==> r[i] != Muted && r[i] in voicing
    ensures Muted !in r
    ensures forall x :: x != Muted ==> multiset(r)[x] == multiset(voicing)[x]
  {
    if voicing == [] then []
    else
      var last := voicing[|voicing| - 1];
      assert voicing == voicing[..|voicing| - 1] + [last];
      Sounding(voicing[..|voicing| - 1]) + (if last != Muted then [last] else [])
  }

  /** A group's voicing has at most six entries, and every played one lies in [40, 76]. */
  lemma GroupVoicingRange(pitches: seq<int>)
    ensures var v := GroupVoicing(pitches);
      |v| <= 6 && forall i :: 0 <= i < |v| ==> v[i] == Muted || GuitarLow <= v[i] <= GuitarHigh
  {
    var name := RecognizeChord(pitches);
    if name in ChordShapes {
      ChordVoicingRange(name, 0);
    } else {
      FallbackCorrect(pitches);
    }
  }

  /** The strummer's input for the played pitches of a group. */
  function StrumInput(played: seq<int>, time: real, duration: real): (r: seq<StrumNote>)
    ensures |r| == |played|
  {
    seq(|played|, i requires 0 <= i < |played| => StrumNote(played[i], time, duration))
  }

  /** How long the group's first note lasts: every guitar note of the group lasts that long. */
  function GroupDuration(group: ChordGroup): real
    requires group.notes != []
  {
    group.notes[0].end - group.notes[0].start
  }

  /** The notes handed to the strummer: one per played string, at the group's
      time, lasting as long as the group's first note. */
  function ChordNotes(group: ChordGroup): (r: seq<StrumNote>)
    requires group.notes != []
  {
    StrumInput(Sounding(GroupVoicing(Pitches(group.notes))), group.time, GroupDuration(group))
  }

  /** The loop over the voicing that skips muted strings. */
  method PlayedNotes(voicing: seq<int>, time: real, duration: real) returns (chordNotes: seq<StrumNote>)
    ensures chordNotes == StrumInput(Sounding(voicing), time, duration)
  {
    chordNotes := [];
    for i := 0 to |voicing|
      invariant chordNotes == StrumInput(Sounding(voicing[..i]), time, duration)
    {
      assert voicing[..i + 1][..i] == voicing[..i];
      if voicing[i] != Muted {
        chordNotes := chordNotes + [StrumNote(voicing[i], time, duration)];
      }
    }
    assert voicing[..|voicing|] == voicing;
  }

  /** The strummed notes with the group's velocity put back. */
  function WithVelocity(strummed: seq<StrumNote>, velocity: int): (r: seq<GuitarNote>)
    ensures |r| == |strummed|
    ensures forall i :: 0 <= i < |r| ==>
      r[i] == GuitarNote(strummed[i].pitch, strummed[i].start, strummed[i].duration, velocity)
  {
    seq(|strummed|, i requires 0 <= i < |strummed| =>
      GuitarNote(strummed[i].pitch, strummed[i].start, strummed[i].duration, velocity))
  }

  /** The raw draw `rng(k)` of the random stream, rescaled as `np.random.uniform(0.002, 0.007)`. */
  function JitterSeq(rng: nat -> real, pos: nat, n: nat): (r: seq<real>)
    ensures |r| == n
  {
    seq(n, i requires 0 <= i < n => JitterLow + (JitterHigh - JitterLow) * rng(pos + i))
  }

  /** The raw draw `rng(k)`, rescaled as `np.random.uniform(-1, 1)`. */
  function VelocitySeq(rng: nat -> real, pos: nat, n: nat): (r: seq<real>)
    ensures |r| == n
  {
    seq(n, i requires 0 <= i < n => -1.0 + 2.0 * rng(pos + i))
  }

  /** Jitter draws a strum takes: one per note for a humanized down strum, none for down-up. */
  function JitterCount(n: nat, pattern: string): nat
  {
    if pattern == "down" || pattern == "up" then n else 0
  }

  /** The strummed, velocity-varied notes of a chord whose strings all
      sound at `velocity`, drawing from the stream at `pos`. */
  function StrumChord(chord: seq<StrumNote>, velocity: int, style: string, rng: nat -> real, pos: nat): seq<GuitarNote>
  {
    var pattern := PatternFor(style);
    var strummed := Strummed(chord, pattern, true, JitterSeq(rng, pos, |chord|));
    var draws := VelocitySeq(rng, pos + JitterCount(|chord|, pattern), |strummed|);
    WithVariation(WithVelocity(strummed, velocity), Variation, draws)
  }

  /** The guitar notes of one group, drawing from the stream at `pos`. */
  function ArrangeOne(group: ChordGroup, style: string, rng: nat -> real, pos: nat): seq<GuitarNote>
    requires group.notes != []
  {
    StrumChord(ChordNotes(group), group.notes[0].velocity, style, rng, pos)
  }

  lemma ChordNotesOf(group: ChordGroup, voicing: seq<int>)
    requires group.notes != [] && voicing == GroupVoicing(Pitches(group.notes))
    ensures ChordNotes(group) == StrumInput(Sounding(voicing), group.time, GroupDuration(group))
  {
  }

  /** Draws one group takes: a jitter and a velocity draw per note when strummed
      down, two velocity draws per note when strummed down and up. */
  function DrawsUsed(group: ChordGroup): nat
    requires group.notes != []
  {
    2 * |ChordNotes(group)|
  }

  /** Every group holds at least one note, as the grouper guarantees. */
  predicate NonEmptyGroups(groups: seq<ChordGroup>)
  {
    groups == [] || (groups[0].notes != [] && NonEmptyGroups(groups[1..]))
  }

  /** What `convert_piano_to_guitar` returns: the groups' notes, in group order. */
  function ArrangeGroups(groups: seq<ChordGroup>, style: string, rng: nat -> real, pos: nat): seq<GuitarNote>
    requires NonEmptyGroups(groups)
  {
    if groups == [] then []
    else ArrangeOne(groups[0], style, rng, pos) + ArrangeGroups(groups[1..], style, rng, pos + DrawsUsed(groups[0]))
  }

  function TotalDraws(groups: seq<ChordGroup>): nat
    requires NonEmptyGroups(groups)
  {
    if groups == [] then 0 else DrawsUsed(groups[0]) + TotalDraws(groups[1..])
  }

  lemma ArrangeGroupsCons(groups: seq<ChordGroup>, style: string, rng: nat -> real, p: nat)
    requires NonEmptyGroups(groups) && groups != []
    ensures ArrangeGroups(groups, style, rng, p) ==
      ArrangeOne(groups[0], style, rng, p) + ArrangeGroups(groups[1..], style, rng, p + DrawsUsed(groups[0]))
    ensures TotalDraws(groups) == DrawsUsed(groups[0]) + TotalDraws(groups[1..])
  {
  }

  /** Recognise the chord, look up its fingering, and fall back when the table has none. */
  method VoicingFor(pitches: seq<int>) returns (voicing: seq<int>)
    ensures voicing == GroupVoicing(pitches)
  {
    var chordName := RecognizeChord(pitches);
    match ChordVoicing(chordName, 0) {
      case Some(v) => voicing := v;
      case None => voicing := FallbackVoicing(pitches);
    }
  }

  /** The strumming and velocity part of one pass of the loop of `convert_piano_to_guitar`. */
  method StrumAndVary(chord: seq<StrumNote>, velocity: int, style: string, rng: nat -> real, pos: nat)
    returns (finalNotes: seq<GuitarNote>, next: nat)
    ensures finalNotes == StrumChord(chord, velocity, style, rng, pos)
    ensures next == pos + 2 * |chord|
  {
    var pattern := PatternFor(style);
    var jitter := JitterSeq(rng, pos, |chord|);
    var strummed := ApplyStrummingPattern(chord, pattern, true, jitter);
    var voiced := WithVelocity(strummed, velocity);
    var draws := VelocitySeq(rng, pos + JitterCount(|chord|, pattern), |strummed|);
    finalNotes := AddVelocityVariation(voiced, Variation, draws);
    next := pos + JitterCount(|chord|, pattern) + |strummed|;
    StrumDrawCount(chord, pattern, jitter, strummed);
    StrumChordOf(chord, velocity, style, rng, pos, strummed, finalNotes);
  }

  /** The strummed notes, voiced and varied with the draws that follow the
      jitter draws, are the specified chord. */
  lemma StrumChordOf(chord: seq<StrumNote>, velocity: int, style: string, rng: nat -> real, pos: nat,
                     strummed: seq<StrumNote>, finalNotes: seq<GuitarNote>)
    requires strummed == Strummed(chord, PatternFor(style), true, JitterSeq(rng, pos, |chord|))
    requires finalNotes == WithVariation(WithVelocity(strummed, velocity), Variation,
      VelocitySeq(rng, pos + JitterCount(|chord|, PatternFor(style)), |strummed|))
    ensures finalNotes == StrumChord(chord, velocity, style, rng, pos)
  {
  }

  /** A strum over the patterns the styles use takes two draws per chord
      note: jitter and velocity for a down strum, two velocities for down-up. */
  lemma StrumDrawCount(chord: seq<StrumNote>, pattern: string, jitter: seq<real>, strummed: seq<StrumNote>)
    requires pattern == "down" || pattern == "down-up"
    requires |jitter| == |chord| && strummed == Strummed(chord, pattern, true, jitter)
    ensures JitterCount(|chord|, pattern) + |strummed| == 2 * |chord|
  {
  }

  /** One pass of the loop of `convert_piano_to_guitar`. */
  method ConvertGroup(group: ChordGroup, style: string, rng: nat -> real, pos: nat)
    returns (finalNotes: seq<GuitarNote>, next: nat)
    requires group.notes != []
    ensures finalNotes == ArrangeOne(group, style, rng, pos)
    ensures next == pos + DrawsUsed(group)
    ensures |finalNotes| == StrumCount(style, |ChordNotes(group)|) && Playable(finalNotes)
  {
    var pitches := Pitches(group.notes);
    var voicing := VoicingFor(pitches);
    var duration := GroupDuration(group);
    var velocity := group.notes[0].velocity;
    var notesForStrum := PlayedNotes(voicing, group.time, duration);
    ChordNotesOf(group, voicing);
    finalNotes, next := StrumAndVary(notesForStrum, velocity, style, rng, pos);
    ArrangeOnePlayable(group, style, rng, pos);
  }

  /** `convert_piano_to_guitar`; the random stream is `rng` read from `pos`,
      and `next` is where the following caller continues reading it. */
  method ConvertPianoToGuitar(groups: seq<ChordGroup>, style: string, rng: nat -> real, pos: nat)
    returns (guitarNotes: seq<GuitarNote>, next: nat)
    requires NonEmptyGroups(groups)
    ensures guitarNotes == ArrangeGroups(groups, style, rng, pos)
    ensures next == pos + TotalDraws(groups)
    ensures |guitarNotes| == StrumCount(style, PlayedCount(groups)) && Playable(guitarNotes)
  {
    guitarNotes := [];
    next := pos;
    var rest := groups;
    while rest != []
      invariant NonEmptyGroups(rest)
      invariant guitarNotes + ArrangeGroups(rest, style, rng, next) == ArrangeGroups(groups, style, rng, pos)
      invariant next + TotalDraws(rest) == pos + TotalDraws(groups)
      invariant |guitarNotes| + StrumCount(style, PlayedCount(rest)) == StrumCount(style, PlayedCount(groups))
      invariant Playable(guitarNotes)
      decreases |rest|
    {
      ArrangeGroupsCons(rest, style, rng, next);
      var finalNotes, after := ConvertGroup(rest[0], style, rng, next);
      ConcatAssoc(guitarNotes, finalNotes, ArrangeGroups(rest[1..], style, rng, after));
      PlayableConcat(guitarNotes, finalNotes);
      guitarNotes := guitarNotes + finalNotes;
      next := after;
      rest := rest[1..];
    }
  }

  // ---------------------------------------------------------------------------
  // Properties of the arrangement
  // ---------------------------------------------------------------------------

  /** A group is handed to the strummer as at most six notes, one per played
      string, each in [40, 76], at the group's time and with its duration. */
  lemma ChordNotesRange(group: ChordGroup)
    requires group.notes != []
    ensures var chord := ChordNotes(group);
      |chord| <= 6 &&
      forall i :: 0 <= i < |chord| ==>
        GuitarLow <= chord[i].pitch <= GuitarHigh && chord[i].start == group.time &&
        chord[i].duration == GroupDuration(group)
  {
    var v := GroupVoicing(Pitches(group.notes));
    GroupVoicingRange(Pitches(group.notes));
    var played := Sounding(v);
    forall i | 0 <= i < |played| ensures GuitarLow <= played[i] <= GuitarHigh {
      var k :| 0 <= k < |v| && v[k] == played[i];
    }
  }

  ghost predicate UnitDraws(rng: nat -> real)
  {
    forall k: nat :: 0.0 <= rng(k) < 1.0
  }

  lemma JitterSeqInRange(rng: nat -> real, pos: nat, n: nat)
    requires UnitDraws(rng)
    ensures JitterDraws(JitterSeq(rng, pos, n))
  {
    var jitter := JitterSeq(rng, pos, n);
    forall j | 0 <= j < n ensures JitterLow <= jitter[j] <= JitterHigh {
      assert 0.0 <= rng(pos + j) < 1.0;
    }
  }

  /** Velocity variation keeps each note's pitch, onset and duration, and
      gives it the chord velocity varied by its own draw, in [40, 127]. */
  lemma StrumChordKeepsNotes(chord: seq<StrumNote>, velocity: int, style: string, rng: nat -> real, pos: nat)
    ensures var strummed := Strummed(chord, PatternFor(style), true, JitterSeq(rng, pos, |chord|));
      var draws := VelocitySeq(rng, pos + JitterCount(|chord|, PatternFor(style)), |strummed|);
      var r := StrumChord(chord, velocity, style, rng, pos);
      |r| == |strummed| &&
      forall i :: 0 <= i < |r| ==>
        r[i].pitch == strummed[i].pitch && r[i].start == strummed[i].start &&
        r[i].duration == strummed[i].duration &&
        r[i].velocity == VariedVelocity(velocity, Variation, draws[i]) && 40 <= r[i].velocity <= 127
  {
  }

  /** With unit draws, every note of a strummed chord whose velocity is in
      [40, 127] sounds within `Variation` of that velocity. */
  lemma StrumChordVelocity(chord: seq<StrumNote>, velocity: int, style: string, rng: nat -> real, pos: nat)
    requires UnitDraws(rng) && 40 <= velocity <= 127
    ensures var r := StrumChord(chord, velocity, style, rng, pos);
      forall i :: 0 <= i < |r| ==>
        -(velocity as real * Variation) <= (r[i].velocity - velocity) as real <= velocity as real * Variation
  {
    var strummed := Strummed(chord, PatternFor(style), true, JitterSeq(rng, pos, |chord|));
    var start := pos + JitterCount(|chord|, PatternFor(style));
    var draws := VelocitySeq(rng, start, |strummed|);
    var r := StrumChord(chord, velocity, style, rng, pos);
    StrumChordKeepsNotes(chord, velocity, style, rng, pos);
    forall i | 0 <= i < |r|
      ensures -(velocity as real * Variation) <= (r[i].velocity - velocity) as real <= velocity as real * Variation
    {
      assert 0.0 <= rng(start + i) < 1.0;
      assert draws[i] == -1.0 + 2.0 * rng(start + i);
      VariationBounded(velocity, Variation, draws[i]);
    }
  }

  /** Every pitch in the guitar range [40, 76] and every velocity in the MIDI range [40, 127] the variation clamps to. */
  predicate Playable(notes: seq<GuitarNote>)
  {
    forall i :: 0 <= i < |notes| ==> GuitarLow <= notes[i].pitch <= GuitarHigh && 40 <= notes[i].velocity <= 127
  }

  lemma PlayableConcat(a: seq<GuitarNote>, b: seq<GuitarNote>)
    requires Playable(a) && Playable(b)
    ensures Playable(a + b)
  {
  }

  /** A part's notes are all playable, one per played string (two for `rock`). */
  lemma {:induction false} ArrangeGroupsPlayable(groups: seq<ChordGroup>, style: string, rng: nat -> real, pos: nat)
    requires NonEmptyGroups(groups)
    ensures var r := ArrangeGroups(groups, style, rng, pos);
      |r| == StrumCount(style, PlayedCount(groups)) && Playable(r)
  {
    if groups != [] {
      ArrangeOnePlayable(groups[0], style, rng, pos);
      ArrangeGroupsPlayable(groups[1..], style, rng, pos + DrawsUsed(groups[0]));
      PlayableConcat(ArrangeOne(groups[0], style, rng, pos), ArrangeGroups(groups[1..], style, rng, pos + DrawsUsed(groups[0])));
    }
  }

  /** Notes a strum of `n` strings emits: each string once, twice for `rock`. */
  function StrumCount(style: string, n: nat): nat
  {
    if style == "rock" then 2 * n else n
  }

  /** A strummed, velocity-varied chord has one note per chord note (two for
      `rock`), each playing a chord pitch with a velocity in [40, 127],
      whatever the draws. */
  lemma StrumChordPlayable(chord: seq<StrumNote>, velocity: int, style: string, rng: nat -> real, pos: nat)
    ensures var r := StrumChord(chord, velocity, style, rng, pos);
      |r| == StrumCount(style, |chord|) &&
      forall i :: 0 <= i < |r| ==>
        r[i].pitch in StrumPitches(chord) && 40 <= r[i].velocity <= 127
  {
    var jitter := JitterSeq(rng, pos, |chord|);
    StrummedPitchesFromInput(chord, PatternFor(style), true, jitter);
    StrumChordKeepsNotes(chord, velocity, style, rng, pos);
    if style == "rock" && chord != [] {
      DownUpStrum(chord, true, jitter, jitter);
    }
  }

  /** One group's guitar notes: one per played string (two for `rock`), every
      pitch in [40, 76] and every velocity in [40, 127]. */
  lemma ArrangeOnePlayable(group: ChordGroup, style: string, rng: nat -> real, pos: nat)
    requires group.notes != []
    ensures var r := ArrangeOne(group, style, rng, pos);
      |r| == StrumCount(style, |ChordNotes(group)|) && Playable(r)
  {
    var chord := ChordNotes(group);
    ChordNotesRange(group);
    StrumChordPlayable(chord, group.notes[0].velocity, style, rng, pos);
    var r := ArrangeOne(group, style, rng, pos);
    forall i | 0 <= i < |r| ensures GuitarLow <= r[i].pitch <= GuitarHigh {
      var k :| 0 <= k < |chord| && StrumPitches(chord)[k] == r[i].pitch;
    }
  }

  /** Strummed down, a chord whose notes share an onset and a duration keeps
      that duration and sounds its notes one after another within the strum
      window. */
  lemma StrumChordDown(chord: seq<StrumNote>, velocity: int, style: string, rng: nat -> real, pos: nat,
                       time: real, duration: real)
    requires UnitDraws(rng) && style != "rock"
    requires forall k :: 0 <= k < |chord| ==> chord[k].start == time && chord[k].duration == duration
    ensures var strummed := Strummed(chord, "down", true, JitterSeq(rng, pos, |chord|));
      var n := |chord|;
      |strummed| == n &&
      (forall i :: 0 <= i < n ==>
        strummed[i].duration == duration && time <= strummed[i].start <= time + (n - 1) as real * 0.01 + JitterHigh) &&
      (forall i, j :: 0 <= i < j < n ==> strummed[i].start < strummed[j].start)
  {
    var n := |chord|;
    var jitter := JitterSeq(rng, pos, n);
    var strummed := Strummed(chord, "down", true, jitter);
    JitterSeqInRange(rng, pos, n);
    if n > 0 {
      DownStrum(chord, true, jitter);
      StrumOnsetsIncrease(chord, "down", true, jitter, time);
      forall i | 0 <= i < n ensures strummed[i].duration == duration {
        ByPitchElement(chord, i);
      }
    }
  }

  /** Strummed down and up, a chord whose notes share a duration is played
      twice, every note lasting half that duration. */
  lemma StrumChordDownUp(chord: seq<StrumNote>, rng: nat -> real, pos: nat, duration: real)
    requires forall k :: 0 <= k < |chord| ==> chord[k].duration == duration
    ensures var strummed := Strummed(chord, "down-up", true, JitterSeq(rng, pos, |chord|));
      |strummed| == 2 * |chord| &&
      forall i :: 0 <= i < |strummed| ==> strummed[i].duration == duration / 2.0
  {
    var jitter := JitterSeq(rng, pos, |chord|);
    if chord != [] {
      DownUpStrum(chord, true, jitter, jitter);
      ByPitchElement(chord, 0);
    }
  }

  /** A chord whose notes share an onset and a duration, strummed and
      velocity-varied: one note per chord note (two for `rock`), each playing a
      chord pitch with a velocity in [40, 127]. Strummed down, the notes keep
      the duration and sound one after another within the strum window;
      strummed down and up, every note lasts half the duration. */
  lemma StrumChordShape(chord: seq<StrumNote>, velocity: int, style: string, rng: nat -> real, pos: nat,
                        time: real, duration: real)
    requires UnitDraws(rng)
    requires forall k :: 0 <= k < |chord| ==> chord[k].start == time && chord[k].duration == duration
    ensures var r := StrumChord(chord, velocity, style, rng, pos);
      var n := |chord|;
      |r| == (if style == "rock" then 2 * n else n) &&
      (forall i :: 0 <= i < |r| ==>
        r[i].pitch in StrumPitches(chord) && 40 <= r[i].velocity <= 127) &&
      (style != "rock" ==>
        (forall i :: 0 <= i < |r| ==>
          r[i].duration == duration && time <= r[i].start <= time + (n - 1) as real * 0.01 + JitterHigh) &&
        (forall i, j :: 0 <= i < j < |r| ==> r[i].start < r[j].start)) &&
      (style == "rock" ==> forall i :: 0 <= i < |r| ==> r[i].duration == duration / 2.0)
  {
    StrumChordPlayable(chord, velocity, style, rng, pos);
    StrumChordKeepsNotes(chord, velocity, style, rng, pos);
    if style != "rock" {
      StrumChordDown(chord, velocity, style, rng, pos, time, duration);
    } else {
      StrumChordDownUp(chord, rng, pos, duration);
    }
  }

  /** One group's guitar notes: one per played string (two for `rock`), at
      most six played strings, every note playable. Strummed down, the notes
      keep the group's duration and sound one after another within the strum
      window after the group's time; strummed down and up, every note lasts
      half the group's duration. A first-note velocity in [40, 127] is the
      velocity of every note, varied by at most `Variation` of itself. */
  lemma ArrangeOneShape(group: ChordGroup, style: string, rng: nat -> real, pos: nat)
    requires group.notes != [] && UnitDraws(rng)
    ensures var r := ArrangeOne(group, style, rng, pos);
      var n := |ChordNotes(group)|;
      n <= 6 &&
      |r| == (if style == "rock" then 2 * n else n) &&
      Playable(r) &&
      (style != "rock" ==>
        (forall i :: 0 <= i < |r| ==>
          r[i].duration == GroupDuration(group) &&
          group.time <= r[i].start <= group.time + (n - 1) as real * 0.01 + JitterHigh) &&
        (forall i, j :: 0 <= i < j < |r| ==> r[i].start < r[j].start)) &&
      (style == "rock" ==> forall i :: 0 <= i < |r| ==> r[i].duration == GroupDuration(group) / 2.0) &&
      (40 <= group.notes[0].velocity <= 127 ==>
        forall i :: 0 <= i < |r| ==>
          -(group.notes[0].velocity as real * Variation) <= (r[i].velocity - group.notes[0].velocity) as real
          <= group.notes[0].velocity as real * Variation)
  {
    ChordNotesRange(group);
    ArrangeOnePlayable(group, style, rng, pos);
    StrumChordShape(ChordNotes(group), group.notes[0].velocity, style, rng, pos, group.time, GroupDuration(group));
    if 40 <= group.notes[0].velocity <= 127 {
      StrumChordVelocity(ChordNotes(group), group.notes[0].velocity, style, rng, pos);
    }
  }

  /** Every note of a group sounds at the group's first-note velocity, varied
      by the velocity draw that note takes from the stream. */
  lemma ArrangeOneVelocity(group: ChordGroup, style: string, rng: nat -> real, pos: nat)
    requires group.notes != []
    ensures var r := ArrangeOne(group, style, rng, pos);
      var draws := VelocitySeq(rng, pos + JitterCount(|ChordNotes(group)|, PatternFor(style)), |r|);
      forall i :: 0 <= i < |r| ==> r[i].velocity == VariedVelocity(group.notes[0].velocity, Variation, draws[i])
  {
    StrumChordKeepsNotes(ChordNotes(group), group.notes[0].velocity, style, rng, pos);
  }

  /** The number of played strings over all groups. */
  function PlayedCount(groups: seq<ChordGroup>): nat
    requires NonEmptyGroups(groups)
  {
    if groups == [] then 0 else |ChordNotes(groups[0])| + PlayedCount(groups[1..])
  }

  /** A part takes two draws from the stream per played string. */
  lemma {:induction false} DrawsPerString(groups: seq<ChordGroup>)
    requires NonEmptyGroups(groups)
    ensures TotalDraws(groups) == 2 * PlayedCount(groups)
  {
    if groups != [] {
      DrawsPerString(groups[1..]);
    }
  }
}
