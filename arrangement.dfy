/**
 * The arrangement tool's converters: grouping a track's notes into chords by
 * onset, the plain piano-to-guitar voicing, and the guitar, bass and strings
 * renditions of a MIDI file's non-drum tracks.
 */
module Arrangement {
  import opened Notes
  import opened Sorting
  import opened SmartVoicing

  // ---------------------------------------------------------------------------
  // Grouping notes by onset
  // ---------------------------------------------------------------------------

  /** The onset tolerance the converters group with, in seconds. */
  const Tolerance: real := 0.05

  function StartKey(n: MidiNote): real
  {
    n.start
  }

  function Abs(x: real): (r: real)
    ensures r >= 0.0 && (r == x || r == -x)
  {
    if x < 0.0 then -x else x
  }

  /** The groups made from `rest` while the group `current`, anchored at
      `time`, is still open. */
  function GroupFrom(time: real, current: seq<MidiNote>, rest: seq<MidiNote>, tol: real): seq<ChordGroup>
    decreases |rest|
  {
    if rest == [] then [ChordGroup(time, current)]
    else if Abs(rest[0].start - time) <= tol then GroupFrom(time, current + [rest[0]], rest[1..], tol)
    else [ChordGroup(time, current)] + GroupFrom(rest[0].start, [rest[0]], rest[1..], tol)
  }

  /** The groups of notes already sorted by onset. */
  function GroupSorted(sorted: seq<MidiNote>, tol: real): seq<ChordGroup>
  {
    if sorted == [] then [] else GroupFrom(sorted[0].start, [sorted[0]], sorted[1..], tol)
  }

  /** What `_group_notes_by_time` returns. */
  function GroupByTime(notes: seq<MidiNote>, tol: real): seq<ChordGroup>
  {
    GroupSorted(SortBy(notes, StartKey), tol)
  }

  /** `_group_notes_by_time`: sort by onset, then sweep, opening a new group
      whenever a note starts more than `tol` away from the open group's anchor. */
  method GroupNotesByTime(notes: seq<MidiNote>, tol: real) returns (groups: seq<ChordGroup>)
    ensures groups == GroupByTime(notes, tol)
  {
    if notes == [] {
      return [];
    }
    var sorted := SortBy(notes, StartKey);
    groups := [];
    var currentGroup := [sorted[0]];
    var currentTime := sorted[0].start;
    for i := 1 to |sorted|
      invariant groups + GroupFrom(currentTime, currentGroup, sorted[i..], tol) == GroupByTime(notes, tol)
    {
      var note := sorted[i];
      assert sorted[i..][0] == note && sorted[i..][1..] == sorted[i + 1..];
      if Abs(note.start - currentTime) <= tol {
        currentGroup := currentGroup + [note];
      } else {
        groups := groups + [ChordGroup(currentTime, currentGroup)];
        currentGroup := [note];
        currentTime := note.start;
      }
    }
    groups := groups + [ChordGroup(currentTime, currentGroup)];
  }

  /** The notes of the groups, group after group. */
  function Flatten(groups: seq<ChordGroup>): seq<MidiNote>
  {
    if groups == [] then [] else groups[0].notes + Flatten(groups[1..])
  }

  /** A group as the grouper makes it: not empty, anchored at its first
      note's onset, and every note starting within `tol` of the anchor. */
  predicate WellFormed(g: ChordGroup, tol: real)
  {
    g.notes != [] && g.time == g.notes[0].start &&
    forall k :: 0 <= k < |g.notes| ==> Abs(g.notes[k].start - g.time) <= tol
  }

  /** Every note of `s` starts at or after `t`. */
  predicate StartsFrom(s: seq<MidiNote>, t: real)
  {
    forall k :: 0 <= k < |s| ==> t <= s[k].start
  }

  /** Dropping the first of onset-sorted notes keeps them sorted, and the rest
      start no earlier than it. */
  lemma SortedTail(s: seq<MidiNote>)
    requires s != [] && SortedBy(s, StartKey)
    ensures SortedBy(s[1..], StartKey) && StartsFrom(s[1..], s[0].start)
  {
    forall i, j | 0 <= i < j < |s[1..]| ensures StartKey(s[1..][i]) <= StartKey(s[1..][j]) {
      assert s[1..][i] == s[i + 1] && s[1..][j] == s[j + 1];
    }
    forall k | 0 <= k < |s[1..]| ensures s[0].start <= s[1..][k].start {
      assert s[1..][k] == s[k + 1];
      assert StartKey(s[0]) <= StartKey(s[k + 1]);
    }
  }

  lemma StartsFromTail(s: seq<MidiNote>, t: real)
    requires s != [] && StartsFrom(s, t)
    ensures StartsFrom(s[1..], t) && t <= s[0].start
  {
    forall k | 0 <= k < |s[1..]| ensures t <= s[1..][k].start {
      assert s[1..][k] == s[k + 1];
    }
  }

  /** A note within `tol` of the anchor keeps the open group well formed. */
  lemma GrowWellFormed(time: real, current: seq<MidiNote>, x: MidiNote, tol: real)
    requires WellFormed(ChordGroup(time, current), tol) && Abs(x.start - time) <= tol
    ensures WellFormed(ChordGroup(time, current + [x]), tol)
  {
    var grown := current + [x];
    forall k | 0 <= k < |grown| ensures Abs(grown[k].start - time) <= tol {
      if k < |current| {
        assert grown[k] == current[k];
      }
    }
  }

  /** The properties the grouper's output has. */
  predicate Grouped(r: seq<ChordGroup>, tol: real)
  {
    (forall i :: 0 <= i < |r| ==> WellFormed(r[i], tol)) &&
    (forall i :: 0 <= i < |r| - 1 ==> r[i].time + tol < r[i + 1].time)
  }

  /** Closing a well-formed group in front of groups whose first anchor lies
      more than `tol` later keeps the groups `Grouped`. */
  lemma GroupedCons(g: ChordGroup, tail: seq<ChordGroup>, tol: real)
    requires WellFormed(g, tol) && Grouped(tail, tol)
    requires tail != [] && g.time + tol < tail[0].time
    ensures Grouped([g] + tail, tol)
  {
    var r := [g] + tail;
    forall i | 0 <= i < |r| ensures WellFormed(r[i], tol) {
      if i > 0 {
        assert r[i] == tail[i - 1];
      }
    }
    forall i | 0 <= i < |r| - 1 ensures r[i].time + tol < r[i + 1].time {
      if i > 0 {
        assert r[i] == tail[i - 1] && r[i + 1] == tail[i];
      }
    }
  }

  /** The sweep from an open, well-formed group over onset-sorted notes that
      start no earlier than its anchor: the groups partition the notes in
      order, each is well formed, the first keeps the open anchor, and each
      anchor lies more than `tol` after the one before. */
  lemma {:induction false} GroupFromCorrect(time: real, current: seq<MidiNote>, rest: seq<MidiNote>, tol: real)
    requires tol >= 0.0
    requires WellFormed(ChordGroup(time, current), tol)
    requires SortedBy(rest, StartKey) && StartsFrom(rest, time)
    ensures var r := GroupFrom(time, current, rest, tol);
      r != [] && r[0].time == time && Flatten(r) == current + rest && Grouped(r, tol)
    decreases |rest|
  {
    var r := GroupFrom(time, current, rest, tol);
    if rest == [] {
      assert Flatten(r) == current + Flatten([]);
    } else {
      var x := rest[0];
      SortedTail(rest);
      StartsFromTail(rest, time);
      if Abs(x.start - time) <= tol {
        GrowWellFormed(time, current, x, tol);
        GroupFromCorrect(time, current + [x], rest[1..], tol);
        assert (current + [x]) + rest[1..] == current + rest;
      } else {
        assert time + tol < x.start;
        assert WellFormed(ChordGroup(x.start, [x]), tol);
        GroupFromCorrect(x.start, [x], rest[1..], tol);
        var tail := GroupFrom(x.start, [x], rest[1..], tol);
        assert r == [ChordGroup(time, current)] + tail;
        assert r[1..] == tail;
        assert Flatten(r) == current + Flatten(tail);
        assert [x] + rest[1..] == rest;
        GroupedCons(ChordGroup(time, current), tail, tol);
      }
    }
  }

  /** Anchors that climb by more than `tol >= 0` from each group to the next
      climb strictly between any two groups. */
  lemma {:induction false} TimesIncrease(r: seq<ChordGroup>, tol: real, i: nat, j: nat)
    requires tol >= 0.0
    requires forall k :: 0 <= k < |r| - 1 ==> r[k].time + tol < r[k + 1].time
    requires i < j < |r|
    ensures r[i].time < r[j].time
    decreases j - i
  {
    if i + 1 < j {
      TimesIncrease(r, tol, i + 1, j);
    }
  }

  /** Groups that each hold a note satisfy the converter's precondition. */
  lemma {:induction false} AllNonEmpty(groups: seq<ChordGroup>)
    requires forall i :: 0 <= i < |groups| ==> groups[i].notes != []
    ensures NonEmptyGroups(groups)
    decreases |groups|
  {
    if groups != [] {
      AllNonEmpty(groups[1..]);
    }
  }

  /** The grouping of onset-sorted notes, before the sort is taken into account. */
  lemma GroupSortedCorrect(sorted: seq<MidiNote>, tol: real)
    requires tol >= 0.0 && SortedBy(sorted, StartKey)
    ensures var r := GroupSorted(sorted, tol);
      (r == [] <==> sorted == []) && Flatten(r) == sorted && Grouped(r, tol)
  {
    if sorted != [] {
      var x := sorted[0];
      SortedTail(sorted);
      assert WellFormed(ChordGroup(x.start, [x]), tol);
      GroupFromCorrect(x.start, [x], sorted[1..], tol);
      assert [x] + sorted[1..] == sorted;
    }
  }

  /** `_group_notes_by_time`: no notes give no groups; otherwise the groups,
      read in order, are exactly the notes stably sorted by onset (so a
      permutation of them), each group is well formed, and the anchors rise
      by more than `tol` from group to group, hence strictly. */
  lemma GroupByTimeCorrect(notes: seq<MidiNote>, tol: real)
    requires tol >= 0.0
    ensures var r := GroupByTime(notes, tol);
      (r == [] <==> notes == []) &&
      Flatten(r) == SortBy(notes, StartKey) &&
      multiset(Flatten(r)) == multiset(notes) && SortedBy(Flatten(r), StartKey) &&
      (forall i :: 0 <= i < |r| ==> WellFormed(r[i], tol)) &&
      (forall i :: 0 <= i < |r| - 1 ==> r[i].time + tol < r[i + 1].time) &&
      (forall i, j :: 0 <= i < j < |r| ==> r[i].time < r[j].time) &&
      NonEmptyGroups(r)
  {
    var sorted := SortBy(notes, StartKey);
    var r := GroupByTime(notes, tol);
    SortByOrdered(notes, StartKey);
    GroupSortedCorrect(sorted, tol);
    assert r == GroupSorted(sorted, tol);
    forall i, j | 0 <= i < j < |r| ensures r[i].time < r[j].time {
      TimesIncrease(r, tol, i, j);
    }
    AllNonEmpty(r);
  }

  // ---------------------------------------------------------------------------
  // The plain piano-to-guitar voicing
  // ---------------------------------------------------------------------------

  /** The pitches of `s` without repeats: what `set(s)` holds. */
  function Distinct(s: seq<int>): (r: seq<int>)
    ensures forall x :: multiset(r)[x] == (if x in s then 1 else 0)
  {
    if s == [] then []
    else if s[0] in s[1..] then Distinct(s[1..])
    else [s[0]] + Distinct(s[1..])
  }

  /** `sorted(set(pitches))`. */
  function SetSorted(pitches: seq<int>): seq<int>
  {
    Ascending(Distinct(pitches))
  }

  /** Strictly increasing. */
  predicate Increasing(s: seq<int>)
  {
    forall i, j :: 0 <= i < j < |s| ==> s[i] < s[j]
  }

  /** Two equal entries make two copies in the multiset. */
  lemma TwoCopies(r: seq<int>, i: nat, j: nat)
    requires i < j < |r| && r[i] == r[j]
    ensures multiset(r)[r[i]] >= 2
  {
    assert r == r[..j] + [r[j]] + r[j + 1..];
    assert r[..j][i] == r[i];
    assert r[i] in multiset(r[..j]);
  }

  /** A nondecreasing sequence drawn from one holding no value twice is strictly increasing. */
  lemma IncreasingFromCounts(r: seq<int>, u: seq<int>)
    requires forall i, j :: 0 <= i < j < |r| ==> r[i] <= r[j]
    requires multiset(r) <= multiset(u)
    requires forall x :: multiset(u)[x] <= 1
    ensures Increasing(r)
  {
    forall i, j | 0 <= i < j < |r| ensures r[i] < r[j] {
      if r[i] == r[j] {
        TwoCopies(r, i, j);
        assert false;
      }
    }
  }

  /** `sorted(set(pitches))` holds each input pitch once, in increasing order. */
  lemma SetSortedCorrect(pitches: seq<int>)
    ensures var u := SetSorted(pitches);
      Increasing(u) && (forall x :: multiset(u)[x] <= 1) && |u| == |Distinct(pitches)| &&
      (forall i :: 0 <= i < |u| ==> u[i] in pitches) &&
      (forall i :: 0 <= i < |pitches| ==> pitches[i] in u)
  {
    var d := Distinct(pitches);
    var u := SetSorted(pitches);
    AscendingCorrect(d);
    IncreasingFromCounts(u, d);
    forall i | 0 <= i < |u| ensures u[i] in pitches {
      assert u[i] in multiset(u);
    }
    forall i | 0 <= i < |pitches| ensures pitches[i] in u {
      assert multiset(d)[pitches[i]] == 1;
      assert pitches[i] in multiset(u);
    }
  }

  /** A value of a nondecreasing sequence lies between its first and last entries. */
  lemma BetweenEnds(u: seq<int>, x: int)
    requires forall i, j :: 0 <= i < j < |u| ==> u[i] <= u[j]
    requires x in u
    ensures u[0] <= x <= u[|u| - 1]
  {
    var m :| 0 <= m < |u| && u[m] == x;
    if 0 < m {
      assert u[0] <= u[m];
    }
    if m < |u| - 1 {
      assert u[m] <= u[|u| - 1];
    }
  }

  /** The pitches `_piano_to_guitar_voicing` keeps: the distinct pitches, cut to six. */
  function Kept(pitches: seq<int>): seq<int>
  {
    ImportantNotes(SetSorted(pitches), 6)
  }

  /** Entries of a sub-multiset are entries of the whole. */
  lemma DrawnFrom(k: seq<int>, u: seq<int>)
    requires multiset(k) <= multiset(u)
    ensures forall i :: 0 <= i < |k| ==> k[i] in u
  {
    forall i | 0 <= i < |k| ensures k[i] in u {
      assert k[i] in multiset(k);
    }
  }

  /** A nondecreasing selection from a nondecreasing sequence that contains
      the sequence's first and last entries starts and ends with them. */
  lemma SameEnds(k: seq<int>, u: seq<int>)
    requires forall i, j :: 0 <= i < j < |k| ==> k[i] <= k[j]
    requires forall i, j :: 0 <= i < j < |u| ==> u[i] <= u[j]
    requires k != [] && u != [] && u[0] in k && u[|u| - 1] in k
    requires forall i :: 0 <= i < |k| ==> k[i] in u
    ensures k[0] == u[0] && k[|k| - 1] == u[|u| - 1]
  {
    BetweenEnds(k, u[0]);
    BetweenEnds(k, u[|u| - 1]);
    BetweenEnds(u, k[0]);
    BetweenEnds(u, k[|k| - 1]);
  }

  /** What the cut of more than six sorted distinct pitches `u` promises:
      six strictly increasing entries of `u`, its lowest and highest among them. */
  predicate CutShaped(k: seq<int>, u: seq<int>)
  {
    |u| > 6 && |k| == 6 && Increasing(k) && k[0] == u[0] && k[5] == u[|u| - 1] &&
    (forall i :: 0 <= i < 6 ==> k[i] in u)
  }

  /** What the selection itself promises about a cut of `u` to six. */
  predicate CutInput(k: seq<int>, u: seq<int>)
  {
    |u| > 6 && |k| == 6 && (forall i, j :: 0 <= i < j < |k| ==> k[i] <= k[j]) &&
    u[0] in k && u[|u| - 1] in k && multiset(k) <= multiset(u)
  }

  /** More than six strictly increasing pitches are cut to six distinct ones,
      the lowest and the highest among them. */
  lemma CutOf(u: seq<int>)
    requires Increasing(u) && (forall x :: multiset(u)[x] <= 1) && |u| > 6
    ensures CutShaped(ImportantNotes(u, 6), u)
  {
    var k := ImportantNotes(u, 6);
    ImportantNotesCorrect(u, 6);
    assert CutInput(k, u);
    CutShape(k, u);
  }

  /** The cut stated over the sequences alone. */
  lemma CutShape(k: seq<int>, u: seq<int>)
    requires Increasing(u) && (forall x :: multiset(u)[x] <= 1)
    requires CutInput(k, u)
    ensures CutShaped(k, u)
  {
    IncreasingFromCounts(k, u);
    DrawnFrom(k, u);
    SameEnds(k, u);
  }

  /** The kept pitches: none for no input, otherwise between one and six
      distinct input pitches in increasing order, the lowest and highest
      input pitch among them, and every input pitch when there are at most
      six distinct ones. */
  lemma KeptCorrect(pitches: seq<int>)
    ensures var k := Kept(pitches);
      var n := |Distinct(pitches)|;
      |k| == (if n <= 6 then n else 6) && Increasing(k) &&
      (k == [] <==> pitches == []) &&
      (forall i :: 0 <= i < |k| ==> k[i] in pitches) &&
      (n <= 6 ==> forall i :: 0 <= i < |pitches| ==> pitches[i] in k) &&
      (forall i :: 0 <= i < |pitches| ==> k[0] <= pitches[i] <= k[|k| - 1])
  {
    var u := SetSorted(pitches);
    var k := ImportantNotes(u, 6);
    assert k == Kept(pitches);
    SetSortedCorrect(pitches);
    if |u| > 6 {
      CutOf(u);
    }
    CutFacts(pitches, u, k);
  }

  /** What the cut to six of the sorted distinct pitches `u` of `p` gives,
      stated over the sequences alone. */
  lemma CutFacts(p: seq<int>, u: seq<int>, k: seq<int>)
    requires Increasing(u) && Increasing(k)
    requires forall i :: 0 <= i < |u| ==> u[i] in p
    requires forall i :: 0 <= i < |p| ==> p[i] in u
    requires |u| <= 6 ==> k == u
    requires |u| > 6 ==> CutShaped(k, u)
    ensures |k| == (if |u| <= 6 then |u| else 6) && (k == [] <==> p == []) &&
      (forall i :: 0 <= i < |k| ==> k[i] in p) &&
      (|u| <= 6 ==> forall i :: 0 <= i < |p| ==> p[i] in k) &&
      (forall i :: 0 <= i < |p| ==> k[0] <= p[i] <= k[|k| - 1])
  {
    if p != [] {
      assert p[0] in u;
    }
    if |u| > 6 {
      assert CutShaped(k, u);
    }
    forall i | 0 <= i < |k| ensures k[i] in p {
      assert k[i] in u;
      var j :| 0 <= j < |u| && u[j] == k[i];
    }
    forall i | 0 <= i < |p| ensures k[0] <= p[i] <= k[|k| - 1] {
      BetweenEnds(u, p[i]);
    }
  }

  /** Each pitch folded into the guitar range [40, 76]. */
  function GuitarPitches(pitches: seq<int>): (r: seq<int>)
    ensures |r| == |pitches|
  {
    seq(|pitches|, i requires 0 <= i < |pitches| => Fold(pitches[i], GuitarLow, GuitarHigh))
  }

  /** One note per pitch, all sharing velocity, onset and release. */
  function NotesAt(pitches: seq<int>, start: real, duration: real, velocity: int): (r: seq<MidiNote>)
    ensures |r| == |pitches|
  {
    seq(|pitches|, i requires 0 <= i < |pitches| => MidiNote(pitches[i], velocity, start, start + duration))
  }

  /** What `_piano_to_guitar_voicing` returns. */
  function VoicingNotes(pitches: seq<int>, start: real, duration: real, velocity: int): seq<MidiNote>
  {
    if pitches == [] then [] else NotesAt(GuitarPitches(Kept(pitches)), start, duration, velocity)
  }

  /** The loop of `_piano_to_guitar_voicing` that octave-folds every pitch into [40, 76]. */
  method FoldIntoGuitarRange(pitches: seq<int>) returns (guitarPitches: seq<int>)
    ensures guitarPitches == GuitarPitches(pitches)
  {
    guitarPitches := [];
    for i := 0 to |pitches|
      invariant |guitarPitches| == i
      invariant forall k :: 0 <= k < i ==> guitarPitches[k] == Fold(pitches[k], GuitarLow, GuitarHigh)
    {
      var pitch := RaiseThenLower(pitches[i], GuitarLow, GuitarHigh);
      guitarPitches := guitarPitches + [pitch];
    }
  }

  /** `_piano_to_guitar_voicing`: dedup and sort, cut to six, fold each pitch
      into [40, 76], and emit one note per pitch. */
  method PianoToGuitarVoicing(pitches: seq<int>, start: real, duration: real, velocity: int)
    returns (guitarNotes: seq<MidiNote>)
    ensures guitarNotes == VoicingNotes(pitches, start, duration, velocity)
  {
    if pitches == [] {
      return [];
    }
    var distinct := SetSorted(pitches);
    if |distinct| > 6 {
      distinct := SelectImportantNotes(distinct, 6);
    }
    assert distinct == Kept(pitches);
    var guitarPitches := FoldIntoGuitarRange(distinct);
    guitarNotes := [];
    for i := 0 to |guitarPitches|
      invariant |guitarNotes| == i
      invariant forall k :: 0 <= k < i ==> guitarNotes[k] == MidiNote(guitarPitches[k], velocity, start, start + duration)
    {
      guitarNotes := guitarNotes + [MidiNote(guitarPitches[i], velocity, start, start + duration)];
    }
  }

  /** The voicing: no notes for no pitches; otherwise one note per kept
      pitch, in [40, 76] and in the kept pitch's class (the kept pitch
      itself when it already lies there), all at the given velocity,
      starting at `start` and ending `duration` later. */
  lemma VoicingNotesCorrect(pitches: seq<int>, start: real, duration: real, velocity: int)
    ensures var r := VoicingNotes(pitches, start, duration, velocity);
      var k := Kept(pitches);
      (r == [] <==> pitches == []) && |r| == |k| && |r| <= 6 &&
      forall i :: 0 <= i < |r| ==>
        GuitarLow <= r[i].pitch <= GuitarHigh && r[i].pitch % 12 == k[i] % 12 &&
        (GuitarLow <= k[i] <= GuitarHigh ==> r[i].pitch == k[i]) &&
        r[i].velocity == velocity && r[i].start == start && r[i].end == start + duration
  {
    var r := VoicingNotes(pitches, start, duration, velocity);
    var k := Kept(pitches);
    KeptCorrect(pitches);
    assert pitches != [] ==> r == NotesAt(GuitarPitches(k), start, duration, velocity);
    if pitches != [] {
      forall i | 0 <= i < |r|
        ensures GuitarLow <= r[i].pitch <= GuitarHigh && r[i].pitch % 12 == k[i] % 12
        ensures GuitarLow <= k[i] <= GuitarHigh ==> r[i].pitch == k[i]
      {
        FoldInWindow(k[i], GuitarLow, GuitarHigh);
      }
    }
  }

  /** The `and middle_pitches` guard of the arrangement tool's copy of the
      selection: whenever a slot remains, the middle pitches are not empty. */
  lemma MiddleNonEmpty(pitches: seq<int>, maxNotes: nat)
    requires |pitches| > maxNotes && maxNotes > 2
    ensures |Middle(pitches)| >= maxNotes - 1 > 0
  {
  }

  // ---------------------------------------------------------------------------
  // Guitar rendition
  // ---------------------------------------------------------------------------

  /** The MIDI notes for the voicing's (pitch, start, duration, velocity)
      quadruples: each ends `duration` after it starts. */
  function ToMidi(data: seq<GuitarNote>): (r: seq<MidiNote>)
    ensures |r| == |data|
    ensures forall i :: 0 <= i < |data| ==>
      r[i] == MidiNote(data[i].pitch, data[i].velocity, data[i].start, data[i].start + data[i].duration)
  {
    if data == [] then []
    else [MidiNote(data[0].pitch, data[0].velocity, data[0].start, data[0].start + data[0].duration)] + ToMidi(data[1..])
  }

  /** A track's chord groups, made with the default tolerance. */
  function TrackGroups(inst: Instrument): (groups: seq<ChordGroup>)
    ensures NonEmptyGroups(groups)
  {
    GroupByTimeCorrect(inst.notes, Tolerance);
    GroupByTime(inst.notes, Tolerance)
  }

  /** The guitar notes one track contributes, reading the stream from `pos`. */
  function TrackGuitar(inst: Instrument, style: string, rng: nat -> real, pos: nat): seq<MidiNote>
  {
    ToMidi(ArrangeGroups(TrackGroups(inst), style, rng, pos))
  }

  /** Draws one track takes from the random stream. */
  function TrackDraws(inst: Instrument): nat
  {
    TotalDraws(TrackGroups(inst))
  }

  /** Where the random stream stands once one track has been voiced from `pos`. */
  function TrackEnd(inst: Instrument, pos: nat): nat
  {
    pos + TrackDraws(inst)
  }

  /** What `_convert_to_guitar` puts on the guitar track for the tracks from
      `i` on: each non-drum track grouped and voiced in turn, the random
      stream carried from one track to the next. */
  function GuitarFrom(instruments: seq<Instrument>, i: nat, style: string, rng: nat -> real, pos: nat): seq<MidiNote>
    requires i <= |instruments|
    decreases |instruments| - i
  {
    if i == |instruments| then []
    else if instruments[i].isDrum then GuitarFrom(instruments, i + 1, style, rng, pos)
    else
      TrackGuitar(instruments[i], style, rng, pos) +
        GuitarFrom(instruments, i + 1, style, rng, TrackEnd(instruments[i], pos))
  }

  /** Draws the guitar rendition of the tracks from `i` on takes from the random stream. */
  function DrawsFrom(instruments: seq<Instrument>, i: nat): nat
    requires i <= |instruments|
    decreases |instruments| - i
  {
    if i == |instruments| then 0
    else if instruments[i].isDrum then DrawsFrom(instruments, i + 1)
    else TrackDraws(instruments[i]) + DrawsFrom(instruments, i + 1)
  }

  /** Every note a guitar can play at a velocity the humanizer allows. */
  predicate GuitarPlayable(notes: seq<MidiNote>)
  {
    forall i :: 0 <= i < |notes| ==>
      GuitarLow <= notes[i].pitch <= GuitarHigh && 40 <= notes[i].velocity <= 127
  }

  /** The notes of playable quadruples are playable. */
  lemma ToMidiPlayable(data: seq<GuitarNote>)
    requires Playable(data)
    ensures GuitarPlayable(ToMidi(data))
  {
  }

  lemma GuitarPlayableConcat(a: seq<MidiNote>, b: seq<MidiNote>)
    requires GuitarPlayable(a) && GuitarPlayable(b)
    ensures GuitarPlayable(a + b)
  {
  }

  /** Every note one track contributes is playable. */
  lemma TrackGuitarPlayable(inst: Instrument, style: string, rng: nat -> real, pos: nat)
    ensures GuitarPlayable(TrackGuitar(inst, style, rng, pos))
  {
    var groups := TrackGroups(inst);
    ArrangeGroupsPlayable(groups, style, rng, pos);
    ToMidiPlayable(ArrangeGroups(groups, style, rng, pos));
  }

  /** Every note of the guitar rendition is playable. */
  lemma {:induction false} GuitarFromPlayable(instruments: seq<Instrument>, i: nat, style: string, rng: nat -> real, pos: nat)
    requires i <= |instruments|
    ensures GuitarPlayable(GuitarFrom(instruments, i, style, rng, pos))
    decreases |instruments| - i
  {
    if i < |instruments| {
      if instruments[i].isDrum {
        GuitarFromPlayable(instruments, i + 1, style, rng, pos);
      } else {
        var after := TrackEnd(instruments[i], pos);
        GuitarFromPlayable(instruments, i + 1, style, rng, after);
        TrackGuitarPlayable(instruments[i], style, rng, pos);
        GuitarPlayableConcat(TrackGuitar(instruments[i], style, rng, pos), GuitarFrom(instruments, i + 1, style, rng, after));
      }
    }
  }

  /** `_convert_to_guitar`: skip drum tracks, group each other track by
      onset, voice the groups, and turn every quadruple into a note ending
      `duration` after its start. */
  method ConvertToGuitar(instruments: seq<Instrument>, style: string, rng: nat -> real, pos: nat)
    returns (guitar: seq<MidiNote>, next: nat)
    ensures guitar == GuitarFrom(instruments, 0, style, rng, pos)
    ensures next == pos + DrawsFrom(instruments, 0)
  {
    guitar := [];
    next := pos;
    for i := 0 to |instruments|
      invariant GuitarSoFar(instruments, i, style, rng, pos, guitar, next)
    {
      var instrument := instruments[i];
      if instrument.isDrum {
        GuitarSkip(instruments, i, style, rng, pos, guitar, next);
        continue;
      }
      var guitarNoteData, after := VoiceTrack(instrument, style, rng, next);
      ghost var emitted := ToMidi(guitarNoteData);
      GuitarAdvance(instruments, i, style, rng, pos, guitar, next, emitted, after);
      guitar := AppendMidi(guitar, guitarNoteData);
      next := after;
    }
  }

  /** The loop invariant of `_convert_to_guitar`: the tracks before `i` are on
      the guitar track, and the stream stands where the rest begin. */
  predicate GuitarSoFar(instruments: seq<Instrument>, i: nat, style: string, rng: nat -> real, pos: nat,
                        guitar: seq<MidiNote>, next: nat)
  {
    i <= |instruments| &&
    guitar + GuitarFrom(instruments, i, style, rng, next) == GuitarFrom(instruments, 0, style, rng, pos) &&
    next + DrawsFrom(instruments, i) == pos + DrawsFrom(instruments, 0)
  }

  /** One track of `_convert_to_guitar`: group its notes by onset and voice
      the groups, reading the random stream from `pos`. */
  method VoiceTrack(instrument: Instrument, style: string, rng: nat -> real, pos: nat)
    returns (guitarNoteData: seq<GuitarNote>, after: nat)
    ensures ToMidi(guitarNoteData) == TrackGuitar(instrument, style, rng, pos)
    ensures after == TrackEnd(instrument, pos)
  {
    var chordGroups := GroupNotesByTime(instrument.notes, Tolerance);
    assert chordGroups == TrackGroups(instrument);
    guitarNoteData, after := ConvertPianoToGuitar(chordGroups, style, rng, pos);
    TrackOf(instrument, chordGroups, guitarNoteData, style, rng, pos, after);
  }

  /** A track's contribution and draws, in terms of its groups. */
  lemma TrackOf(inst: Instrument, groups: seq<ChordGroup>, data: seq<GuitarNote>,
                style: string, rng: nat -> real, pos: nat, after: nat)
    requires groups == TrackGroups(inst)
    requires data == ArrangeGroups(groups, style, rng, pos) && after == pos + TotalDraws(groups)
    ensures TrackGuitar(inst, style, rng, pos) == ToMidi(data) && after == TrackEnd(inst, pos)
  {
  }

  /** A drum track adds nothing to the guitar rendition and draws nothing. */
  lemma GuitarSkip(instruments: seq<Instrument>, i: nat, style: string, rng: nat -> real, pos: nat,
                   guitar: seq<MidiNote>, next: nat)
    requires i < |instruments| && instruments[i].isDrum
    requires GuitarSoFar(instruments, i, style, rng, pos, guitar, next)
    ensures GuitarSoFar(instruments, i + 1, style, rng, pos, guitar, next)
  {
  }

  /** One non-drum track of the guitar rendition: its notes, then the rest
      of the tracks reading the stream from where it stopped. */
  lemma GuitarAdvance(instruments: seq<Instrument>, i: nat, style: string, rng: nat -> real, pos: nat,
                      guitar: seq<MidiNote>, next: nat, emitted: seq<MidiNote>, after: nat)
    requires i < |instruments| && !instruments[i].isDrum
    requires emitted == TrackGuitar(instruments[i], style, rng, next) && after == TrackEnd(instruments[i], next)
    requires GuitarSoFar(instruments, i, style, rng, pos, guitar, next)
    ensures GuitarSoFar(instruments, i + 1, style, rng, pos, guitar + emitted, after)
  {
    assert GuitarFrom(instruments, i, style, rng, next) == emitted + GuitarFrom(instruments, i + 1, style, rng, after);
    ConcatAssoc(guitar, emitted, GuitarFrom(instruments, i + 1, style, rng, after));
  }


  /** The inner loop of `_convert_to_guitar`: append one note per quadruple. */
  method AppendMidi(notes: seq<MidiNote>, data: seq<GuitarNote>) returns (track: seq<MidiNote>)
    ensures track == notes + ToMidi(data)
  {
    ghost var line := ToMidi(data);
    track := notes;
    for j := 0 to |data|
      invariant |track| == |notes| + j
      invariant track[..|notes|] == notes
      invariant forall k :: 0 <= k < j ==> track[|notes| + k] == line[k]
    {
      var d := data[j];
      assert line[j] == MidiNote(d.pitch, d.velocity, d.start, d.start + d.duration);
      track := track + [MidiNote(d.pitch, d.velocity, d.start, d.start + d.duration)];
    }
  }

  // ---------------------------------------------------------------------------
  // Bass rendition
  // ---------------------------------------------------------------------------

  /** The bass range, E1 to G3. */
  const BassLow: int := 28
  const BassHigh: int := 55

  /** The lowest pitch among some notes (Python's `min`). */
  function MinPitch(notes: seq<MidiNote>): (m: int)
    requires notes != []
    ensures forall i :: 0 <= i < |notes| ==> m <= notes[i].pitch
    ensures exists i :: 0 <= i < |notes| && notes[i].pitch == m
  {
    if |notes| == 1 then notes[0].pitch
    else
      var low := MinPitch(notes[1..]);
      assert forall i :: 1 <= i < |notes| ==> notes[i] == notes[1..][i - 1];
      if notes[0].pitch <= low then notes[0].pitch else low
  }

  /** The bass note for one chord group: its lowest pitch, lowered and then
      raised by octaves into the bass range, at the group's onset, with the
      velocity and end of the group's first note. */
  function BassNote(group: ChordGroup): MidiNote
    requires group.notes != []
  {
    var root := RaiseInto(LowerInto(MinPitch(group.notes), BassHigh), BassLow);
    MidiNote(root, group.notes[0].velocity, group.time, group.notes[0].end)
  }

  /** One bass note per group, in group order. */
  function BassLine(groups: seq<ChordGroup>): (r: seq<MidiNote>)
    requires NonEmptyGroups(groups)
    ensures |r| == |groups|
    ensures forall k :: 0 <= k < |groups| ==> groups[k].notes != [] && r[k] == BassNote(groups[k])
  {
    if groups == [] then []
    else [BassNote(groups[0])] + BassLine(groups[1..])
  }

  /** The bass notes one track contributes. */
  function TrackBass(inst: Instrument): seq<MidiNote>
  {
    BassLine(TrackGroups(inst))
  }

  /** What `_convert_to_bass` puts on the bass track for the tracks from `i` on. */
  function BassFrom(instruments: seq<Instrument>, i: nat): seq<MidiNote>
    requires i <= |instruments|
    decreases |instruments| - i
  {
    if i == |instruments| then []
    else if instruments[i].isDrum then BassFrom(instruments, i + 1)
    else TrackBass(instruments[i]) + BassFrom(instruments, i + 1)
  }

  predicate BassPlayable(notes: seq<MidiNote>)
  {
    forall i :: 0 <= i < |notes| ==> BassLow <= notes[i].pitch <= BassHigh
  }

  /** A bass note lies in E1..G3, in the pitch class of the group's lowest
      note, which it keeps when that note is already in range; it sounds at
      the group's onset with the first note's velocity and end. */
  lemma BassNoteCorrect(group: ChordGroup)
    requires group.notes != []
    ensures var n := BassNote(group); var low := MinPitch(group.notes);
      BassLow <= n.pitch <= BassHigh && n.pitch % 12 == low % 12 &&
      (BassLow <= low <= BassHigh ==> n.pitch == low) &&
      n.velocity == group.notes[0].velocity && n.start == group.time && n.end == group.notes[0].end
  {
    FoldInWindow(MinPitch(group.notes), BassLow, BassHigh);
  }

  /** A track's bass line has one note per chord group, at the group's
      onset, so its onsets strictly increase; every note is in range. */
  lemma TrackBassCorrect(inst: Instrument)
    ensures var r := TrackBass(inst); var groups := TrackGroups(inst);
      |r| == |groups| && (r == [] <==> inst.notes == []) &&
      (forall k :: 0 <= k < |r| ==> r[k].start == groups[k].time) &&
      (forall j, k :: 0 <= j < k < |r| ==> r[j].start < r[k].start) &&
      BassPlayable(r)
  {
    GroupByTimeCorrect(inst.notes, Tolerance);
    var groups := TrackGroups(inst);
    forall k | 0 <= k < |groups|
      ensures BassLow <= TrackBass(inst)[k].pitch <= BassHigh
    {
      BassNoteCorrect(groups[k]);
    }
  }

  lemma BassPlayableConcat(a: seq<MidiNote>, b: seq<MidiNote>)
    requires BassPlayable(a) && BassPlayable(b)
    ensures BassPlayable(a + b)
  {
  }

  /** `_convert_to_bass`: for every non-drum track, group the notes by onset
      and emit one bass note per group; every note is in the bass range. */
  method ConvertToBass(instruments: seq<Instrument>) returns (bass: seq<MidiNote>)
    ensures bass == BassFrom(instruments, 0)
    ensures BassPlayable(bass)
  {
    bass := [];
    for i := 0 to |instruments|
      invariant bass + BassFrom(instruments, i) == BassFrom(instruments, 0)
      invariant BassPlayable(bass)
    {
      var instrument := instruments[i];
      if instrument.isDrum {
        continue;
      }
      var chordGroups := GroupNotesByTime(instrument.notes, Tolerance);
      assert chordGroups == TrackGroups(instrument);
      ghost var rest := BassFrom(instruments, i + 1);
      ghost var emitted := TrackBass(instrument);
      TrackBassCorrect(instrument);
      BassPlayableConcat(bass, emitted);
      var track := AppendBass(bass, chordGroups);
      ConcatAssoc(bass, emitted, rest);
      bass := track;
    }
  }

  /** The inner loop of `_convert_to_bass`: the lowest pitch of each group,
      folded into the bass range by the two `while` loops. */
  method AppendBass(notes: seq<MidiNote>, groups: seq<ChordGroup>) returns (track: seq<MidiNote>)
    requires NonEmptyGroups(groups)
    ensures track == notes + BassLine(groups)
  {
    ghost var line := BassLine(groups);
    track := notes;
    for j := 0 to |groups|
      invariant |track| == |notes| + j
      invariant track[..|notes|] == notes
      invariant forall k :: 0 <= k < j ==> track[|notes| + k] == line[k]
    {
      var group := groups[j];
      assert group.notes != [] && line[j] == BassNote(group);
      var rootPitch := LowerThenRaise(MinPitch(group.notes), BassLow, BassHigh);
      track := track + [MidiNote(rootPitch, group.notes[0].velocity, group.time, group.notes[0].end)];
    }
  }

  // ---------------------------------------------------------------------------
  // Strings rendition
  // ---------------------------------------------------------------------------

  /** The string ensemble's range, C2 to C6. */
  const StringsLow: int := 36
  const StringsHigh: int := 84

  /** A string note: the pitch raised and then lowered by octaves into range,
      ten louder but no louder than 127, at the same times. */
  function StringNote(n: MidiNote): MidiNote
  {
    MidiNote(Fold(n.pitch, StringsLow, StringsHigh), if n.velocity + 10 <= 127 then n.velocity + 10 else 127, n.start, n.end)
  }

  /** One string note per note, in order. */
  function StringsLine(notes: seq<MidiNote>): (r: seq<MidiNote>)
    ensures |r| == |notes|
    ensures forall k :: 0 <= k < |notes| ==> r[k] == StringNote(notes[k])
  {
    if notes == [] then [] else [StringNote(notes[0])] + StringsLine(notes[1..])
  }

  /** What `_convert_to_strings` puts on the strings track for the tracks from `i` on. */
  function StringsFrom(instruments: seq<Instrument>, i: nat): seq<MidiNote>
    requires i <= |instruments|
    decreases |instruments| - i
  {
    if i == |instruments| then []
    else if instruments[i].isDrum then StringsFrom(instruments, i + 1)
    else StringsLine(instruments[i].notes) + StringsFrom(instruments, i + 1)
  }

  /** Notes on the non-drum tracks from `i` on. */
  function PitchedNotes(instruments: seq<Instrument>, i: nat): nat
    requires i <= |instruments|
    decreases |instruments| - i
  {
    if i == |instruments| then 0
    else if instruments[i].isDrum then PitchedNotes(instruments, i + 1)
    else |instruments[i].notes| + PitchedNotes(instruments, i + 1)
  }

  /** A string note lies in C2..C6, in the note's pitch class, keeping the
      pitch when it is already in range; its velocity is the smaller of the
      original plus ten and 127; its times are the note's. */
  lemma StringNoteCorrect(n: MidiNote)
    ensures var s := StringNote(n);
      StringsLow <= s.pitch <= StringsHigh && s.pitch % 12 == n.pitch % 12 &&
      (StringsLow <= n.pitch <= StringsHigh ==> s.pitch == n.pitch) &&
      s.velocity <= 127 && s.velocity <= n.velocity + 10 &&
      (s.velocity == 127 || s.velocity == n.velocity + 10) &&
      s.start == n.start && s.end == n.end
  {
    FoldInWindow(n.pitch, StringsLow, StringsHigh);
  }

  /** The strings track holds exactly one note per note of the non-drum tracks. */
  lemma {:induction false} StringsFromCount(instruments: seq<Instrument>, i: nat)
    requires i <= |instruments|
    ensures |StringsFrom(instruments, i)| == PitchedNotes(instruments, i)
    decreases |instruments| - i
  {
    if i < |instruments| {
      StringsFromCount(instruments, i + 1);
    }
  }

  predicate StringsPlayable(notes: seq<MidiNote>)
  {
    forall i :: 0 <= i < |notes| ==> StringsLow <= notes[i].pitch <= StringsHigh && notes[i].velocity <= 127
  }

  /** `_convert_to_strings`: copy every note of every non-drum track, folded
      into the strings' range and ten louder; every note is in range. */
  method ConvertToStrings(instruments: seq<Instrument>) returns (strings: seq<MidiNote>)
    ensures strings == StringsFrom(instruments, 0)
    ensures |strings| == PitchedNotes(instruments, 0)
    ensures StringsPlayable(strings)
  {
    strings := [];
    StringsFromCount(instruments, 0);
    for i := 0 to |instruments|
      invariant strings + StringsFrom(instruments, i) == StringsFrom(instruments, 0)
      invariant StringsPlayable(strings)
    {
      var instrument := instruments[i];
      if instrument.isDrum {
        continue;
      }
      ghost var rest := StringsFrom(instruments, i + 1);
      var track := AppendStrings(strings, instrument.notes);
      ConcatAssoc(strings, StringsLine(instrument.notes), rest);
      strings := track;
    }
  }

  /** The inner loop of `_convert_to_strings`. */
  method AppendStrings(notes: seq<MidiNote>, source: seq<MidiNote>) returns (track: seq<MidiNote>)
    requires StringsPlayable(notes)
    ensures track == notes + StringsLine(source)
    ensures StringsPlayable(track)
  {
    track := notes;
    for j := 0 to |source|
      invariant |track| == |notes| + j
      invariant track[..|notes|] == notes
      invariant forall k :: 0 <= k < j ==> track[|notes| + k] == StringsLine(source)[k]
      invariant StringsPlayable(track)
    {
      var note := source[j];
      var pitch := RaiseThenLower(note.pitch, StringsLow, StringsHigh);
      StringNoteCorrect(note);
      var velocity := if note.velocity + 10 <= 127 then note.velocity + 10 else 127;
      track := track + [MidiNote(pitch, velocity, note.start, note.end)];
    }
  }
}
