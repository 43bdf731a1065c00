/**
 * GuitarFretboard: the standard-tuning and chord-shape tables, the lookup
 * that resolves a shape to MIDI pitches, and the interval-template chord
 * recogniser.
 */
module Fretboard {
  import opened Wrappers

  /** Open-string pitches, low E to high E. */
  const StandardTuning: seq<int> := [40, 45, 50, 55, 59, 64]

  /** The marker for a string that is not played, both as a fret and as a pitch. */
  const Muted: int := -1

  /** One fingering: a fret per string, low to high, `Muted` for an unplayed string. */
  type Frets = (int, int, int, int, int, int)

  /** The fingerings of a chord; the table never holds an empty list. */
  type Variants = s: seq<Frets> | |s| > 0 witness [(0, 0, 0, 0, 0, 0)]

  const ChordShapes: map<string, Variants> := map[
    "C" := [(-1, 3, 2, 0, 1, 0), (0, 3, 2, 0, 1, 0)],
    "Cmaj7" := [(0, 3, 2, 0, 0, 0)],
    "C7" := [(0, 3, 2, 3, 1, 0)],
    "D" := [(-1, -1, 0, 2, 3, 2)],
    "Dm" := [(-1, -1, 0, 2, 3, 1)],
    "D7" := [(-1, -1, 0, 2, 1, 2)],
    "E" := [(0, 2, 2, 1, 0, 0)],
    "Em" := [(0, 2, 2, 0, 0, 0)],
    "E7" := [(0, 2, 0, 1, 0, 0)],
    "F" := [(1, 3, 3, 2, 1, 1)],
    "Fm" := [(1, 3, 3, 1, 1, 1)],
    "G" := [(3, 2, 0, 0, 0, 3), (3, 2, 0, 0, 3, 3)],
    "Gm" := [(3, 5, 5, 3, 3, 3)],
    "G7" := [(3, 2, 0, 0, 0, 1)],
    "A" := [(-1, 0, 2, 2, 2, 0)],
    "Am" := [(-1, 0, 2, 2, 1, 0)],
    "A7" := [(-1, 0, 2, 0, 2, 0)],
    "B" := [(-1, 2, 4, 4, 4, 2)],
    "Bm" := [(-1, 2, 4, 4, 3, 2)],
    "B7" := [(-1, 2, 1, 2, 0, 2)]
  ]

  /** The names of the table, in the order the source lists them. */
  const ChordNames: seq<string> :=
    ["C", "Cmaj7", "C7", "D", "Dm", "D7", "E", "Em", "E7", "F", "Fm",
     "G", "Gm", "G7", "A", "Am", "A7", "B", "Bm", "B7"]

  function FretOf(f: Frets, s: nat): int
    requires s < 6
  {
    match s
    case 0 => f.0
    case 1 => f.1
    case 2 => f.2
    case 3 => f.3
    case 4 => f.4
    case 5 => f.5
  }

  /** The variant a lookup uses: the requested one, or the first when out of range. */
  function VariantIndex(variants: Variants, position: nat): (k: nat)
    ensures k < |variants|
    ensures position < |variants| ==> k == position
    ensures position >= |variants| ==> k == 0
  {
    if position >= |variants| then 0 else position
  }

  /** `get_chord_voicing`: None for a name the table lacks; otherwise one pitch
      per string, `Muted` exactly where the fingering mutes the string and the
      open-string pitch plus the fret elsewhere. */
  function ChordVoicing(name: string, position: nat): (r: Option<seq<int>>)
    ensures r.None? <==> name !in ChordShapes
    ensures r.Some? ==> |r.value| == 6
    ensures r.Some? ==>
      var frets := ChordShapes[name][VariantIndex(ChordShapes[name], position)];
      forall i :: 0 <= i < 6 ==>
        (r.value[i] == Muted <==> FretOf(frets, i) == Muted) &&
        (FretOf(frets, i) != Muted ==> r.value[i] == StandardTuning[i] + FretOf(frets, i))
  {
    if name !in ChordShapes then None
    else
      var variants := ChordShapes[name];
      var frets := variants[VariantIndex(variants, position)];
      Some(seq(6, i requires 0 <= i < 6 =>
        if FretOf(frets, i) == Muted then Muted else StandardTuning[i] + FretOf(frets, i)))
  }

  /** The key set of the table is exactly the listed names. */
  lemma ChordNamesAreTheKeys()
    ensures forall name :: name in ChordShapes <==> name in ChordNames
  {
    assert ChordShapes.Keys == set n | n in ChordNames;
  }

  /** Every fingering of the table plays each string open or fretted up to
      the fifth fret, so every sounding pitch it yields lies in [40, 67]. */
  lemma TableFretsInRange(name: string, v: nat, i: nat)
    requires name in ChordShapes && v < |ChordShapes[name]| && i < 6
    ensures FretOf(ChordShapes[name][v], i) == Muted || 0 <= FretOf(ChordShapes[name][v], i) <= 5
    ensures FretOf(ChordShapes[name][v], i) != Muted ==>
      40 <= StandardTuning[i] + FretOf(ChordShapes[name][v], i) <= 67
  {
    ChordNamesAreTheKeys();
  }

  /** A resolved table voicing has six entries, each muted or a pitch in [40, 67]. */
  lemma {:induction false} ChordVoicingRange(name: string, position: nat)
    requires name in ChordShapes
    ensures ChordVoicing(name, position).Some?
    ensures forall i :: 0 <= i < 6 ==>
      ChordVoicing(name, position).value[i] == Muted ||
      40 <= ChordVoicing(name, position).value[i] <= 67
  {
    var variants := ChordShapes[name];
    var k := VariantIndex(variants, position);
    forall i | 0 <= i < 6
      ensures ChordVoicing(name, position).value[i] == Muted ||
              40 <= ChordVoicing(name, position).value[i] <= 67
    {
      TableFretsInRange(name, k, i);
    }
  }

  /** A position beyond the listed variants silently selects the first one. */
  lemma ChordVoicingWraps(name: string, position: nat)
    requires name in ChordShapes && position >= |ChordShapes[name]|
    ensures ChordVoicing(name, position) == ChordVoicing(name, 0)
  {
  }

  // ---------------------------------------------------------------------------
  // Chord recognition
  // ---------------------------------------------------------------------------

  const NoteNames: seq<string> := ["C", "C#", "D", "D#", "E", "F", "F#", "G", "G#", "A", "A#", "B"]

  /** The chord templates, tried in the order the source's dictionary lists them. */
  datatype Quality = Major | Minor | Dominant7

  const Templates: seq<Quality> := [Major, Minor, Dominant7]

  function Intervals(q: Quality): set<int>
  {
    match q
    case Major => {0, 4, 7}
    case Minor => {0, 3, 7}
    case Dominant7 => {0, 4, 7, 10}
  }

  function Suffix(q: Quality): string
  {
    match q
    case Major => ""
    case Minor => "m"
    case Dominant7 => "7"
  }

  /** The distinct pitch classes of a pitch list (Python's `p % 12` is never negative, as here). */
  function PitchClasses(pitches: seq<int>): (classes: set<int>)
    ensures classes == {} <==> pitches == []
  {
    var classes := set p | p in pitches :: p % 12;
    assert pitches != [] ==> pitches[0] in pitches && pitches[0] % 12 in classes;
    classes
  }

  lemma PitchClassesCons(pitches: seq<int>)
    requires pitches != []
    ensures PitchClasses(pitches) == {pitches[0] % 12} + PitchClasses(pitches[1..])
  {
    forall c | c in PitchClasses(pitches)
      ensures c in {pitches[0] % 12} + PitchClasses(pitches[1..])
    {
      var p :| p in pitches && p % 12 == c;
      if p != pitches[0] {
        assert p in pitches[1..];
      }
    }
    forall c | c in PitchClasses(pitches[1..])
      ensures c in PitchClasses(pitches)
    {
      var p :| p in pitches[1..] && p % 12 == c;
      assert p in pitches;
    }
    assert pitches[0] in pitches;
  }

  /** The lowest pitch class present: the recogniser's root. */
  function LowestClass(pitches: seq<int>): (root: int)
    requires pitches != []
    ensures 0 <= root < 12
    ensures root in PitchClasses(pitches)
    ensures forall c :: c in PitchClasses(pitches) ==> root <= c
  {
    if |pitches| == 1 then
      assert pitches[0] in pitches;
      pitches[0] % 12
    else
      var rest := LowestClass(pitches[1..]);
      PitchClassesCons(pitches);
      if pitches[0] % 12 <= rest then pitches[0] % 12 else rest
  }

  /** The intervals of the present pitch classes above the root, reduced into [0, 11]. */
  function IntervalsAbove(classes: set<int>, root: int): set<int>
  {
    set c | c in classes :: (c - root) % 12
  }

  /** The first template, in the given order, all of whose intervals are present. */
  function FirstMatch(templates: seq<Quality>, present: set<int>): (r: Option<Quality>)
    ensures r.Some? ==> r.value in templates && Intervals(r.value) <= present
    ensures r.None? <==> forall q :: q in templates ==> !(Intervals(q) <= present)
  {
    if templates == [] then None
    else if Intervals(templates[0]) <= present then Some(templates[0])
    else FirstMatch(templates[1..], present)
  }

  /** Over the source's template order: major wins whenever it fits, then minor, then the seventh. */
  lemma FirstMatchInOrder(present: set<int>)
    ensures FirstMatch(Templates, present) ==
      if Intervals(Major) <= present then Some(Major)
      else if Intervals(Minor) <= present then Some(Minor)
      else if Intervals(Dominant7) <= present then Some(Dominant7)
      else None
  {
    assert Templates[1..] == [Minor, Dominant7];
    assert Templates[1..][1..] == [Dominant7];
    assert Templates[1..][1..][1..] == [];
  }

  /** `recognize_chord_from_pitches`. */
  function RecognizeChord(pitches: seq<int>): (r: string)
    ensures pitches == [] ==> r == "N"
    ensures pitches != [] ==>
      var root := LowestClass(pitches);
      var present := IntervalsAbove(PitchClasses(pitches), root);
      r == NoteNames[root] +
        (if Intervals(Major) <= present then ""
         else if Intervals(Minor) <= present then "m"
         else if Intervals(Dominant7) <= present then "7"
         else "")
  {
    if pitches == [] then "N"
    else
      var root := LowestClass(pitches);
      FirstMatchInOrder(IntervalsAbove(PitchClasses(pitches), root));
      match FirstMatch(Templates, IntervalsAbove(PitchClasses(pitches), root))
      case Some(q) => NoteNames[root] + Suffix(q)
      case None => NoteNames[root]
  }

  /** The label depends on nothing but the set of pitch classes present. */
  lemma RecognizeDependsOnClasses(a: seq<int>, b: seq<int>)
    requires PitchClasses(a) == PitchClasses(b)
    ensures RecognizeChord(a) == RecognizeChord(b)
  {
    if a != [] {
      assert LowestClass(a) == LowestClass(b);
    }
  }

  /** Moving any pitch by whole octaves does not change the label. */
  lemma RecognizeIgnoresOctaves(a: seq<int>, b: seq<int>)
    requires |a| == |b|
    requires forall i :: 0 <= i < |a| ==> a[i] % 12 == b[i] % 12
    ensures RecognizeChord(a) == RecognizeChord(b)
  {
    forall c | c in PitchClasses(a) ensures c in PitchClasses(b) {
      var i :| 0 <= i < |a| && a[i] % 12 == c;
      assert b[i] in b;
    }
    forall c | c in PitchClasses(b) ensures c in PitchClasses(a) {
      var i :| 0 <= i < |b| && b[i] % 12 == c;
      assert a[i] in a;
    }
    RecognizeDependsOnClasses(a, b);
  }

  /** Repeating a pitch already present does not change the label. */
  lemma RecognizeIgnoresDuplicates(a: seq<int>, i: nat)
    requires i < |a|
    ensures RecognizeChord(a + [a[i]]) == RecognizeChord(a)
  {
    assert PitchClasses(a + [a[i]]) == PitchClasses(a) by {
      forall c | c in PitchClasses(a + [a[i]]) ensures c in PitchClasses(a) {
        var p :| p in a + [a[i]] && p % 12 == c;
        assert p in a;
      }
      forall c | c in PitchClasses(a) ensures c in PitchClasses(a + [a[i]]) {
        var p :| p in a && p % 12 == c;
        assert p in a + [a[i]];
      }
    }
    RecognizeDependsOnClasses(a, a + [a[i]]);
  }

  /** The dominant-seventh template can never win: every interval set that
      contains it also contains the major triad, which is tried first. So a
      label is "N", a root name or a root name with "m", and never ends in "7". */
  lemma RecognizeNeverSeventh(pitches: seq<int>)
    ensures var name := RecognizeChord(pitches);
      name == "N" ||
      exists r :: 0 <= r < 12 && (name == NoteNames[r] || name == NoteNames[r] + "m")
    ensures RecognizeChord(pitches) != [] && RecognizeChord(pitches)[|RecognizeChord(pitches)| - 1] != '7'
  {
    var name := RecognizeChord(pitches);
    if pitches != [] {
      var root := LowestClass(pitches);
      RootOrMinor(pitches, root);
      NoteNameEnd(root);
      if name != NoteNames[root] {
        assert name == NoteNames[root] + "m";
        assert name[|name| - 1] == 'm';
      }
    }
  }

  /** Over a non-empty pitch list the label is the lowest class's name, possibly followed by "m". */
  lemma RootOrMinor(pitches: seq<int>, root: int)
    requires pitches != [] && root == LowestClass(pitches)
    ensures 0 <= root < 12
    ensures RecognizeChord(pitches) == NoteNames[root] || RecognizeChord(pitches) == NoteNames[root] + "m"
  {
    FirstMatchInOrder(IntervalsAbove(PitchClasses(pitches), root));
  }

  lemma NoteNameEnd(r: int)
    requires 0 <= r < 12
    ensures NoteNames[r] != [] && NoteNames[r][|NoteNames[r]| - 1] != '7'
  {
  }

  /** Above a root low enough that nothing wraps past B, the intervals are the plain differences. */
  lemma IntervalsAboveUnwrapped(r: int, x: int, y: int)
    requires 0 <= r && 0 < x < y && r + y < 12
    ensures IntervalsAbove({r, r + x, r + y}, r) == {0, x, y}
  {
    assert (r - r) % 12 == 0 && (r + x - r) % 12 == x && (r + y - r) % 12 == y;
  }

  /** A root-position major triad whose root class is at most E (so its fifth
      does not wrap past B) is named after its root. */
  lemma RecognizeMajorTriad(pitches: seq<int>, r: int)
    requires 0 <= r <= 4
    requires PitchClasses(pitches) == {r, r + 4, r + 7}
    ensures RecognizeChord(pitches) == NoteNames[r]
  {
    assert LowestClass(pitches) == r;
    IntervalsAboveUnwrapped(r, 4, 7);
    FirstMatchInOrder({0, 4, 7});
  }

  /** The same for a minor triad, which is named after its root with "m". */
  lemma RecognizeMinorTriad(pitches: seq<int>, r: int)
    requires 0 <= r <= 4
    requires PitchClasses(pitches) == {r, r + 3, r + 7}
    ensures RecognizeChord(pitches) == NoteNames[r] + "m"
  {
    assert LowestClass(pitches) == r;
    IntervalsAboveUnwrapped(r, 3, 7);
    FirstMatchInOrder({0, 3, 7});
    assert !({0, 4, 7} <= {0, 3, 7});
  }

  lemma PitchClassesOfTriad(x: int, y: int, z: int)
    ensures PitchClasses([x, y, z]) == {x % 12, y % 12, z % 12}
  {
    var a := [x, y, z];
    assert x in a && y in a && z in a;
    forall c | c in PitchClasses(a) ensures c in {x % 12, y % 12, z % 12} {
      var p :| p in a && p % 12 == c;
    }
  }

  /** The C - Am - F - G progression of the repository's arrangement test.
      Only the C chord is in root position with its fifth below B. The A minor
      chord [57, 60, 64] and the F chord [53, 57, 60] both have C as their
      lowest pitch class, giving the intervals {0, 4, 9} and {0, 5, 9}: no
      template matches and both are named "C". The G chord [55, 59, 62] has
      classes {2, 7, 11}: root D, intervals {0, 5, 9}, named "D". */
  lemma ProgressionLabels()
    ensures RecognizeChord([60, 64, 67]) == "C"
    ensures RecognizeChord([57, 60, 64]) == "C"
    ensures RecognizeChord([53, 57, 60]) == "C"
    ensures RecognizeChord([55, 59, 62]) == "D"
  {
    PitchClassesOfTriad(60, 64, 67);
    RecognizeMajorTriad([60, 64, 67], 0);
    AMinorLabel([57, 60, 64]);
    FMajorLabel([53, 57, 60]);
    GMajorLabel([55, 59, 62]);
  }

  /** Every template holds the fifth: without it nothing matches. */
  lemma NoMatchWithoutFifth(present: set<int>)
    requires 7 !in present
    ensures FirstMatch(Templates, present) == None
  {
    FirstMatchInOrder(present);
    assert 7 in Intervals(Major) && 7 in Intervals(Minor) && 7 in Intervals(Dominant7);
  }

  /** The label read off from the classes present, their lowest one and the intervals above it. */
  lemma LabelFromClasses(pitches: seq<int>, classes: set<int>, root: int, present: set<int>)
    requires pitches != [] && PitchClasses(pitches) == classes
    requires root in classes && forall c :: c in classes ==> root <= c
    requires IntervalsAbove(classes, root) == present
    ensures RecognizeChord(pitches) ==
      match FirstMatch(Templates, present)
      case Some(q) => NoteNames[root] + Suffix(q)
      case None => NoteNames[root]
  {
    assert LowestClass(pitches) == root;
  }

  /** A chord with no pitch a fifth above its lowest pitch class matches no
      template and is named after that class alone. */
  lemma LabelWithoutFifth(a: seq<int>, root: int, k: nat)
    requires k < |a| && a[k] % 12 == root
    requires forall p :: p in a ==> root <= p % 12 && (p % 12 - root) % 12 != 7
    ensures RecognizeChord(a) == NoteNames[root]
  {
    var classes := PitchClasses(a);
    assert a[k] in a;
    assert root in classes;
    var lowest := LowestClass(a);
    var q :| q in a && q % 12 == lowest;
    assert lowest == root;
    var present := IntervalsAbove(classes, root);
    forall c | c in present ensures c != 7 {
      var d :| d in classes && c == (d - root) % 12;
      var p :| p in a && p % 12 == d;
    }
    NoMatchWithoutFifth(present);
  }

  lemma AMinorLabel(a: seq<int>)
    requires a == [57, 60, 64]
    ensures RecognizeChord(a) == "C"
  {
    LabelWithoutFifth(a, 0, 1);
  }

  lemma FMajorLabel(a: seq<int>)
    requires a == [53, 57, 60]
    ensures RecognizeChord(a) == "C"
  {
    LabelWithoutFifth(a, 0, 2);
  }

  lemma GMajorLabel(a: seq<int>)
    requires a == [55, 59, 62]
    ensures RecognizeChord(a) == "D"
  {
    LabelWithoutFifth(a, 2, 2);
  }
}
