/**
 * Note records shared by the arrangement engine, and the octave folding
 * that every converter applies to bring a pitch into an instrument's range.
 */
module Notes {

  /** A pretty_midi note: MIDI pitch and velocity, onset and release in seconds. */
  datatype MidiNote = MidiNote(pitch: int, velocity: int, start: real, end: real)

  /** A pretty_midi instrument track; drum tracks are skipped by every converter. */
  datatype Instrument = Instrument(isDrum: bool, notes: seq<MidiNote>)

  /** A chord event: the anchor onset of the group and its notes, in onset order. */
  datatype ChordGroup = ChordGroup(time: real, notes: seq<MidiNote>)

  /** The (pitch, start, duration) triple the strumming humanizer works on. */
  datatype StrumNote = StrumNote(pitch: int, start: real, duration: real)

  /** The (pitch, start, duration, velocity) quadruple the guitar voicing emits. */
  datatype GuitarNote = GuitarNote(pitch: int, start: real, duration: real, velocity: int)

  function Pitches(notes: seq<MidiNote>): (ps: seq<int>)
    ensures |ps| == |notes|
    ensures forall i :: 0 <= i < |notes| ==> ps[i] == notes[i].pitch
  {
    seq(|notes|, i requires 0 <= i < |notes| => notes[i].pitch)
  }

  /** What `while p < lo: p += 12` leaves: the first pitch of the class of `p` at or above `lo`. */
  function RaiseInto(p: int, lo: int): int
  {
    if p < lo then lo + (p - lo) % 12 else p
  }

  /** What `while p > hi: p -= 12` leaves: the last pitch of the class of `p` at or below `hi`. */
  function LowerInto(p: int, hi: int): int
  {
    if p > hi then hi - (hi - p) % 12 else p
  }

  /** Raise by octaves, then lower by octaves: the order the guitar and strings converters use. */
  function Fold(p: int, lo: int, hi: int): int
  {
    LowerInto(RaiseInto(p, lo), hi)
  }

  /** `RaiseInto` adds a whole number of octaves, and stops within one octave above `lo`. */
  lemma RaiseIntoOctaves(p: int, lo: int) returns (j: nat)
    ensures RaiseInto(p, lo) == p + 12 * j
    ensures p >= lo ==> j == 0
    ensures p < lo ==> lo <= RaiseInto(p, lo) < lo + 12
  {
    if p < lo {
      var r := (p - lo) % 12;
      var q := (p - lo) / 12;
      assert p - lo == 12 * q + r;
      j := -q;
    } else {
      j := 0;
    }
  }

  /** `LowerInto` removes a whole number of octaves, and stops within one octave below `hi`. */
  lemma LowerIntoOctaves(p: int, hi: int) returns (j: nat)
    ensures LowerInto(p, hi) == p - 12 * j
    ensures p <= hi ==> j == 0
    ensures p > hi ==> hi - 12 < LowerInto(p, hi) <= hi
  {
    if p > hi {
      var r := (hi - p) % 12;
      var q := (hi - p) / 12;
      assert hi - p == 12 * q + r;
      j := -q;
    } else {
      j := 0;
    }
  }

  /** The two `while` loops that octave-shift a pitch up to `lo`, then down to `hi`. */
  method RaiseThenLower(p: int, lo: int, hi: int) returns (pitch: int)
    ensures pitch == Fold(p, lo, hi)
  {
    ghost var up := RaiseIntoOctaves(p, lo);
    ghost var k: nat := 0;
    pitch := p;
    while pitch < lo
      invariant pitch == p + 12 * k && k <= up
      decreases lo - pitch
    {
      pitch, k := pitch + 12, k + 1;
    }
    ghost var raised := pitch;
    ghost var down := LowerIntoOctaves(raised, hi);
    k := 0;
    while pitch > hi
      invariant pitch == raised - 12 * k && k <= down
      decreases pitch - hi
    {
      pitch, k := pitch - 12, k + 1;
    }
  }

  /** The two `while` loops of the bass converter: down to `hi` first, then up to `lo`. */
  method LowerThenRaise(p: int, lo: int, hi: int) returns (pitch: int)
    ensures pitch == RaiseInto(LowerInto(p, hi), lo)
  {
    ghost var down := LowerIntoOctaves(p, hi);
    ghost var k: nat := 0;
    pitch := p;
    while pitch > hi
      invariant pitch == p - 12 * k && k <= down
      decreases pitch - hi
    {
      pitch, k := pitch - 12, k + 1;
    }
    ghost var lowered := pitch;
    ghost var up := RaiseIntoOctaves(lowered, lo);
    k := 0;
    while pitch < lo
      invariant pitch == lowered + 12 * k && k <= up
      decreases lo - pitch
    {
      pitch, k := pitch + 12, k + 1;
    }
  }

  /** For a window at least an octave wide, both loop orders land on the same
      pitch: inside the window, in the pitch class of the input, and equal to
      the input when it already lay inside. */
  lemma FoldInWindow(p: int, lo: int, hi: int)
    requires hi - lo >= 11
    ensures lo <= Fold(p, lo, hi) <= hi
    ensures Fold(p, lo, hi) % 12 == p % 12
    ensures RaiseInto(LowerInto(p, hi), lo) == Fold(p, lo, hi)
    ensures lo <= p <= hi ==> Fold(p, lo, hi) == p
  {
  }
}
