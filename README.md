# Guitar arrangement engine — a Dafny model

This project models the symbolic guitar-arrangement engine of Algorhythm. The engine takes the notes of a
MIDI file's tracks and produces idiomatic guitar, bass and string parts. Its parts are:

- **Note grouper.** It sorts a track's notes by onset and cuts them into chord groups. A note joins the
  current group when its onset lies within 0.05 s of the group's anchor time.
- **Fretboard.** A standard-tuning table (E2 A2 D3 G3 B3 E4) and a 20-entry table of chord fingerings,
  with a lookup that resolves a fingering to six MIDI pitches (or a muted marker).
- **Chord recogniser.** It takes the lowest pitch class as the root and tests the interval templates
  major, minor and dominant seventh in that order.
- **Fallback voicing.** Used for chords the table lacks. It caps the pitches at six by keeping the first
  and last ones and spreading picks over the middle, then folds each pitch by octaves into [40, 76].
- **Strumming humaniser.** It staggers the onsets of a chord `down` (low to high), `up` (high to low) or
  `down-up` (two half-length strums); any other pattern is passed through unchanged. It then perturbs
  each velocity and clamps it to [40, 127].
- **Smart voicing pipeline.** Per chord group: recognise, voice, strum (`rock` → `down-up`, anything
  else → `down`), and vary velocities.
- **Arrangement converters.** Guitar: every non-drum track, grouped, through the smart voicing. Bass: the
  lowest note of each group folded into [28, 55]. Strings: every note folded into [36, 84], velocity
  raised by 10 and capped at 127. A second, plain piano-to-guitar voicing helper dedups and sorts the
  pitches, keeps at most six, and folds them into [40, 76].

The model has seven modules, one per file:

- `Wrappers`: `Option`, for Python's `None`.
- `Sorting`: a stable insertion sort standing for Python's `sorted(key=...)`.
- `Notes`: note records and the octave-folding loops.
- `Fretboard`: the `GuitarFretboard` class.
- `Humanizer`: the `StrummingHumanizer` class.
- `SmartVoicing`: the `SmartGuitarVoicing` class.
- `Arrangement`: the arrangement tool's helpers.

Each routine that builds a list in a loop is a `method` whose loop is proved equal to a specification
`function`. The source's promises are proved as lemmas about those functions. The methods are:

- `apply_strumming_pattern` and `add_velocity_variation`;
- `convert_piano_to_guitar`, `_fallback_voicing` and `_select_important_notes`;
- the folding `while` loops;
- `_group_notes_by_time`, `_piano_to_guitar_voicing`, `_convert_to_guitar`, `_convert_to_bass` and `_convert_to_strings`.

One routine is an exception. `get_chord_voicing` builds its six pitches in a loop, but the model has only the
function `Fretboard.ChordVoicing`, since that loop is a plain map over the six strings.

The random draws `np.random.uniform` makes become a parameter. `rng: nat -> real` gives the raw
uniform samples in [0, 1), and a stream position `pos` says where the next one is read. The draws are
rescaled exactly as `uniform(a, b) = a + (b - a)·u` and consumed in the source's order:

- one jitter draw per note for a humanised `down` or `up` strum;
- then one velocity draw per strummed note.

Every method that reads `rng` (SmartVoicing.StrumAndVary, SmartVoicing.ConvertGroup,
SmartVoicing.ConvertPianoToGuitar, Arrangement.VoiceTrack, Arrangement.ConvertToGuitar) also returns the
position after its draws. The two humaniser methods, Humanizer.ApplyStrummingPattern and
Humanizer.AddVelocityVariation, take their draws as sequences instead.

## Model

| member | source | states |
|---|---|---|
| Notes.Pitches | src/tools/smart_guitar_voicing.py:260 | The pitch list has one entry per note, the i-th note's pitch. |
| Notes.RaiseIntoOctaves | src/tools/arrangement_tool.py:294-295 | Raising by octaves adds a whole number of octaves: none if the pitch is already at or above the floor, otherwise enough to land in the octave just above it. |
| Notes.LowerIntoOctaves | src/tools/arrangement_tool.py:298-299 | Lowering by octaves subtracts a whole number of octaves: none if the pitch is already at or below the ceiling, otherwise enough to land in the octave just below it. |
| Notes.RaiseThenLower | src/tools/smart_guitar_voicing.py:321-327 | The two `while` loops (raise first, then lower) compute the fold of the pitch into the window. |
| Notes.LowerThenRaise | src/tools/arrangement_tool.py:371-374 | The bass converter's loops (lower first, then raise) compute the raise of the lowered pitch. |
| Notes.FoldInWindow | src/tools/smart_guitar_voicing.py:322-326 | In a window at least an octave wide, the fold lies in the window and keeps the pitch class. It fixes pitches already inside. It agrees with folding in the opposite order. |
| Sorting.SortByCorrect | src/tools/smart_guitar_voicing.py:163 | Python's stable `sorted`: the result is a permutation of the input, ordered by key, and keeps the input order among equal keys. |
| Sorting.SortByOrdered | src/tools/arrangement_tool.py:235 | Sorting by onset permutes the notes into nondecreasing onset order. |
| Sorting.SortByStable | src/tools/arrangement_tool.py:235 | Notes with equal onsets keep their relative input order. |
| Fretboard.VariantIndex | src/tools/smart_guitar_voicing.py:79-81 | A position past the last fingering selects fingering 0; any other position selects itself. |
| Fretboard.ChordVoicing | src/tools/smart_guitar_voicing.py:76-94 | `None` exactly when the name is not a table key. Otherwise six entries: muted exactly where the fret is muted, else open-string pitch plus fret. |
| Fretboard.ChordNamesAreTheKeys | src/tools/smart_guitar_voicing.py:28-62 | The table holds exactly the 20 listed chord names. |
| Fretboard.TableFretsInRange | src/tools/smart_guitar_voicing.py:28-62 | Every fingering in the table is muted or fretted at 0..5, so every sounding string yields a pitch in [40, 67]. |
| Fretboard.ChordVoicingRange | src/tools/smart_guitar_voicing.py:83-94 | Any resolved table voicing has only muted entries or pitches in [40, 67]. |
| Fretboard.ChordVoicingWraps | src/tools/smart_guitar_voicing.py:80-81 | An out-of-range position resolves to the same voicing as position 0. |
| Fretboard.PitchClasses | src/tools/smart_guitar_voicing.py:111 | The pitch-class set is empty exactly when there are no pitches. |
| Fretboard.LowestClass | src/tools/smart_guitar_voicing.py:124 | The root is a pitch class in 0..11 that occurs in the input and is the least of them. |
| Fretboard.FirstMatch | src/tools/smart_guitar_voicing.py:130-132 | A match is a template whose intervals are all present; no match exactly when no template's intervals are all present. |
| Fretboard.FirstMatchInOrder | src/tools/smart_guitar_voicing.py:114-132 | Templates are tried major, then minor, then dominant seventh, and the first one wholly present wins. |
| Fretboard.RecognizeDependsOnClasses | src/tools/smart_guitar_voicing.py:107-111 | Two pitch lists with the same pitch-class set get the same label. |
| Fretboard.RecognizeIgnoresOctaves | src/tools/smart_guitar_voicing.py:111 | Shifting any pitch by octaves does not change the label. |
| Fretboard.RecognizeIgnoresDuplicates | src/tools/smart_guitar_voicing.py:111 | Repeating a pitch already present does not change the label. |
| Fretboard.RecognizeNeverSeventh | src/tools/smart_guitar_voicing.py:114-136 | Every label is "N", a root name or a root name with "m". No label ends in "7", because a dominant seventh always matches the major template first. |
| Fretboard.RootOrMinor | src/tools/smart_guitar_voicing.py:124-136 | For a non-empty list, the label is the lowest pitch class's name, with or without "m". |
| Fretboard.RecognizeMajorTriad | src/tools/smart_guitar_voicing.py:116 | A root-position major triad with root C..E is named by its root. |
| Fretboard.RecognizeMinorTriad | src/tools/smart_guitar_voicing.py:118 | A root-position minor triad with root C..E is named by its root plus "m". |
| Fretboard.NoMatchWithoutFifth | src/tools/smart_guitar_voicing.py:130-134 | Without a perfect fifth above the root, no template matches. |
| Fretboard.RecognizeChord | src/tools/smart_guitar_voicing.py:97-136 | "N" for no pitches. Otherwise the lowest pitch class's name plus the suffix of the first template (major, then minor, then dominant seventh) whose intervals above that class are all present, or the bare name when none is (see LabelFromClasses, RootOrMinor, RecognizeNeverSeventh). |
| Fretboard.LabelFromClasses | src/tools/smart_guitar_voicing.py:123-136 | The label is the root's name plus the suffix of the first matching template, or the bare root name when none matches. |
| Fretboard.LabelWithoutFifth | src/tools/smart_guitar_voicing.py:134-136 | A chord with no fifth above its lowest pitch class is named by that root alone. |
| Fretboard.ProgressionLabels | src/tools/smart_guitar_voicing.py:124-136 | The C, Am, F, G triads used by the arrangement test are labelled C, C, C, D. |
| Fretboard.AMinorLabel | src/tools/smart_guitar_voicing.py:124-136 | A-minor [57, 60, 64] is labelled "C": its lowest class is 0 and it has no fifth above C. |
| Fretboard.FMajorLabel | src/tools/smart_guitar_voicing.py:124-136 | F-major [53, 57, 60] is labelled "C". |
| Fretboard.GMajorLabel | src/tools/smart_guitar_voicing.py:124-136 | G-major [55, 59, 62] is labelled "D". |
| Humanizer.ByPitchOrdered | src/tools/smart_guitar_voicing.py:163 | Sorting by pitch gives a permutation of the notes in ascending pitch. |
| Humanizer.ByPitchReversed | src/tools/smart_guitar_voicing.py:180 | Reversing the pitch-sorted notes gives a permutation in descending pitch. |
| Humanizer.ReversePermutes | src/tools/smart_guitar_voicing.py:180 | Reversal is a permutation. |
| Humanizer.SweepLoop | src/tools/smart_guitar_voicing.py:169-176 | The strum loop builds exactly the specified sweep. |
| Humanizer.HalfSweepLoop | src/tools/smart_guitar_voicing.py:193-195 | The down-up loop builds exactly the specified half sweep. |
| Humanizer.ApplyStrummingPattern | src/tools/smart_guitar_voicing.py:159-206 | Returns the specified strum. It has 2n notes for a non-empty `down-up` and n otherwise. Empty input or an unknown pattern returns the input unchanged. |
| Humanizer.SweepShape | src/tools/smart_guitar_voicing.py:169-176 | The i-th swept note keeps its pitch and duration. Its delay is i·0.01, or with humanize within [i·0.008 + 0.002, i·0.008 + 0.007]. |
| Humanizer.DownStrum | src/tools/smart_guitar_voicing.py:167-176 | A down strum is a permutation of the input in ascending pitch. Each note keeps its duration and is delayed within its window. |
| Humanizer.UpStrum | src/tools/smart_guitar_voicing.py:178-186 | An up strum is a permutation in descending pitch, with the same delays. |
| Humanizer.StrumOnsetsIncrease | src/tools/smart_guitar_voicing.py:167-186 | For notes sharing one onset t, the `down` and `up` onsets strictly increase in strum order and stay within [t, t + (n−1)·0.01 + 0.007]. |
| Humanizer.SweepOnsets | src/tools/smart_guitar_voicing.py:169-176 | The same onset bounds and strict increase for a single sweep. |
| Humanizer.ByPitchFirstIsLowest | src/tools/smart_guitar_voicing.py:190 | The first pitch-sorted note has the lowest pitch, so it supplies the half duration. |
| Humanizer.DownUpStrum | src/tools/smart_guitar_voicing.py:188-200 | `down-up` gives 2n notes, each lasting half the lowest note's duration, and uses no draws. The first half goes up the pitches; the second comes back down, shifted by the half duration. |
| Humanizer.DownUpHalves | src/tools/smart_guitar_voicing.py:188-200 | `down-up` is a half-length sweep up followed by a half-length sweep down shifted by the half duration. |
| Humanizer.DownUpShape | src/tools/smart_guitar_voicing.py:192-200 | Pitch, onset and duration of each of the 2n notes of the two half sweeps. |
| Humanizer.StrummedPitchesFromInput | src/tools/smart_guitar_voicing.py:159-206 | Every strummed note plays a pitch of the input, whatever the pattern. |
| Humanizer.Trunc | src/tools/smart_guitar_voicing.py:227 | Python's `int()` on a float truncates toward zero. |
| Humanizer.VariedVelocity | src/tools/smart_guitar_voicing.py:227-228 | Every varied velocity lies in [40, 127], whatever the input velocity and draw. |
| Humanizer.AddVelocityVariation | src/tools/smart_guitar_voicing.py:223-231 | The loop keeps length, order, pitch, onset and duration. It replaces each velocity by its varied value, which lies in [40, 127]. |
| Humanizer.ClampCloser | src/tools/smart_guitar_voicing.py:228 | For an in-range velocity, clamping never moves it further than the offset, nor the other way. |
| Humanizer.VariationBounded | src/tools/smart_guitar_voicing.py:227-228 | An in-range velocity changes by at most velocity·variation. |
| Humanizer.TruncBounded | src/tools/smart_guitar_voicing.py:227 | Truncation stays inside a symmetric bound. |
| SmartVoicing.Middle | src/tools/smart_guitar_voicing.py:341 | The middle is what lies between the first and last pitch. |
| SmartVoicing.PickIndex | src/tools/smart_guitar_voicing.py:342-344 | Each pick index lies inside the middle. |
| SmartVoicing.PickIndexIncreases | src/tools/smart_guitar_voicing.py:342-345 | When the middle has at least as many pitches as slots, successive picks take strictly later positions. |
| SmartVoicing.Picks | src/tools/smart_guitar_voicing.py:343-345 | One pick per remaining slot. |
| SmartVoicing.PicksSubMultiset | src/tools/smart_guitar_voicing.py:341-345 | The picks take each middle pitch no more often than it occurs. |
| SmartVoicing.AscendingCorrect | src/tools/smart_guitar_voicing.py:347 | The final `sorted` is an ascending permutation. |
| SmartVoicing.ChosenFromInput | src/tools/smart_guitar_voicing.py:337-345 | The selection has max(maxNotes, 2) pitches, including the first and last input pitches, each taken from the input no more often than it occurs. |
| SmartVoicing.SelectImportantNotes | src/tools/smart_guitar_voicing.py:331-347 | The loop builds exactly the specified selection. |
| SmartVoicing.ImportantNotesCorrect | src/tools/smart_guitar_voicing.py:331-347 | An input of at most maxNotes is returned unchanged. Otherwise the result has max(maxNotes, 2) pitches, ascending, contains the first and last input pitches, and is a sub-multiset of the input. |
| SmartVoicing.FallbackVoicing | src/tools/smart_guitar_voicing.py:316-329 | The loops build exactly the specified fallback voicing. |
| SmartVoicing.FallbackCorrect | src/tools/smart_guitar_voicing.py:316-329 | The result has len(input) pitches if at most 6, else 6, all in [40, 76]. Each shares its pitch class with an input pitch, position for position when nothing was cut. When more than 6 were given, position by position the class of the 6 important notes kept by `_select_important_notes`. |
| SmartVoicing.PatternFor | src/tools/smart_guitar_voicing.py:282-287 | `rock` strums `down-up`; every other style strums `down`. |
| SmartVoicing.Sounding | src/tools/smart_guitar_voicing.py:277-279 | The played strings contain no muted entry. Every unmuted voicing entry is kept, exactly as often as it occurs. |
| SmartVoicing.GroupVoicingRange | src/tools/smart_guitar_voicing.py:263-270 | A group's voicing (table or fallback) has at most 6 entries, each muted or in [40, 76]. |
| SmartVoicing.StrumInput | src/tools/smart_guitar_voicing.py:290 | One strum triple per played string. |
| SmartVoicing.PlayedNotes | src/tools/smart_guitar_voicing.py:276-290 | The loop skips muted strings and emits one note per played string at the group's time and duration. |
| SmartVoicing.WithVelocity | src/tools/smart_guitar_voicing.py:298 | Every strummed note keeps its pitch, onset and duration and takes the given group velocity. |
| SmartVoicing.JitterSeqInRange | src/tools/smart_guitar_voicing.py:172 | Rescaled unit draws are jitters in [0.002, 0.007]. |
| SmartVoicing.VoicingFor | src/tools/smart_guitar_voicing.py:263-270 | The method picks the table voicing of the recognised chord, or the fallback when the name has none. |
| SmartVoicing.StrumAndVary | src/tools/smart_guitar_voicing.py:289-299 | The method computes the specified strummed and varied chord. It uses exactly two draws per played string. |
| SmartVoicing.ConvertGroup | src/tools/smart_guitar_voicing.py:258-301 | One group's notes, as specified. There is one per played string (two for `rock`), all playable, and the group's draws are used. |
| SmartVoicing.ConvertPianoToGuitar | src/tools/smart_guitar_voicing.py:241-303 | The loop concatenates the groups' notes in order. Their count is the played strings (twice for `rock`), and all are playable. |
| SmartVoicing.ChordNotesRange | src/tools/smart_guitar_voicing.py:272-279 | A group yields at most 6 chord notes, in [40, 76], at the group's time, lasting the first note's duration. |
| SmartVoicing.StrumChordKeepsNotes | src/tools/smart_guitar_voicing.py:297-299 | Varying velocities keeps every strummed note's pitch, onset and duration. Each velocity is the chord velocity varied by that note's own draw, in [40, 127]. |
| SmartVoicing.StrumChordVelocity | src/tools/smart_guitar_voicing.py:227-228 | With unit draws, every note of a chord whose velocity is in [40, 127] stays within velocity·0.15 of that velocity. |
| SmartVoicing.ArrangeOneVelocity | src/tools/smart_guitar_voicing.py:274-299 | Every note of a group takes the group's first-note velocity, varied by its own velocity draw. |
| SmartVoicing.StrumChordPlayable | src/tools/smart_guitar_voicing.py:289-299 | A strummed chord has one note per chord note (two for `rock`). Each plays a chord pitch at a velocity in [40, 127]. |
| SmartVoicing.StrumChordDown | src/tools/smart_guitar_voicing.py:282-295 | A non-rock strum of notes sharing onset and duration keeps the duration. Its onsets strictly increase within the strum window. |
| SmartVoicing.StrumChordDownUp | src/tools/smart_guitar_voicing.py:284-295 | A rock strum plays the chord twice, each note lasting half the duration. |
| SmartVoicing.StrumChordShape | src/tools/smart_guitar_voicing.py:281-299 | Both strum cases of one chord: note count, pitches, velocity range, onsets and durations. |
| SmartVoicing.ArrangeOnePlayable | src/tools/smart_guitar_voicing.py:258-301 | One group gives one note per played string (two for `rock`), with pitch in [40, 76] and velocity in [40, 127]. |
| SmartVoicing.ArrangeOneShape | src/tools/smart_guitar_voicing.py:258-301 | One group has at most 6 played strings. Its down-strum onsets strictly increase from the group time, or its rock notes last half the group duration. When the first note's velocity v is in [40, 127], every note's velocity is within v·0.15 of v. |
| SmartVoicing.ArrangeGroupsPlayable | src/tools/smart_guitar_voicing.py:256-303 | All groups together: the note count is the played strings (twice for `rock`), and every note is playable. |
| SmartVoicing.DrawsPerString | src/tools/smart_guitar_voicing.py:256-303 | The pipeline takes exactly two random draws per played string. |
| Arrangement.Abs | src/tools/arrangement_tool.py:242 | The absolute value is non-negative and equals the value or its negation. |
| Arrangement.GroupNotesByTime | src/tools/arrangement_tool.py:231-255 | The grouping loop builds exactly the specified groups. |
| Arrangement.GroupFromCorrect | src/tools/arrangement_tool.py:241-253 | Scanning sorted notes from an open group yields groups that start at its anchor and, read in order, are exactly the notes. Every group is well formed and anchors rise by more than the tolerance. |
| Arrangement.TimesIncrease | src/tools/arrangement_tool.py:245-249 | Anchors that rise by more than a non-negative tolerance at each step strictly increase. |
| Arrangement.GroupSortedCorrect | src/tools/arrangement_tool.py:237-255 | Grouping sorted notes: no groups exactly for no notes, the groups flatten back to the notes, and the grouping is well formed. |
| Arrangement.GroupByTimeCorrect | src/tools/arrangement_tool.py:231-255 | No notes give no groups. Read in order, the groups are the notes stably sorted by onset, a permutation. Each group is non-empty, anchored at its first note's onset, and holds only notes within the tolerance of it. Successive anchors differ by more than the tolerance, so they strictly increase. |
| Arrangement.Distinct | src/tools/arrangement_tool.py:283 | `set(pitches)`: each input pitch exactly once, nothing else. |
| Arrangement.SetSortedCorrect | src/tools/arrangement_tool.py:283 | The deduplicated, sorted pitches strictly increase. They hold exactly the input's values. |
| Arrangement.CutOf | src/tools/arrangement_tool.py:286-288 | Cutting more than six distinct sorted pitches keeps six, strictly increasing, with the lowest and highest among them. |
| Arrangement.KeptCorrect | src/tools/arrangement_tool.py:283-288 | The kept pitches are min(distinct count, 6) input pitches, strictly increasing, and include the input's lowest and highest pitch. Empty exactly for empty input; all distinct pitches when at most six. |
| Arrangement.GuitarPitches | src/tools/arrangement_tool.py:291-301 | One folded pitch per kept pitch. |
| Arrangement.NotesAt | src/tools/arrangement_tool.py:304-312 | One note per folded pitch. |
| Arrangement.FoldIntoGuitarRange | src/tools/arrangement_tool.py:291-301 | The folding loops compute the specified guitar pitches. |
| Arrangement.PianoToGuitarVoicing | src/tools/arrangement_tool.py:279-314 | The method computes the specified voicing notes. |
| Arrangement.VoicingNotesCorrect | src/tools/arrangement_tool.py:279-314 | No pitches give no notes. Otherwise there are at most 6, one per kept pitch, in [40, 76] with the same pitch class (unchanged if already inside), all at the given onset, end and velocity. |
| Arrangement.MiddleNonEmpty | src/tools/arrangement_tool.py:329-336 | Whenever a slot remains, the middle is non-empty, so the extra `and middle_pitches` guard never changes the selection. |
| Arrangement.ToMidi | src/tools/arrangement_tool.py:208-215 | Each guitar tuple becomes a note with the same pitch, velocity and onset and end = start + duration. |
| Arrangement.TrackGroups | src/tools/arrangement_tool.py:199 | A track's chord groups are all non-empty. |
| Arrangement.ToMidiPlayable | src/tools/arrangement_tool.py:208-215 | Converting playable guitar tuples gives playable notes. |
| Arrangement.TrackGuitarPlayable | src/tools/arrangement_tool.py:199-215 | One track's guitar notes are all in [40, 76] with velocity in [40, 127]. |
| Arrangement.GuitarFromPlayable | src/tools/arrangement_tool.py:194-215 | The guitar part of any tracks is playable. |
| Arrangement.ConvertToGuitar | src/tools/arrangement_tool.py:194-215 | The loop skips drum tracks and appends each other track's grouped, voiced notes in order. It consumes exactly the tracks' draws. |
| Arrangement.VoiceTrack | src/tools/arrangement_tool.py:198-205 | One track: group, then voice; gives the specified notes and stream position. |
| Arrangement.GuitarSkip | src/tools/arrangement_tool.py:195-196 | Skipping a drum track keeps the loop invariant. |
| Arrangement.GuitarAdvance | src/tools/arrangement_tool.py:199-215 | Appending a voiced track keeps the loop invariant. |
| Arrangement.AppendMidi | src/tools/arrangement_tool.py:208-215 | The inner loop appends the converted notes to the track. |
| Arrangement.MinPitch | src/tools/arrangement_tool.py:368 | The lowest pitch of a group is the pitch of one of its notes and no greater than any. |
| Arrangement.BassLine | src/tools/arrangement_tool.py:366-383 | One bass note per chord group, in order. |
| Arrangement.BassNoteCorrect | src/tools/arrangement_tool.py:366-383 | The bass note is the group's lowest pitch folded into [28, 55] with the same pitch class, unchanged if already inside. It sounds at the group's time with the first note's velocity and end. |
| Arrangement.TrackBassCorrect | src/tools/arrangement_tool.py:362-383 | One bass note per group, none exactly for an empty track. Onsets are the group times, so they strictly increase, and every pitch is in [28, 55]. |
| Arrangement.ConvertToBass | src/tools/arrangement_tool.py:358-383 | The loop skips drum tracks and appends every other track's bass line in order. All pitches are in [28, 55]. |
| Arrangement.AppendBass | src/tools/arrangement_tool.py:366-383 | The inner loop appends one bass note per group. |
| Arrangement.StringsLine | src/tools/arrangement_tool.py:410-425 | One strings note per source note, in order. |
| Arrangement.StringNoteCorrect | src/tools/arrangement_tool.py:411-424 | The pitch is folded into [36, 84] with the same pitch class, unchanged if already inside. Velocity is min(v + 10, 127); onset and end are unchanged. |
| Arrangement.StringsFromCount | src/tools/arrangement_tool.py:406-425 | The strings part has exactly one note per note of the non-drum tracks. |
| Arrangement.ConvertToStrings | src/tools/arrangement_tool.py:406-425 | The loop copies every non-drum note, folded and louder, in order. That is one per source note, every pitch in [36, 84] and velocity at most 127. |
| Arrangement.AppendStrings | src/tools/arrangement_tool.py:410-425 | The inner loop appends one strings note per source note and keeps the part in range. |

## Left out

- `_run`, `_arun` and `arrange_music` of the arrangement tool (src/tools/arrangement_tool.py:437, 458) are left out. They check files, load and write MIDI with pretty_midi, and name output paths, all of which is I/O. They also pass the output path positionally into `style`, a wrapper-level slip outside the engine.
- pretty_midi objects are left out: `PrettyMIDI` and `Instrument` objects become the records `MidiNote` and `Instrument`, and a converter returns the note list of its single output track. Program numbers and track names are not modelled.
- The global `np.random.uniform` generator is not modelled. Its draws are the parameter `rng` read at an explicit stream position, and unit draws are assumed in [0, 1).
- Floating-point rounding is not modelled: times are exact `real`s.
  - This covers onsets, durations and delays.
  - It also covers the velocity offset `velocity * variation * uniform(-1, 1)`. 0.15 has no exact binary form, so where the float product rounds across an integer, Python's `int()` can differ by one from Humanizer.VariationAmount. The clamp to [40, 127] holds either way.
- SmartVoicing.PickIndex computes `int(i * (len(middle) / remaining))` with exact division. This matches floating point whenever `remaining` is a power of two, which covers the only call site (`remaining = 4`).
- Fretboard.ChordVoicing takes a natural-number position. Python's negative indexing of the variant list is not modelled; the engine only ever passes the default 0.
- Arrangement.ConvertToGuitar states that its output is playable through the lemma Arrangement.GuitarFromPlayable about its specification function, not in its own `ensures`.
- The chord recogniser follows the code, not the intended musical behaviour. The root is the lowest pitch *class*, and templates are tried in the order major, minor, dominant seventh. So "…7" names are unreachable, and inversions that wrap past C are mislabelled (A-minor and F-major are labelled "C", G-major "D").
- Velocity variation follows the code's `int()` truncation toward zero, not rounding to nearest.
- The arrangement tool's own `_select_important_notes` (src/tools/arrangement_tool.py:316-338) is not modelled separately. It differs from the smart voicing's only by the `and middle_pitches` guard, and Arrangement.MiddleNonEmpty shows that guard is always true when a slot remains. Both copies are modelled by SmartVoicing.ImportantNotes.
- An empty chord group would raise `IndexError` at `notes[0]` (src/tools/smart_guitar_voicing.py:273). The model requires non-empty groups instead, and Arrangement.GroupByTimeCorrect proves the grouper never produces an empty one.
- The theory, rendering and hearing tools, the agent and LLM clients, and the demo scripts are not part of this model: they are floating-point signal processing, foreign models, network clients and I/O.
