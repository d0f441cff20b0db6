# ScorePlayer core, modelled in Dafny

ScorePlayer plays MusicXML scores on one of three output devices. The devices are:

- a simulated computer keyboard, where every pitch becomes a letter key of a jianpu (numbered-notation) layout;
- a sampler that plays recorded piano samples;
- a MIDI output port.

This project models the parts of ScorePlayer that decide what is played and how:

- **Range planner.** It computes a score's pitch range and tempo. It then either plays every part, or plays only the first part, moved by whole octaves towards the device's range.
- **Player.** It holds the score list, the selection, the play, pause and stop flags, and the random or sequential choice of the next score. While a score plays, it tracks tied notes from element to element.
- **Device logic**, one module per device:
  - the keyboard's pitch-to-key mapping and octave folding;
  - the sampler's sample table, its flat-to-sharp respelling and its played/skipped partition;
  - the MIDI device's table of sounding notes, with note-on, note-off and all-notes-off messages.
- **Filter utility.** It moves the scores whose range suits the keyboard from a staging directory into the score directory.

Module layout:

| file | module | models |
|---|---|---|
| music.dfy | `Music` | pitches, names with octave, MIDI numbers, score elements, range bounds |
| score.dfy | `ScoreAnalysis` | `score.py` |
| player.dfy | `Transport` | `player.py` |
| keyboard.dfy | `KeyboardBackend` | `playback/pynput_backend.py` |
| midi.dfy | `MidiBackend` | `playback/midi_backend.py` |
| samples.dfy | `SampleBackend` | `playback/sample_backend.py` |
| filter.dfy | `ScoreFilter` | `utils/filter_suitable_scores.py` |

The notation library's objects are modelled as values:

- A pitch is a letter, an alteration and an octave. Its `nameWithOctave` spelling is derived from these, and its MIDI number is 12·(octave+1) + the letter's semitone + the alteration, without bounds.
- Transposing a pitch by a whole number of semitones gives the default spelling of the new MIDI number: the naturals, and C#, E-, F#, G#, B- for the black keys.
- A score is its loose elements, its parts, and its metronome marks.

Each effect of the outside world becomes a parameter:

- whether parsing, chordify or transposition raises;
- the element after which a stop request arrives;
- the random draw;
- which sample files exist and load;
- whether a MIDI port opens;
- whether moving a file succeeds.

Each device is modelled by what it emits:

- the keys it presses;
- the samples it starts;
- the MIDI messages it sends.

Each imperative method is proved against a function that specifies it. The lemmas state the promises of the source about those functions.

## Model

| member | source | states |
|---|---|---|
| Music.DigitsRoundTrip | playback/pynput_backend.py:30-34 | reading back the decimal digits of an octave number gives that number |
| Music.BoundsAreExtremes | score.py:52-66 | the running (min, max) of a list is its least and greatest element, and both occur in it |
| Music.BoundsShift | score.py:175-184 | adding the same amount to every number moves both bounds by that amount |
| Music.SpellMidi | score.py:175-179 | the default spelling of a MIDI number has that MIDI number, uses only naturals and C#, E-, F#, G#, B-, and sits in octave floor(m/12)-1 |
| Music.SpellMidiOfSpelled | score.py:175-179 | a pitch already in the default spelling is the default spelling of its own MIDI number |
| Music.ShiftOctaves | score.py:175-179 | transposing by 12k semitones moves the MIDI number by 12k; no transposition leaves the pitch as it is; any real transposition yields the default spelling |
| Music.ShiftKeepsDefaultSpelling | score.py:175-179 | a pitch in the default spelling keeps its name and moves its octave number by k |
| Music.ShiftRespells | playback/pynput_backend.py:69-77 | other spellings are respelled: A#2 up an octave is B-3, E#2 up an octave is F3, C-5 down one is B3 |
| ScoreAnalysis.RangeOf | score.py:50-78 | no range exactly when there is no note element or no element carries a pitch |
| ScoreAnalysis.RangeOfExtremes | score.py:63-78 | a reported range is the lowest and the highest MIDI number of the score, both of which occur |
| ScoreAnalysis.WidenAll | score.py:63-66 | widening the running bounds by each pitch of an element gives the bounds of everything seen so far |
| ScoreAnalysis.ScoreRange | score.py:50-78 | the accumulator loop returns the range of the score |
| ScoreAnalysis.TempoBpm | score.py:80-109 | the tempo is positive; it is the first metronome mark's number when the lookup works and that number is positive, and 120 in every other case |
| ScoreAnalysis.OnlyFirstMarkCounts | score.py:83-86 | marks after the first never change the tempo |
| ScoreAnalysis.CeilTwelfths | score.py:170-173 | the octave count is the least whole number of octaves covering the distance |
| ScoreAnalysis.MelodyShift | score.py:166-173 | whole octaves; a too-low melody's lowest note lands in the octave above the device minimum; else a too-high melody's highest note lands in the octave below the maximum; else no shift |
| ScoreAnalysis.LoadAndPrepare | score.py:111-206 | "No Notes" exactly when the parsed score has no notes; "No Melody Notes" exactly when it does not fit and its first part has no notes; "Error Loading" exactly when parsing raises, the score does not fit and has no parts, or a needed transposition raises; "+Transposed" exactly when the melody is moved; each failure label carries no elements, no shifting and the default tempo; full mode plays the chordified score (the flat score when chordify raises) and melody mode plays the first part moved by the melody shift; on success the score's tempo, and per-note shifting exactly in full mode |
| ScoreAnalysis.FullModeIff | score.py:134-150 | full mode is chosen exactly when the score's range lies within the device range widened by the tolerance |
| ScoreAnalysis.RangeOfShift | score.py:175-184 | moving every element by k octaves moves both ends of the range by 12k |
| ScoreAnalysis.MelodyLandsInRange | score.py:152-186 | in melody mode the transposed first part reaches the device range at the low end, or else at the high end, and is not shifted per note |
| ScoreAnalysis.LowEndWins | score.py:168-173 | a melody that is both too low and too high is moved up |
| Transport.BackendRange | player.py:49-64 | a configured device gets its configured range; any other device gets C3..B5 |
| Transport.MidiDeviceGetsFallback | player.py:50-64 | the MIDI device has no configured range and gets 48..83; the sampler gets 36..92 |
| Transport.Candidates | player.py:287-297 | random mode draws from every index except a valid current one, or from all indices when that would leave none |
| Transport.NextIndex | player.py:277-304 | the result is -1 or a valid index; -1 for an empty list and for an unknown mode |
| Transport.RandomPick | player.py:297 | the choice is one of the candidates, the drawn one when the draw is in range |
| Transport.RandomNextIndex | player.py:284-297 | random mode yields a valid index: 0 for one score, otherwise never a valid current one |
| Transport.SequentialNextIndex | player.py:298-300 | sequential mode yields a valid index: the one after the current one (0 from nothing selected), wrapping from the last index to 0 |
| Transport.RandomChoiceCoversOthers | player.py:284-298 | every index other than the current one can be drawn |
| Transport.NoteTie | player.py:139-157 | a note is a continuation exactly when its name is tracked; afterwards it is tracked, with this pitch, exactly when its tie starts or continues |
| Transport.NoteTieFrame | player.py:139-157 | a note leaves every other name's entry as it was, so a tracker keyed by pitch name stays so |
| Transport.TiedInChordMembers | player.py:159-164 | the tied list holds exactly the tracked entries of the chord's tracked pitches |
| Transport.NothingTrackedNothingTied | player.py:161-164 | a chord none of whose pitches is tracked passes no tied pitches |
| Transport.CollectTied | player.py:160-164 | the collecting loop builds the tied list in chord order |
| Transport.CarriedOnKeys | player.py:169-181 | after a chord, exactly the names of its notes whose tie starts or continues are tracked, so other pitches are dropped |
| Transport.CollectCarried | player.py:170-181 | the loop builds the new tracker of a chord |
| Transport.FailureSticks | player.py:204-217 | once a device call has raised, the pass makes no further calls |
| Transport.PlayScore | player.py:115-202 | the element loop makes the calls of the elements it reaches before a stop, and ends failed, stopped or finished |
| Transport.CorrectedRunNeverFails | player.py:139-185 | when every device accepts the tie arguments, no pass fails |
| Transport.StepKeepsWellKeyed | player.py:139-181 | one element keeps the tracker mapping each name to a pitch spelled with that name |
| Transport.RunKeepsWellKeyed | player.py:139-181 | the tracker maps each name to a pitch spelled with that name, throughout a pass |
| Transport.RestKeepsTracker | player.py:183-185 | a rest leaves the tracker unchanged and adds one rest call |
| Transport.TieAcrossThreeNotes | player.py:139-157 | for C4 tied start, continue, stop: the second and third notes are continuations and C4 is no longer tracked afterwards |
| Transport.InterfaceMismatchFails | player.py:149-167 | as written, a keyboard or sample device fails exactly when the first note or chord is reached, and only rests get through |
| Transport.KeyboardFirstNoteFails | player.py:149 | a one-note score fails on the keyboard device without any device call |
| Transport.AsWrittenIsPrefixOfCorrected | player.py:139-185 | the calls a keyboard or sample device gets are a prefix of those the MIDI device gets for the same elements, and both runs agree until the first one fails |
| Transport.StepKeepsPrefix | player.py:139-185 | one element keeps that prefix relation |
| Transport.Player.constructor | player.py:36-67 | nothing selected, idle, and the device's range |
| Transport.Player.Stop | player.py:341-356 | when playing, it requests a stop and clears the pause; otherwise nothing changes |
| Transport.Player.PauseResume | player.py:358-367 | it toggles the pause only while playing |
| Transport.Player.StartThread | player.py:259-275 | it sets the path and playing together when the thread starts, and clears both when it does not |
| Transport.Player.StartOrResume | player.py:306-339 | no scores: no change; paused: only unpause; playing: no change; idle: play the selection, or select the next index and play it |
| Transport.Player.ChangeTrack | player.py:369-388 | it selects (selected+direction+n) mod n, stopping a running pass first; it never starts one; no change without scores |
| Transport.Player.NextTrack | player.py:390-391 | the selection moves to the next score, cyclically |
| Transport.Player.PrevTrack | player.py:393-394 | the selection moves to the previous score cyclically; from nothing selected it goes to n-2 |
| Transport.Player.UpdateScoreList | player.py:396-403 | -1 for an empty list, the last index when the selection fell off the end, otherwise unchanged |
| Transport.Player.FinishRun | player.py:252-256 | idle, unpaused and without a path; the selection is kept |
| Transport.Player.PlaybackIteration | player.py:74-110 | a stop request or a missing path ends the thread without a call; a failed preparation ends it without a call; otherwise the prepared elements are played as PlayPrepared states |
| Transport.Player.PlayPrepared | player.py:112-251 | the calls are those of the run with the device's own acceptance of the tie argument (the MIDI device's run never fails); a failed run ends the thread and leaves the selection, path and flags alone; a stop ends it through stop; a natural finish without a stop in the pause selects the next score and continues when there is one |
| KeyboardBackend.JianpuBase | playback/pynput_backend.py:36-38 | each letter gets a jianpu digit 1..7 |
| KeyboardBackend.OctaveMark | playback/pynput_backend.py:40-45 | one dot above per octave above 4, one dot below per octave below 4 |
| KeyboardBackend.Jianpu | playback/pynput_backend.py:25-47 | a jianpu key exists exactly when the name is a note letter, an optional `#` or `-`, then a digit; it starts with that letter's digit |
| KeyboardBackend.JianpuOfPitch | playback/pynput_backend.py:25-47 | a pitch's name with octave reads back as its letter's digit and its own octave's dots |
| KeyboardBackend.KeyMapCoversOctaves3To5 | config.py:34-38 | the key map has a key for a letter's digit and octave dots exactly in octaves 3..5 |
| KeyboardBackend.FoldShift | playback/pynput_backend.py:69-77 | folding moves whole octaves: a low pitch lands in C3..B3, a high pitch in C5..B5, an in-range pitch stays |
| KeyboardBackend.KeyAndModifier | playback/pynput_backend.py:63-98 | it reports the original name and the shift; no key means no modifier |
| KeyboardBackend.KeyAndModifierSpec | playback/pynput_backend.py:79-98 | there is a key exactly when the folded pitch's jianpu key is in the key map; the modifier follows the folded pitch's accidental as respelled (the pitch's own when it is not folded) |
| KeyboardBackend.PitchClassModifier | playback/pynput_backend.py:87-92 | Shift for pitch classes 1, 6, 8 (C#, F#, G#), Ctrl for 3 and 10 (E-, B-), none otherwise |
| KeyboardBackend.FoldedPitchesMapped | playback/pynput_backend.py:69-98 | a folded pitch always gets a key, and its modifier follows its pitch class, not its spelling (A#2 is pressed with Ctrl) |
| KeyboardBackend.FoldedSpelling | playback/pynput_backend.py:69-92 | a pitch folded into C3..B5 is default spelled and its accidental's modifier is its pitch class's |
| KeyboardBackend.SameClassAfterFold | playback/pynput_backend.py:69-77 | moving by whole octaves keeps the pitch-class modifier |
| KeyboardBackend.SpelledModifier | playback/pynput_backend.py:87-92 | the accidental of the default spelling gives the pitch class's modifier |
| KeyboardBackend.SpelledInRangeHasKey | playback/pynput_backend.py:79-96 | a default-spelled pitch sounding in C3..B5 is written in octave 3..5 and has a key |
| KeyboardBackend.NaturalsAlwaysMapped | playback/pynput_backend.py:63-98 | with folding on, every natural pitch gets a key |
| KeyboardBackend.InRangeMisspelledHasNoKey | playback/pynput_backend.py:69-98 | a pitch sounding in C3..B5 but spelled in an octave outside 3..5 (B#2, C-6) gets no key |
| KeyboardBackend.PressedKeysEmptyIff | playback/pynput_backend.py:136-155 | nothing is pressed exactly when no lookup found a key, and one key per lookup exactly when all did |
| KeyboardBackend.ChordKeysEmptyIff | playback/pynput_backend.py:129-155 | a chord presses nothing exactly when none of its pitches maps, and one key per pitch exactly when all do |
| KeyboardBackend.NoteKeys | playback/pynput_backend.py:116-127 | a note presses its key with its modifier, or nothing when it has no key |
| KeyboardBackend.NoteIsOneNoteChord | playback/pynput_backend.py:116-155 | a note presses what a one-note chord of the same pitch presses |
| KeyboardBackend.CollectChordKeys | playback/pynput_backend.py:133-146 | the collecting loop gathers the keys of the mappable pitches in chord order |
| MidiBackend.Velocity | playback/midi_backend.py:161 | the velocity is volume times 127 truncated toward zero, within 0..127 for a volume in 0..1 |
| MidiBackend.PlayerVolumeVelocity | playback/midi_backend.py:161 | the player's volume 0.6 gives velocity 76 |
| MidiBackend.Remove | playback/midi_backend.py:286-287 | deleting a key keeps every other key, distinct and in their relative order (the list spliced at the key's position), and deleting a key that is not there changes nothing |
| MidiBackend.AfterNoteOff | playback/midi_backend.py:279-290 | one note-off is sent, the entry is gone, the other entries are kept, the key order loses only that key, and the table stays valid |
| MidiBackend.AfterAttack | playback/midi_backend.py:163-185 | a sounding note of the same name is switched off first, then a note-on is sent and the entry is replaced; the key order is the old order without that key, followed by it |
| MidiBackend.AfterExtend | playback/midi_backend.py:139-152 | a tie continuation only re-arms the note's off timer; nothing is sent |
| MidiBackend.AfterPlayNote | playback/midi_backend.py:119-185 | nothing when uninitialized; a tie continuation of a sounding note sends nothing, keeps the key order and the note number, replaces that note's pending note-off and leaves every other entry as it was; otherwise attacks |
| MidiBackend.AfterPlayChord | playback/midi_backend.py:187-264 | nothing when uninitialized; the table stays valid |
| MidiBackend.OffsFor | playback/midi_backend.py:98-100 | one note-off per entry, in table order |
| MidiBackend.AfterStop | playback/midi_backend.py:91-117 | note-offs for every sounding note in table order, then all-notes-off; the table empties and the device is uninitialized |
| MidiBackend.DistinctKeysCount | playback/midi_backend.py:98 | the table order lists each sounding note once |
| MidiBackend.AfterStart | playback/midi_backend.py:56-89 | an uninitialized device becomes initialized exactly when a port opens |
| MidiBackend.NoteOnKeysAppend | playback/midi_backend.py:253 | the note-ons of two message runs are those of each, in order |
| MidiBackend.ChordPitchNoteOns | playback/midi_backend.py:214-253 | one chord pitch adds a note-on for itself exactly when its name is not tied |
| MidiBackend.ChordNoteOns | playback/midi_backend.py:215-253 | a chord sends one note-on per untied pitch, in chord order, and none for tied pitches |
| MidiBackend.TiedEntriesKept | playback/midi_backend.py:221-238 | a tied name's entry and its presence are left as they were, apart from the timer |
| MidiBackend.TieContinuationSendsNothing | playback/midi_backend.py:139-152 | a tie continuation of a sounding note sends no message |
| MidiBackend.MidiOut.constructor | playback/midi_backend.py:33-54 | uninitialized, with no sounding notes and nothing sent |
| MidiBackend.MidiOut.Start | playback/midi_backend.py:56-89 | the state becomes that of the start transition |
| MidiBackend.MidiOut.SendNoteOff | playback/midi_backend.py:279-290 | the state becomes that of the note-off transition |
| MidiBackend.MidiOut.TimerFires | playback/midi_backend.py:177-179 | a timer going off switches its note off |
| MidiBackend.MidiOut.Attack | playback/midi_backend.py:163-185 | the state becomes that of the attack transition |
| MidiBackend.MidiOut.PlayNote | playback/midi_backend.py:119-185 | the state becomes that of the note transition at the truncated velocity |
| MidiBackend.MidiOut.PlayChord | playback/midi_backend.py:187-264 | the loop over the chord pitches reaches the chord transition |
| MidiBackend.MidiOut.Stop | playback/midi_backend.py:91-117 | the loop over the table reaches the stop transition |
| SampleBackend.SampleKeysShape | playback/sample_backend.py:26-87 | every key of the table is a letter and an octave digit, or a sharp of A, C, D, F or G and an octave digit |
| SampleBackend.NoFlatKeys | playback/sample_backend.py:26-87 | the table has no flat keys |
| SampleBackend.LowerEnharmonic | playback/sample_backend.py:169 | the respelling keeps the MIDI number, takes the letter below, and lowers the octave when C wraps to B |
| SampleBackend.SamplePitch | playback/sample_backend.py:163-178 | a flat is respelled when the respelling has a sharp or no accidental; other pitches keep their spelling; the MIDI number never changes |
| SampleBackend.SampleKey | playback/sample_backend.py:160-182 | a pitch without a flat is looked up under its own name with octave |
| SampleBackend.SampleKeySameMidi | playback/sample_backend.py:160-182 | the key names a pitch with the MIDI number looked up |
| SampleBackend.SingleFlatsLoseTheirFlat | playback/sample_backend.py:167-177 | a single flat is looked up without a flat: C-flat and F-flat as naturals, the others as sharps |
| SampleBackend.SharpsOfEAndBHaveNoSample | playback/sample_backend.py:160-182 | E-sharp and B-sharp keep their spelling and find no sample |
| SampleBackend.PlayedAfterStart | playback/sample_backend.py:124-138 | after loading the table, a pitch plays exactly when its key is in the table and its file exists and loads |
| SampleBackend.Lookups | playback/sample_backend.py:221-224 | each chord pitch with the sample its key finds, in chord order |
| SampleBackend.ChordPartition | playback/sample_backend.py:219-236 | the played and skipped lists together are the chord's pitches, each exactly once |
| SampleBackend.PlayedWereFound | playback/sample_backend.py:223-229 | every played pitch found a loaded sample |
| SampleBackend.SkippedWereMissing | playback/sample_backend.py:233-236 | every skipped pitch found no key or no loaded sample |
| SampleBackend.KeysOf | playback/sample_backend.py:124 | the table's keys, each once |
| SampleBackend.SamplePlayer.constructor | playback/sample_backend.py:93-96 | empty table, uninitialized, nothing sounding |
| SampleBackend.LoadedIntoEmpty | playback/sample_backend.py:124-138 | loading a table into an empty one gives exactly the table's keys, each with its load result |
| SampleBackend.SamplePlayer.Start | playback/sample_backend.py:98-144 | keeps the table empty until start; no change when started or when the mixer fails; without the samples directory: initialized with an empty table; otherwise exactly the table's keys, each holding its load result, and the three counters add up to the table size |
| SampleBackend.SamplePlayer.LoadTable | playback/sample_backend.py:124-138 | every key of the table holds its load result, other entries are kept, and the counters add up to the table size |
| SampleBackend.SamplePlayer.LoadAll | playback/sample_backend.py:124-138 | the loop records every key's load result and counts each key once |
| SampleBackend.SamplePlayer.Stop | playback/sample_backend.py:146-158 | it silences everything when initialized and keeps the table and the flag |
| SampleBackend.SamplePlayer.PlayOne | playback/sample_backend.py:195-203 | the looked-up sample, started at the volume when found |
| SampleBackend.SamplePlayer.PlayNote | playback/sample_backend.py:185-210 | nothing when uninitialized; otherwise the pitch's sample starts when found |
| SampleBackend.SamplePlayer.PlayChord | playback/sample_backend.py:214-241 | the played and skipped lists of the lookups, and exactly the found samples started in chord order |
| ScoreFilter.FilterRange | utils/filter_suitable_scores.py:20-57 | no range exactly when the scan raises or there is no pitch outside grace notes |
| ScoreFilter.FilterRangeExtremes | utils/filter_suitable_scores.py:44-57 | a reported range is the least and greatest pitch outside grace notes, both of which occur |
| ScoreFilter.GraceElementIgnored | utils/filter_suitable_scores.py:35-41 | inserting a grace note or grace chord anywhere leaves the range unchanged |
| ScoreFilter.AgreesWithPlayerScan | utils/filter_suitable_scores.py:20-57 | without grace notes the filter's range is the player's range |
| ScoreFilter.ScanRange | utils/filter_suitable_scores.py:20-57 | the accumulator loop returns the filter's range |
| ScoreFilter.Decide | utils/filter_suitable_scores.py:92-128 | no range: skipped; range within 48-tol..83+tol: moved; otherwise with the fallback, moved exactly when there are parts and part 1 has a range; otherwise skipped, naming the failing ends, at least one of them |
| ScoreFilter.LargerToleranceKeepsFullMoves | utils/filter_suitable_scores.py:61-62 | a score moved for its full range stays moved under any larger tolerance |
| ScoreFilter.StrictMoveFitsKeyboard | utils/filter_suitable_scores.py:16-17 | with tolerance 0, a score moved for its full range has every pitch outside grace notes within C3..B5 |
| ScoreFilter.Lower | utils/filter_suitable_scores.py:83 | lower-casing maps each character to its lower case |
| ScoreFilter.SuffixCaseIgnored | utils/filter_suitable_scores.py:83 | .mxl and .musicxml are recognised in any case |
| ScoreFilter.OtherSuffixesIgnored | utils/filter_suitable_scores.py:83 | other names (`score.xml`, `mxl` without a dot) are passed over |
| ScoreFilter.NineCharsWithoutM | utils/filter_suitable_scores.py:83 | a nine-character name with no `m` where either suffix needs one is not a score file |
| ScoreFilter.FileOutcome | utils/filter_suitable_scores.py:83-143 | not considered exactly when not a score file; error exactly when parsing fails or a due move fails; moved exactly when due and the move succeeds |
| ScoreFilter.CheckFile | utils/filter_suitable_scores.py:84-143 | the per-file body with its move flag yields the file's outcome |
| ScoreFilter.EachConsideredCountedOnce | utils/filter_suitable_scores.py:75-143 | moved + skipped + errors equals the number of considered files |
| ScoreFilter.MovedNamesCounted | utils/filter_suitable_scores.py:131-135 | as many files reach the score directory as are counted moved, each a considered entry |
| ScoreFilter.CheckAndMove | utils/filter_suitable_scores.py:59-146 | nothing without a source directory; otherwise the counters and the moved files are those of the outcomes, and each considered file is counted once |

## Left out

- Threads and timing are left out: the playback thread, `stop_event`, the joins, the sleeps, the pause polling, the 3-second autoplay wait and the MIDI `threading.Timer`s. A stop request is an element count. A pause does not change which calls are made. A timer is a pending note-off kept in the table entry; `MidiOut.TimerFires` is its expiry.
- Floating-point durations (seconds per quarter, the staccato half wait) are left out. A duration is passed through as `quarters * secondsPerQuarter`.
- The notation library is not modelled: parsing, chordify, transposition, `flat.notesAndRests` and `getEnharmonic`.
  - Their results and failures are inputs.
  - Transposition by an integer number of semitones is assumed to respell by the default table above (`Music.SpellMidi`); this is what `ShiftOctaves`, `KeyAndModifier`, `KeyAndModifierSpec` and `LoadAndPrepare` rely on.
  - A respelled flat is assumed to be the lower enharmonic: the letter below, same MIDI number.
  - An accidental is assumed to be absent exactly when the alteration is 0.
  - Chordify is assumed to keep the tie marks of its notes.
  - `Music.Midi` is unbounded. The library folds a pitch outside MIDI 0..127 back into that range by octaves; such pitches are not modelled faithfully.
  - `ScoreAnalysis.Flat`, the element list played when chordify raises, is the loose elements followed by each part's elements. The library's `flat` interleaves the parts by offset instead, so when chordify raises the model plays the parts one after another. Ranges are unaffected, as a range does not depend on order.
  - `ScoreAnalysis.LoadAndPrepare` reads the tempo from the parsed score's metronome marks. In full mode the source reads it from the chordified score; chordify is assumed to keep the first metronome mark.
- Device I/O is not modelled: key presses (`_press_key_combo`), the pygame mixer and its `Sound` objects, and rtmidi port discovery and opening. Their success or failure is a parameter where it changes state. Exceptions raised by `sound.play` inside the sampler are not modelled.
- Log and warning text is not modelled, including the re-parsing of the shift text at playback/pynput_backend.py:123 and :141.
- `KeyboardBackend.KeyAndModifier` reports the shift as a number of semitones, not as the `" (Shifted +12)"` text.
- `scan_scores`, `cleanup`, the hotkey listener, `main.py` and the console/report tools are not part of this model. They only do I/O or forward to the player.
- `Jianpu` and `IntToString` read and write ASCII digits only. Python's `\d` also matches other Unicode digits, which never occur in a pitch name.
- `ScoreFilter.Lower`: lower-cases ASCII letters only, not the full Unicode case mapping of `str.lower`.
- The order in which the sampler iterates the table while loading is not modelled. It only affects the messages. The resulting table and counters are the same for any order.
- `SampleBackend.SamplePlayer.Start`: the `loaded == 0` warning is not modelled.
- `MidiBackend.AfterPlayChord`: its own contract states only validity. What a chord sends and keeps is stated by `ChordNoteOns` and `TiedEntriesKept`.

## Findings

| source | as written | input that shows it | evidently intended | confidence | as-written member | corrected member |
|---|---|---|---|---|---|---|
| player.py:149 | `play_note` and `play_chord` are called with a fifth tie argument. Only the MIDI device accepts it (playback/base.py:25, playback/pynput_backend.py:116, playback/sample_backend.py:185). `Transport.Player.PlayPrepared` follows the code as written. | A score whose first element is a note, played on the keyboard or sample device. It raises `TypeError` and is reported as a run error. | Every device accepts the tie argument, or ignores it. | not executed | Transport.InterfaceMismatchFails | Transport.CorrectedRunNeverFails |
