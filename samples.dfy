/**
 * The sample-player device: each pitch is looked up, under a sharp-or-natural
 * spelling, in a fixed table of recorded piano samples.  A flat is respelled
 * as its lower enharmonic (B-flat as A-sharp, F-flat as E) first.
 */
module SampleBackend {
  import opened Music

  /**
   * NOTE_SAMPLE_MAP: pitch name with octave to sample file, written letter by
   * letter in the order of the source table.
   */
  const SamplesA: map<string, string> := map[
    "A2" := "a54.mp3", "A3" := "a69.mp3", "A4" := "a80.mp3", "A5" := "a74.mp3", "A6" := "a66.mp3",
    "A#3" := "b69.mp3", "A#4" := "b80.mp3", "A#5" := "b74.mp3", "A#6" := "b66.mp3"]
  const SamplesB: map<string, string> := map[
    "B2" := "a55.mp3", "B3" := "a82.mp3", "B4" := "a65.mp3", "B5" := "a75.mp3", "B6" := "a78.mp3"]
  const SamplesC: map<string, string> := map[
    "C2" := "a49.mp3", "C3" := "a56.mp3", "C4" := "a84.mp3", "C5" := "a83.mp3", "C6" := "a76.mp3",
    "C7" := "a77.mp3", "C#2" := "b49.mp3", "C#3" := "b56.mp3", "C#4" := "b84.mp3", "C#5" := "b83.mp3",
    "C#6" := "b76.mp3"]
  const SamplesD: map<string, string> := map[
    "D2" := "a50.mp3", "D3" := "a57.mp3", "D4" := "a89.mp3", "D5" := "a68.mp3", "D6" := "a90.mp3",
    "D#2" := "b50.mp3", "D#3" := "b57.mp3", "D#4" := "b89.mp3", "D#5" := "b68.mp3", "D#6" := "b90.mp3"]
  const SamplesE: map<string, string> := map[
    "E2" := "a51.mp3", "E3" := "a48.mp3", "E4" := "a85.mp3", "E5" := "a70.mp3", "E6" := "a88.mp3"]
  const SamplesF: map<string, string> := map[
    "F2" := "a52.mp3", "F3" := "a81.mp3", "F4" := "a73.mp3", "F5" := "a71.mp3", "F6" := "a67.mp3",
    "F#2" := "b52.mp3", "F#3" := "b81.mp3", "F#4" := "b73.mp3", "F#5" := "b71.mp3", "F#6" := "b67.mp3"]
  const SamplesG: map<string, string> := map[
    "G2" := "a53.mp3", "G3" := "a87.mp3", "G4" := "a79.mp3", "G5" := "a72.mp3", "G6" := "a86.mp3",
    "G#2" := "b53.mp3", "G#3" := "b87.mp3", "G#4" := "b79.mp3", "G#5" := "b72.mp3", "G#6" := "b86.mp3"]

  const NoteSampleMap: map<string, string> :=
    SamplesA + SamplesB + SamplesC + SamplesD + SamplesE + SamplesF + SamplesG

  predicate SharpLetter(c: char) {
    c == 'A' || c == 'C' || c == 'D' || c == 'F' || c == 'G'
  }

  /**
   * A key is a letter and an octave digit, or a letter other than E and B,
   * a sharp and an octave digit.
   */
  predicate KeyShape(k: string) {
    (|k| == 2 && (SharpLetter(k[0]) || k[0] == 'B' || k[0] == 'E') && IsDigit(k[1])) ||
    (|k| == 3 && SharpLetter(k[0]) && k[1] == '#' && IsDigit(k[2]))
  }

  lemma SamplesAShape() ensures forall k :: k in SamplesA ==> KeyShape(k) {}
  lemma SamplesBShape() ensures forall k :: k in SamplesB ==> KeyShape(k) {}
  lemma SamplesCShape() ensures forall k :: k in SamplesC ==> KeyShape(k) {}
  lemma SamplesDShape() ensures forall k :: k in SamplesD ==> KeyShape(k) {}
  lemma SamplesEShape() ensures forall k :: k in SamplesE ==> KeyShape(k) {}
  lemma SamplesFShape() ensures forall k :: k in SamplesF ==> KeyShape(k) {}
  lemma SamplesGShape() ensures forall k :: k in SamplesG ==> KeyShape(k) {}

  lemma SampleKeysShape()
    ensures forall k :: k in NoteSampleMap ==> KeyShape(k)
  {
    SamplesAShape(); SamplesBShape(); SamplesCShape(); SamplesDShape();
    SamplesEShape(); SamplesFShape(); SamplesGShape();
  }

  /** No key of the table uses a flat spelling. */
  lemma NoFlatKeys()
    ensures forall k :: k in NoteSampleMap ==> '-' !in k
  {
    forall k | k in NoteSampleMap
      ensures '-' !in k
    {
      SampleKeysShape();
      ShapedKeyHasNoFlat(k);
    }
  }

  lemma ShapedKeyHasNoFlat(k: string)
    requires KeyShape(k)
    ensures '-' !in k
  {
    assert forall i :: 0 <= i < |k| ==> k[i] != '-';
  }

  /** The letter one step below, wrapping from C to B. */
  function LowerStep(s: Step): Step {
    match s
    case C => B case D => C case E => D case F => E
    case G => F case A => G case B => A
  }

  /**
   * The enharmonic a flat is respelled as: the letter below, raised by the
   * distance between the two letters, and one octave lower when the letter
   * wraps from C to B.
   */
  function LowerEnharmonic(p: Pitch): (q: Pitch)
    ensures Midi(q) == Midi(p)
    ensures q.step == LowerStep(p.step)
    ensures q.octave == (if p.step == C then p.octave - 1 else p.octave)
  {
    var below := LowerStep(p.step);
    var gap := if p.step == C then 1 else StepSemitone(p.step) - StepSemitone(below);
    Pitch(below, p.alter + gap, if p.step == C then p.octave - 1 else p.octave)
  }

  /**
   * The pitch whose spelling _get_sample_key uses: a flat is replaced by its
   * lower enharmonic when that is spelled with a sharp or with no accidental,
   * and kept otherwise; any other pitch is kept.
   */
  function SamplePitch(p: Pitch): (q: Pitch)
    ensures Midi(q) == Midi(p)
    ensures p.alter >= 0 ==> q == p
    ensures p.alter < 0 && LowerEnharmonic(p).alter >= 0 ==> q == LowerEnharmonic(p)
    ensures p.alter < 0 && LowerEnharmonic(p).alter < 0 ==> q == p
  {
    if p.alter < 0 then
      var e := LowerEnharmonic(p);
      if e.alter >= 0 then e else p
    else p
  }

  /** _get_sample_key: the name and octave of the respelled pitch. */
  function SampleKey(p: Pitch): (k: string)
    ensures p.alter >= 0 ==> k == NameWithOctave(p)
  {
    NameWithOctave(SamplePitch(p))
  }

  /** A key always names a pitch with the same MIDI number as the one looked up. */
  lemma SampleKeySameMidi(p: Pitch)
    ensures exists q :: SampleKey(p) == NameWithOctave(q) && Midi(q) == Midi(p)
  {
    var q := SamplePitch(p);
    assert SampleKey(p) == NameWithOctave(q) && Midi(q) == Midi(p);
  }

  /**
   * A single flat (above octave 0) is always looked up under a spelling
   * without a flat: C-flat and F-flat become naturals, the others sharps.
   */
  lemma SingleFlatsLoseTheirFlat(p: Pitch)
    requires p.alter == -1 && p.octave >= 1
    ensures '-' !in SampleKey(p)
    ensures SamplePitch(p).alter == 0 <==> p.step == C || p.step == F
    ensures SamplePitch(p).alter == 1 <==> !(p.step == C || p.step == F)
  {
    var q := SamplePitch(p);
    assert q == LowerEnharmonic(p);
    var digits := IntToString(q.octave);
    assert SampleKey(p) == Name(q) + digits;
    assert '-' !in digits by {
      assert AllDigits(digits);
    }
  }

  /** E-sharp and B-sharp are spelled as they are, and the table has no key for them. */
  lemma SharpsOfEAndBHaveNoSample(p: Pitch)
    requires p.alter == 1 && (p.step == E || p.step == B)
    ensures SampleKey(p) !in NoteSampleMap
  {
    SharpOfEOrBMisshaped(p);
    MisshapedKeyAbsent(SampleKey(p));
  }

  lemma SharpOfEOrBMisshaped(p: Pitch)
    requires p.alter == 1 && (p.step == E || p.step == B)
    ensures !KeyShape(SampleKey(p))
  {
    var k := SampleKey(p);
    assert k[0] == Letter(p.step) && k[1] == '#';
  }

  lemma MisshapedKeyAbsent(k: string)
    requires !KeyShape(k)
    ensures k !in NoteSampleMap
  {
    SampleKeysShape();
  }

  // ---------------------------------------------------------------------
  // The samples table

  /** A loaded sample, identified by its file. */
  datatype Sound = Sound(file: string)

  /**
   * The table after loading every entry of `table` into `before`: each key
   * of `table` holds what loading its file gave, every other key is kept.
   */
  ghost predicate LoadedTable(after: map<string, Option<Sound>>, before: map<string, Option<Sound>>, table: map<string, string>,
                        present: set<string>, loadable: set<string>)
  {
    (forall k :: k in after <==> k in before || k in table) &&
    (forall k :: k in table ==> after[k] == Load(table[k], present, loadable)) &&
    (forall k :: k in before && k !in table ==> after[k] == before[k])
  }

  /**
   * Loading one file: it must exist (`present`) and decode (`loadable`);
   * otherwise the table records None for its key.
   */
  function Load(file: string, present: set<string>, loadable: set<string>): (s: Option<Sound>)
    ensures s.Some? <==> file in present && file in loadable
    ensures s.Some? ==> s.value.file == file
  {
    if file in present && file in loadable then Some(Sound(file)) else None
  }

  /**
   * `samples` is the table start fills from `table`: one entry per key of
   * the table, each holding the load result of that key's file.
   */
  ghost predicate LoadedFrom(samples: map<string, Option<Sound>>, table: map<string, string>, present: set<string>, loadable: set<string>) {
    samples.Keys == table.Keys && forall k :: k in table ==> samples[k] == Load(table[k], present, loadable)
  }

  /** Loading a table into an empty one gives exactly the table's keys. */
  lemma LoadedIntoEmpty(after: map<string, Option<Sound>>, table: map<string, string>, present: set<string>, loadable: set<string>)
    requires LoadedTable(after, map[], table, present, loadable)
    ensures LoadedFrom(after, table, present, loadable)
  {
    assert after.Keys == table.Keys;
  }

  /** The sample a lookup plays: that of its key, when initialized and the sample loaded. */
  function SoundFor(samples: map<string, Option<Sound>>, initialized: bool, p: Pitch): Option<Sound> {
    if !initialized then None
    else
      var k := SampleKey(p);
      if k in samples then samples[k] else None
  }

  /**
   * After a start that found the samples directory, a pitch is played
   * exactly when its key is one of the table's keys and that key's file
   * exists and loads.
   */
  lemma PlayedAfterStart(samples: map<string, Option<Sound>>, present: set<string>, loadable: set<string>, p: Pitch)
    requires LoadedFrom(samples, NoteSampleMap, present, loadable)
    ensures var k := SampleKey(p);
      SoundFor(samples, true, p).Some? <==>
      k in NoteSampleMap && NoteSampleMap[k] in present && NoteSampleMap[k] in loadable
  {
  }

  /** Each chord pitch with the sample its lookup finds, in chord order. */
  function Lookups(samples: map<string, Option<Sound>>, ps: seq<Pitch>): (ls: seq<(Pitch, Option<Sound>)>)
    ensures |ls| == |ps|
    ensures forall i :: 0 <= i < |ps| ==> ls[i] == (ps[i], SoundFor(samples, true, ps[i]))
  {
    if ps == [] then [] else [(ps[0], SoundFor(samples, true, ps[0]))] + Lookups(samples, ps[1..])
  }

  /** The pitches whose lookup found a sample, in order. */
  function Played(ls: seq<(Pitch, Option<Sound>)>): (r: seq<Pitch>)
    ensures |r| <= |ls|
  {
    if ls == [] then []
    else Played(ls[..|ls| - 1]) + (if ls[|ls| - 1].1.Some? then [ls[|ls| - 1].0] else [])
  }

  /** The pitches whose lookup found nothing, in order. */
  function Skipped(ls: seq<(Pitch, Option<Sound>)>): (r: seq<Pitch>)
    ensures |r| <= |ls|
  {
    if ls == [] then []
    else Skipped(ls[..|ls| - 1]) + (if ls[|ls| - 1].1.None? then [ls[|ls| - 1].0] else [])
  }

  /** The sounds started, each at the given volume, in order. */
  function Started(ls: seq<(Pitch, Option<Sound>)>, volume: real): (r: seq<(Sound, real)>)
    ensures |r| == |Played(ls)|
  {
    if ls == [] then []
    else
      var s := ls[|ls| - 1].1;
      Started(ls[..|ls| - 1], volume) + (if s.Some? then [(s.value, volume)] else [])
  }

  function Pitches(ls: seq<(Pitch, Option<Sound>)>): (ps: seq<Pitch>)
    ensures |ps| == |ls| && forall i :: 0 <= i < |ls| ==> ps[i] == ls[i].0
  {
    if ls == [] then [] else Pitches(ls[..|ls| - 1]) + [ls[|ls| - 1].0]
  }

  /** Every looked-up pitch is either played or skipped, once. */
  lemma {:induction false} ChordPartition(ls: seq<(Pitch, Option<Sound>)>)
    ensures multiset(Played(ls)) + multiset(Skipped(ls)) == multiset(Pitches(ls))
    ensures |Played(ls)| + |Skipped(ls)| == |ls|
  {
    if ls != [] {
      var init, last := ls[..|ls| - 1], ls[|ls| - 1];
      ChordPartition(init);
      assert Pitches(ls) == Pitches(init) + [last.0];
      if last.1.Some? {
        assert Played(ls) == Played(init) + [last.0] && Skipped(ls) == Skipped(init);
      } else {
        assert Played(ls) == Played(init) && Skipped(ls) == Skipped(init) + [last.0];
      }
      PartitionStep(Played(init), Skipped(init), Pitches(init), last.0);
    }
  }

  /** Adding one element to either side of a partition keeps it a partition. */
  lemma PartitionStep<T>(a: seq<T>, b: seq<T>, c: seq<T>, x: T)
    requires multiset(a) + multiset(b) == multiset(c)
    ensures multiset(a + [x]) + multiset(b) == multiset(c + [x])
    ensures multiset(a) + multiset(b + [x]) == multiset(c + [x])
  {
  }

  /** A played pitch is one whose lookup found a sample. */
  lemma {:induction false} PlayedWereFound(ls: seq<(Pitch, Option<Sound>)>, p: Pitch)
    requires p in Played(ls)
    ensures exists i :: 0 <= i < |ls| && ls[i].0 == p && ls[i].1.Some?
  {
    var init := ls[..|ls| - 1];
    if p in Played(init) {
      PlayedWereFound(init, p);
      var i :| 0 <= i < |init| && init[i].0 == p && init[i].1.Some?;
      assert ls[i] == init[i];
    } else {
      assert ls[|ls| - 1].0 == p && ls[|ls| - 1].1.Some?;
    }
  }

  /** A skipped pitch is one whose lookup found nothing. */
  lemma {:induction false} SkippedWereMissing(ls: seq<(Pitch, Option<Sound>)>, p: Pitch)
    requires p in Skipped(ls)
    ensures exists i :: 0 <= i < |ls| && ls[i].0 == p && ls[i].1.None?
  {
    var init := ls[..|ls| - 1];
    if p in Skipped(init) {
      SkippedWereMissing(init, p);
      var i :| 0 <= i < |init| && init[i].0 == p && init[i].1.None?;
      assert ls[i] == init[i];
    } else {
      assert ls[|ls| - 1].0 == p && ls[|ls| - 1].1.None?;
    }
  }

  /** One more lookup extends the played, skipped and started lists by that lookup's part. */
  lemma LookupStep(ls: seq<(Pitch, Option<Sound>)>, j: nat, volume: real)
    requires j < |ls|
    ensures Played(ls[..j + 1]) == Played(ls[..j]) + (if ls[j].1.Some? then [ls[j].0] else [])
    ensures Skipped(ls[..j + 1]) == Skipped(ls[..j]) + (if ls[j].1.None? then [ls[j].0] else [])
    ensures Started(ls[..j + 1], volume) == Started(ls[..j], volume) + (if ls[j].1.Some? then [(ls[j].1.value, volume)] else [])
  {
    assert ls[..j + 1][..j] == ls[..j];
  }

  /** The keys of a table, each once, in some order. */
  method KeysOf(table: map<string, string>) returns (keys: seq<string>)
    ensures forall k :: k in keys <==> k in table
    ensures |keys| == |table|
  {
    keys := [];
    var remaining := table.Keys;
    while remaining != {}
      invariant forall k :: k in table <==> k in remaining || k in keys
      invariant forall k :: k in keys ==> k !in remaining
      invariant |keys| + |remaining| == |table|
      decreases |remaining|
    {
      var k :| k in remaining;
      keys := keys + [k];
      remaining := remaining - {k};
    }
  }

  class SamplePlayer {
    var samples: map<string, Option<Sound>>
    var initialized: bool
    /** The sounds started on the mixer since it was last stopped, with their volumes. */
    var sounding: seq<(Sound, real)>

    /** Nothing is loaded before start. */
    ghost predicate Valid()
      reads this
    {
      !initialized ==> samples == map[]
    }

    constructor()
      ensures Valid()
      ensures samples == map[] && !initialized && sounding == []
    {
      samples := map[];
      initialized := false;
      sounding := [];
    }

    /**
     * start: `mixerOk` is whether the mixer starts, `dirExists` whether the
     * samples directory is there, and a sample loads when its file is in
     * `present` and in `loadable`.  The three counts are those reported.
     */
    method Start(mixerOk: bool, dirExists: bool, present: set<string>, loadable: set<string>)
      returns (loaded: nat, missing: nat, errors: nat)
      requires Valid()
      modifies this
      ensures Valid()
      ensures sounding == old(sounding)
      ensures old(initialized) || !mixerOk ==> initialized == old(initialized) && samples == old(samples)
      ensures !old(initialized) && mixerOk ==> initialized
      ensures !old(initialized) && mixerOk && !dirExists ==> samples == map[]
      ensures !old(initialized) && mixerOk && dirExists ==>
        LoadedFrom(samples, NoteSampleMap, present, loadable) &&
        loaded + missing + errors == |NoteSampleMap|
    {
      loaded, missing, errors := 0, 0, 0;
      if initialized || !mixerOk {
        return;
      }
      if !dirExists {
        initialized := true;
        return;
      }
      loaded, missing, errors := LoadTable(NoteSampleMap, present, loadable);
      LoadedIntoEmpty(samples, NoteSampleMap, present, loadable);
      initialized := true;
    }

    /** Loading every entry of `table`, in some order of its keys. */
    method LoadTable(table: map<string, string>, present: set<string>, loadable: set<string>)
      returns (loaded: nat, missing: nat, errors: nat)
      modifies this
      ensures LoadedTable(samples, old(samples), table, present, loadable)
      ensures loaded + missing + errors == |table|
      ensures sounding == old(sounding) && initialized == old(initialized)
    {
      var keys := KeysOf(table);
      loaded, missing, errors := LoadAll(table, keys, present, loadable);
    }

    /**
     * The loading loop of start over the keys `keys` of `table`.  (The
     * source walks the table in its own order; the order only affects the
     * order of the console messages.)
     */
    method LoadAll(table: map<string, string>, keys: seq<string>, present: set<string>, loadable: set<string>)
      returns (loaded: nat, missing: nat, errors: nat)
      requires forall k :: k in keys ==> k in table
      modifies this
      ensures forall k :: k in samples <==> k in old(samples) || k in keys
      ensures forall k :: k in keys ==> samples[k] == Load(table[k], present, loadable)
      ensures forall k :: k in old(samples) && k !in keys ==> samples[k] == old(samples)[k]
      ensures loaded + missing + errors == |keys|
      ensures sounding == old(sounding) && initialized == old(initialized)
    {
      loaded, missing, errors := 0, 0, 0;
      var i := 0;
      while i < |keys|
        invariant 0 <= i <= |keys|
        invariant forall k :: k in samples <==> k in old(samples) || k in keys[..i]
        invariant forall k :: k in keys[..i] ==> samples[k] == Load(table[k], present, loadable)
        invariant forall k :: k in old(samples) && k !in keys[..i] ==> samples[k] == old(samples)[k]
        invariant loaded + missing + errors == i
        invariant sounding == old(sounding) && initialized == old(initialized)
      {
        var key := keys[i];
        var file := table[key];
        var sound: Option<Sound> := None;
        if file in present {
          if file in loadable {
            sound := Some(Sound(file));
            loaded := loaded + 1;
          } else {
            errors := errors + 1;
          }
        } else {
          missing := missing + 1;
        }
        assert keys[..i + 1] == keys[..i] + [key];
        samples := samples[key := sound];
        i := i + 1;
      }
      assert keys[..i] == keys;
    }

    /** stop: every sound is silenced, but the device stays initialized with its table. */
    method Stop()
      requires Valid()
      modifies this
      ensures Valid()
      ensures samples == old(samples) && initialized == old(initialized)
      ensures sounding == (if old(initialized) then [] else old(sounding))
    {
      if !initialized {
        return;
      }
      sounding := [];
    }

    /** _get_sample_key, the table lookup, and starting the sample when one is found. */
    method PlayOne(p: Pitch, volume: real) returns (sound: Option<Sound>)
      requires initialized
      modifies this
      ensures samples == old(samples) && initialized
      ensures sound == SoundFor(samples, true, p)
      ensures sounding == old(sounding) + (if sound.Some? then [(sound.value, volume)] else [])
    {
      var key := SampleKey(p);
      sound := None;
      if key in samples {
        sound := samples[key];
      }
      if sound.Some? {
        sounding := sounding + [(sound.value, volume)];
      }
    }

    method PlayNote(p: Pitch, seconds: real, applyShift: bool, volume: real)
      requires Valid()
      modifies this
      ensures Valid()
      ensures samples == old(samples) && initialized == old(initialized)
      ensures var s := SoundFor(samples, initialized, p);
        sounding == old(sounding) + (if s.Some? then [(s.value, volume)] else [])
    {
      if !initialized {
        return;
      }
      var _ := PlayOne(p, volume);
    }

    /** play_chord, returning the played and the skipped pitches. */
    method PlayChord(ps: seq<Pitch>, seconds: real, applyShift: bool, volume: real)
      returns (played: seq<Pitch>, skipped: seq<Pitch>)
      requires Valid()
      modifies this
      ensures Valid()
      ensures samples == old(samples) && initialized == old(initialized)
      ensures !initialized ==> played == [] && skipped == [] && sounding == old(sounding)
      ensures initialized ==> played == Played(Lookups(samples, ps)) && skipped == Skipped(Lookups(samples, ps))
      ensures initialized ==> sounding == old(sounding) + Started(Lookups(samples, ps), volume)
    {
      played, skipped := [], [];
      if !initialized {
        return;
      }
      ghost var ls := Lookups(samples, ps);
      ghost var before := sounding;
      var j := 0;
      while j < |ps|
        invariant 0 <= j <= |ps|
        invariant samples == old(samples) && initialized
        invariant played == Played(ls[..j]) && skipped == Skipped(ls[..j])
        invariant sounding == before + Started(ls[..j], volume)
      {
        played, skipped := ChordPitch(ps, ls, before, j, volume, played, skipped);
        j := j + 1;
      }
      assert ls[..j] == ls;
    }

    /** One pass of play_chord's loop: the pitch is played or skipped. */
    method ChordPitch(ps: seq<Pitch>, ghost ls: seq<(Pitch, Option<Sound>)>, ghost before: seq<(Sound, real)>, j: nat, volume: real,
                      played: seq<Pitch>, skipped: seq<Pitch>)
      returns (played': seq<Pitch>, skipped': seq<Pitch>)
      requires initialized && j < |ps| && ls == Lookups(samples, ps)
      requires played == Played(ls[..j]) && skipped == Skipped(ls[..j])
      requires sounding == before + Started(ls[..j], volume)
      modifies this
      ensures samples == old(samples) && initialized
      ensures played' == Played(ls[..j + 1]) && skipped' == Skipped(ls[..j + 1])
      ensures sounding == before + Started(ls[..j + 1], volume)
    {
      LookupStep(ls, j, volume);
      assert ls[j] == (ps[j], SoundFor(samples, true, ps[j]));
      ghost var started := Started(ls[..j], volume);
      var sound := PlayOne(ps[j], volume);
      AppendRegroup(before, started, if sound.Some? then [(sound.value, volume)] else []);
      played', skipped' := played, skipped;
      if sound.Some? {
        played' := played + [ps[j]];
      } else {
        skipped' := skipped + [ps[j]];
      }
    }
  }
}
