/**
 * The key-simulation device: a pitch becomes a jianpu (numbered notation)
 * key -- the scale digit 1..7 with one dot above per octave above 4 or one
 * dot below per octave below 4 -- which the key map turns into a letter key,
 * pressed with Shift for a sharp and Ctrl for a flat.  Pitches outside C3..B5
 * may first be folded into that range by whole octaves.
 */
module KeyboardBackend {
  import opened Music
  import opened ScoreAnalysis

  const KeyboardMinMidi := 48
  const KeyboardMaxMidi := 83

  const DotAbove: char := '\U{0307}'
  const DotBelow: char := '\U{0323}'

  predicate IsNoteLetter(c: char) {
    c in "ABCDEFG"
  }

  /** The jianpu digit of a note letter: C is 1, ..., B is 7. */
  function JianpuBase(c: char): (d: char)
    requires IsNoteLetter(c)
    ensures '1' <= d <= '7'
  {
    match c
    case 'C' => '1' case 'D' => '2' case 'E' => '3' case 'F' => '4'
    case 'G' => '5' case 'A' => '6' case 'B' => '7'
  }

  /** The octave dots: one dot above per octave above 4, one dot below per octave below 4. */
  function OctaveMark(octave: int): (m: string)
    ensures octave == 4 ==> m == []
    ensures octave > 4 ==> |m| == octave - 4 && forall i :: 0 <= i < |m| ==> m[i] == DotAbove
    ensures octave < 4 ==> |m| == 4 - octave && forall i :: 0 <= i < |m| ==> m[i] == DotBelow
  {
    if octave > 4 then Repeat(DotAbove, octave - 4)
    else if octave < 4 then Repeat(DotBelow, 4 - octave)
    else []
  }

  /** The longest run of digits at the start of `s`. */
  function LeadingDigits(s: string): (d: string)
    ensures AllDigits(d) && d <= s
    ensures |d| < |s| ==> !IsDigit(s[|d|])
  {
    if s == [] || !IsDigit(s[0]) then [] else [s[0]] + LeadingDigits(s[1..])
  }

  /**
   * standard_note_to_internal_jianpu: the string must start with a letter
   * A-G, an optional '#' or '-', and at least one digit; the accidental is
   * ignored and the digits are the octave.  Anything else gives None.
   */
  function Jianpu(s: string): (r: Option<string>)
    ensures r.Some? <==>
      (|s| >= 2 && IsNoteLetter(s[0]) && (IsDigit(s[1]) || ((s[1] == '#' || s[1] == '-') && |s| >= 3 && IsDigit(s[2]))))
    ensures r.Some? ==> |r.value| >= 1 && r.value[0] == JianpuBase(s[0])
  {
    if |s| < 2 || !IsNoteLetter(s[0]) then None
    else
      var start := if s[1] == '#' || s[1] == '-' then 2 else 1;
      if start >= |s| || !IsDigit(s[start]) then None
      else
        var octave := DigitsValue(LeadingDigits(s[start..]));
        Some([JianpuBase(s[0])] + OctaveMark(octave))
  }

  /** KEY_MAP: the middle row for octave 4, the row above for octave 5, the row below for octave 3. */
  const KeyMap: map<string, char> := map[
    "1" := 'a', "2" := 's', "3" := 'd', "4" := 'f', "5" := 'g', "6" := 'h', "7" := 'j',
    "1\U{0307}" := 'q', "2\U{0307}" := 'w', "3\U{0307}" := 'e', "4\U{0307}" := 'r',
    "5\U{0307}" := 't', "6\U{0307}" := 'y', "7\U{0307}" := 'u',
    "1\U{0323}" := 'z', "2\U{0323}" := 'x', "3\U{0323}" := 'c', "4\U{0323}" := 'v',
    "5\U{0323}" := 'b', "6\U{0323}" := 'n', "7\U{0323}" := 'm']

  /**
   * A pitch spelled with at most one sharp or flat and a non-negative octave
   * reads back as its own letter's digit and its own octave's dots.
   */
  lemma JianpuOfPitch(p: Pitch)
    requires -1 <= p.alter <= 1 && p.octave >= 0
    ensures Jianpu(NameWithOctave(p)) == Some([JianpuBase(Letter(p.step))] + OctaveMark(p.octave))
  {
    var s := NameWithOctave(p);
    var digits := NatToString(p.octave);
    var start := if p.alter == 0 then 1 else 2;
    assert s == Name(p) + digits;
    assert |Name(p)| == start by {
      if p.alter != 0 {
        assert AccidentalText(p.alter) == [if p.alter > 0 then '#' else '-'];
      }
    }
    assert s[start..] == digits;
    assert s[0] == Letter(p.step) && IsNoteLetter(s[0]);
    assert start == (if s[1] == '#' || s[1] == '-' then 2 else 1) && IsDigit(s[start]) by {
      assert s[start] == digits[0];
      if p.alter == 0 {
        assert s[1] == digits[0];
      }
    }
    assert LeadingDigits(digits) == digits by {
      LeadingDigitsOfDigits(digits);
    }
    DigitsRoundTrip(p.octave);
    assert Jianpu(s) == Some([JianpuBase(s[0])] + OctaveMark(DigitsValue(LeadingDigits(s[start..]))));
  }

  lemma {:induction false} LeadingDigitsOfDigits(s: string)
    requires AllDigits(s)
    ensures LeadingDigits(s) == s
  {
    if s != [] {
      LeadingDigitsOfDigits(s[1..]);
    }
  }

  /** Only octaves 3, 4 and 5 have a key. */
  lemma KeyMapCoversOctaves3To5(step: Step, octave: int)
    ensures [JianpuBase(Letter(step))] + OctaveMark(octave) in KeyMap <==> 3 <= octave <= 5
  {
    var d := JianpuBase(Letter(step));
    var k := [d] + OctaveMark(octave);
    if octave > 5 || octave < 3 {
      assert |k| >= 3;
      KeyMapKeysShort();
    } else {
      DigitKeys(d);
      if octave == 4 {
        assert k == [d];
      } else if octave == 5 {
        assert k == [d, DotAbove];
      } else {
        assert k == [d, DotBelow];
      }
    }
  }

  lemma KeyMapKeysShort()
    ensures forall key :: key in KeyMap ==> |key| <= 2
  {
  }

  /** Every digit has a key plain, with a dot above and with a dot below. */
  lemma DigitKeys(d: char)
    requires '1' <= d <= '7'
    ensures [d] in KeyMap && [d, DotAbove] in KeyMap && [d, DotBelow] in KeyMap
  {
    if d == '1' {
      assert [d] == "1";
    } else if d == '2' {
      assert [d] == "2";
    } else if d == '3' {
      assert [d] == "3";
    } else if d == '4' {
      assert [d] == "4";
    } else if d == '5' {
      assert [d] == "5";
    } else if d == '6' {
      assert [d] == "6";
    } else {
      assert [d] == "7";
    }
  }

  /** The accidental key held while the letter key is tapped. */
  datatype Modifier = ShiftKey | CtrlKey

  /**
   * What _get_key_and_modifier returns: the key and modifier (both None when
   * the pitch cannot be mapped), the original pitch's name with octave, and
   * the octave shift applied in semitones (0: none).
   */
  datatype KeyResult = KeyResult(key: Option<char>, modifier: Option<Modifier>, originalName: string, shift: int)

  /** The fold into C3..B5: up or down by whole octaves, or none. */
  function FoldShift(midi: int, applyShift: bool): (k: int)
    ensures k % 12 == 0
    ensures !applyShift ==> k == 0
    ensures applyShift && midi < KeyboardMinMidi ==> k > 0 && KeyboardMinMidi <= midi + k <= KeyboardMinMidi + 11
    ensures applyShift && midi > KeyboardMaxMidi ==> k < 0 && KeyboardMaxMidi - 11 <= midi + k <= KeyboardMaxMidi
    ensures applyShift && KeyboardMinMidi <= midi <= KeyboardMaxMidi ==> k == 0
  {
    if !applyShift then 0
    else if midi < KeyboardMinMidi then
      var c := CeilTwelfths(KeyboardMinMidi - midi);
      assert (12 * c) % 12 == 0;
      12 * c
    else if midi > KeyboardMaxMidi then
      var c := CeilTwelfths(midi - KeyboardMaxMidi);
      assert (-12 * c) % 12 == 0;
      -12 * c
    else 0
  }

  /** The modifier for a spelling: Shift when it has a sharp, else Ctrl when it has a flat. */
  function ModifierFor(name: string): Option<Modifier> {
    if '#' in name then Some(ShiftKey) else if '-' in name then Some(CtrlKey) else None
  }

  /** _get_key_and_modifier. */
  function KeyAndModifier(p: Pitch, applyShift: bool): (r: KeyResult)
    ensures r.originalName == NameWithOctave(p)
    ensures r.shift == FoldShift(Midi(p), applyShift)
    ensures r.key.None? ==> r.modifier.None?
  {
    var shift := FoldShift(Midi(p), applyShift);
    var adjusted := ShiftOctaves(p, shift / 12);
    var orig := NameWithOctave(p);
    match Jianpu(NameWithOctave(adjusted))
    case None => KeyResult(None, None, orig, shift)
    case Some(j) =>
      if j !in KeyMap then KeyResult(None, None, orig, shift)
      else KeyResult(Some(KeyMap[j]), ModifierFor(Name(adjusted)), orig, shift)
  }

  /**
   * A key is found exactly when the (folded) pitch has a jianpu key that the
   * key map knows; the modifier then follows the accidental of the folded
   * pitch as the notation library spells it.
   */
  lemma KeyAndModifierSpec(p: Pitch, applyShift: bool)
    ensures var r := KeyAndModifier(p, applyShift);
      var q := ShiftOctaves(p, FoldShift(Midi(p), applyShift) / 12);
      var j := Jianpu(NameWithOctave(q));
      (r.key.Some? <==> j.Some? && j.value in KeyMap) &&
      (r.key.Some? ==> r.key.value == KeyMap[j.value]) &&
      (r.key.Some? ==> r.modifier == AccidentalModifier(q))
  {
  }

  /** The modifier for a pitch's own accidental: Shift for sharps, Ctrl for flats. */
  function AccidentalModifier(p: Pitch): Option<Modifier> {
    if p.alter > 0 then Some(ShiftKey) else if p.alter < 0 then Some(CtrlKey) else None
  }

  /**
   * The modifier of a pitch class in the default spelling: Shift for C#, F#
   * and G#, Ctrl for E- and B-, none for the naturals.
   */
  function PitchClassModifier(m: int): (r: Option<Modifier>)
    ensures r == Some(ShiftKey) <==> m % 12 in {1, 6, 8}
    ensures r == Some(CtrlKey) <==> m % 12 in {3, 10}
  {
    var pc := m % 12;
    if pc == 1 || pc == 6 || pc == 8 then Some(ShiftKey)
    else if pc == 3 || pc == 10 then Some(CtrlKey)
    else None
  }

  /**
   * A pitch that is folded always gets a key, and its modifier follows its
   * pitch class rather than its spelling: A#2 is pressed as B-3, with Ctrl.
   */
  lemma FoldedPitchesMapped(p: Pitch, applyShift: bool)
    requires FoldShift(Midi(p), applyShift) != 0
    ensures KeyAndModifier(p, applyShift).key.Some?
    ensures KeyAndModifier(p, applyShift).modifier == PitchClassModifier(Midi(p))
  {
    var shift := FoldShift(Midi(p), applyShift);
    FoldedSpelling(p, shift);
    SpelledInRangeHasKey(ShiftOctaves(p, shift / 12));
    KeyAndModifierSpec(p, applyShift);
  }

  /**
   * Folded by a non-zero number of octaves into C3..B5, a pitch is default
   * spelled and its accidental's modifier is that of its pitch class.
   */
  lemma FoldedSpelling(p: Pitch, shift: int)
    requires shift != 0 && shift % 12 == 0
    requires KeyboardMinMidi <= Midi(p) + shift <= KeyboardMaxMidi
    ensures var q := ShiftOctaves(p, shift / 12);
      DefaultSpelled(q) && KeyboardMinMidi <= Midi(q) <= KeyboardMaxMidi &&
      AccidentalModifier(q) == PitchClassModifier(Midi(p))
  {
    var q := ShiftOctaves(p, shift / 12);
    assert shift / 12 != 0 && 12 * (shift / 12) == shift;
    SpellMidiOfSpelled(q);
    SpelledModifier(Midi(q));
    SameClassAfterFold(Midi(p), shift);
  }

  /** Moving by whole octaves keeps the pitch class, and with it the modifier. */
  lemma SameClassAfterFold(m: int, shift: int)
    requires shift % 12 == 0
    ensures PitchClassModifier(m + shift) == PitchClassModifier(m)
  {
    assert shift == 12 * (shift / 12);
    assert (m + shift) % 12 == m % 12;
  }

  /** The accidental of the default spelling gives the modifier of the pitch class. */
  lemma SpelledModifier(m: int)
    ensures AccidentalModifier(SpellMidi(m)) == PitchClassModifier(m)
  {
  }

  /** A default-spelled pitch that sounds inside C3..B5 is written in octave 3, 4 or 5 and has a key. */
  lemma SpelledInRangeHasKey(q: Pitch)
    requires DefaultSpelled(q) && KeyboardMinMidi <= Midi(q) <= KeyboardMaxMidi
    ensures 3 <= q.octave <= 5
    ensures var j := Jianpu(NameWithOctave(q)); j.Some? && j.value in KeyMap
  {
    SpellMidiOfSpelled(q);
    JianpuOfPitch(q);
    KeyMapCoversOctaves3To5(q.step, q.octave);
  }

  /** With folding on, every natural pitch gets a key. */
  lemma NaturalsAlwaysMapped(p: Pitch)
    requires p.alter == 0
    ensures KeyAndModifier(p, true).key.Some?
  {
    var shift := FoldShift(Midi(p), true);
    if shift != 0 {
      FoldedPitchesMapped(p, true);
    } else {
      assert 48 <= Midi(p) <= 83;
      assert 3 <= p.octave <= 5;
      JianpuOfPitch(p);
      KeyMapCoversOctaves3To5(p.step, p.octave);
      KeyAndModifierSpec(p, true);
    }
  }

  /**
   * A pitch that sounds inside C3..B5 is never folded, so one spelled in an
   * octave outside 3..5 (B#2 sounds as C3, C-6 as B5) finds no key and is
   * dropped although the device could play it.
   */
  lemma InRangeMisspelledHasNoKey(p: Pitch)
    requires -1 <= p.alter <= 1 && p.octave >= 0
    requires KeyboardMinMidi <= Midi(p) <= KeyboardMaxMidi
    requires p.octave < 3 || p.octave > 5
    ensures KeyAndModifier(p, true).key.None?
  {
    var r := KeyAndModifier(p, true);
    assert r.shift == 0;
    JianpuOfPitch(p);
    KeyMapCoversOctaves3To5(p.step, p.octave);
    KeyAndModifierSpec(p, true);
  }

  /** The result of _get_key_and_modifier for each pitch of a chord, in order. */
  function KeyResults(ps: seq<Pitch>, applyShift: bool): (rs: seq<KeyResult>)
    ensures |rs| == |ps|
    ensures forall i :: 0 <= i < |ps| ==> rs[i] == KeyAndModifier(ps[i], applyShift)
  {
    if ps == [] then [] else [KeyAndModifier(ps[0], applyShift)] + KeyResults(ps[1..], applyShift)
  }

  /** The keys pressed for a list of lookups: those that found a key, in order. */
  function PressedKeys(rs: seq<KeyResult>): (keys: seq<(char, Option<Modifier>)>)
    ensures |keys| <= |rs|
  {
    if rs == [] then []
    else
      var r := rs[|rs| - 1];
      PressedKeys(rs[..|rs| - 1]) + (if r.key.Some? then [(r.key.value, r.modifier)] else [])
  }

  /**
   * Nothing is pressed exactly when no lookup found a key, and one key is
   * pressed per lookup exactly when all of them did.
   */
  lemma {:induction false} PressedKeysEmptyIff(rs: seq<KeyResult>)
    ensures PressedKeys(rs) == [] <==> forall i :: 0 <= i < |rs| ==> rs[i].key.None?
    ensures |PressedKeys(rs)| == |rs| <==> forall i :: 0 <= i < |rs| ==> rs[i].key.Some?
  {
    if rs != [] {
      var init := rs[..|rs| - 1];
      PressedKeysEmptyIff(init);
      assert forall i :: 0 <= i < |init| ==> init[i] == rs[i];
    }
  }

  /** The keys play_chord presses: those of the mappable pitches, in chord order. */
  function ChordKeys(ps: seq<Pitch>, applyShift: bool): (keys: seq<(char, Option<Modifier>)>)
    ensures |keys| <= |ps|
  {
    PressedKeys(KeyResults(ps, applyShift))
  }

  /**
   * A chord presses nothing exactly when none of its pitches can be mapped,
   * and presses one key per pitch exactly when all of them can.
   */
  lemma ChordKeysEmptyIff(ps: seq<Pitch>, applyShift: bool)
    ensures ChordKeys(ps, applyShift) == [] <==> forall i :: 0 <= i < |ps| ==> KeyAndModifier(ps[i], applyShift).key.None?
    ensures |ChordKeys(ps, applyShift)| == |ps| <==> forall i :: 0 <= i < |ps| ==> KeyAndModifier(ps[i], applyShift).key.Some?
  {
    var rs := KeyResults(ps, applyShift);
    PressedKeysEmptyIff(rs);
    assert (forall i :: 0 <= i < |rs| ==> rs[i].key.None?) <==>
           (forall i :: 0 <= i < |ps| ==> KeyAndModifier(ps[i], applyShift).key.None?);
    assert (forall i :: 0 <= i < |rs| ==> rs[i].key.Some?) <==>
           (forall i :: 0 <= i < |ps| ==> KeyAndModifier(ps[i], applyShift).key.Some?);
  }

  /** The key play_note presses: the pitch's key with its modifier, or nothing. */
  function NoteKeys(p: Pitch, applyShift: bool): (keys: seq<(char, Option<Modifier>)>)
    ensures |keys| <= 1
    ensures keys == [] <==> KeyAndModifier(p, applyShift).key.None?
  {
    var r := KeyAndModifier(p, applyShift);
    if r.key.Some? then [(r.key.value, r.modifier)] else []
  }

  /** A single note presses what a one-note chord of the same pitch presses. */
  lemma NoteIsOneNoteChord(p: Pitch, applyShift: bool)
    ensures NoteKeys(p, applyShift) == ChordKeys([p], applyShift)
  {
    var rs := KeyResults([p], applyShift);
    assert rs[..0] == [];
  }

  /** The collecting loop of play_chord. */
  method CollectChordKeys(ps: seq<Pitch>, applyShift: bool) returns (keys: seq<(char, Option<Modifier>)>)
    ensures keys == ChordKeys(ps, applyShift)
  {
    keys := [];
    var j := 0;
    while j < |ps|
      invariant 0 <= j <= |ps|
      invariant keys == ChordKeys(ps[..j], applyShift)
    {
      keys := PressPitch(ps, applyShift, j, keys);
      j := j + 1;
    }
    assert ps[..j] == ps;
  }

  /** One pass of the chord loop: the pitch's key, if it has one, joins the pressed keys. */
  method PressPitch(ps: seq<Pitch>, applyShift: bool, j: nat, keys: seq<(char, Option<Modifier>)>)
    returns (keys': seq<(char, Option<Modifier>)>)
    requires j < |ps|
    requires keys == ChordKeys(ps[..j], applyShift)
    ensures keys' == ChordKeys(ps[..j + 1], applyShift)
  {
    var r := KeyAndModifier(ps[j], applyShift);
    ChordKeysStep(ps, applyShift, j);
    keys' := if r.key.Some? then keys + [(r.key.value, r.modifier)] else keys;
  }

  /** One more pitch of the chord adds its key, if it has one. */
  lemma ChordKeysStep(ps: seq<Pitch>, applyShift: bool, j: nat)
    requires j < |ps|
    ensures ChordKeys(ps[..j + 1], applyShift) == ChordKeys(ps[..j], applyShift) +
      (if KeyAndModifier(ps[j], applyShift).key.Some?
       then [(KeyAndModifier(ps[j], applyShift).key.value, KeyAndModifier(ps[j], applyShift).modifier)] else [])
  {
    KeyResultsPrefix(ps, applyShift, j);
  }

  lemma KeyResultsPrefix(ps: seq<Pitch>, applyShift: bool, j: nat)
    requires j < |ps|
    ensures KeyResults(ps[..j + 1], applyShift)[..j] == KeyResults(ps[..j], applyShift)
    ensures KeyResults(ps[..j + 1], applyShift)[j] == KeyAndModifier(ps[j], applyShift)
  {
    var rs, qs := KeyResults(ps[..j + 1], applyShift), KeyResults(ps[..j], applyShift);
    forall i | 0 <= i < j ensures rs[..j][i] == qs[i] {
      assert rs[i] == KeyAndModifier(ps[..j + 1][i], applyShift);
      assert qs[i] == KeyAndModifier(ps[..j][i], applyShift);
    }
  }
}
