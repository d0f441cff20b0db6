/**
 * Pitches, tie roles and score elements shared by the range planner, the
 * player and the output devices.  A pitch is a spelled note (letter,
 * alteration, octave) as the notation library reports it; its MIDI number
 * and its `nameWithOctave` spelling are derived from it.
 */
module Music {

  datatype Option<+T> = None | Some(value: T) {
    function GetOr(default: T): T {
      match this
      case Some(v) => v
      case None => default
    }
  }

  /** The seven letters of the diatonic scale, in ascending order from C. */
  datatype Step = C | D | E | F | G | A | B

  function Letter(s: Step): char {
    match s
    case C => 'C' case D => 'D' case E => 'E' case F => 'F'
    case G => 'G' case A => 'A' case B => 'B'
  }

  /** Semitones from C up to the natural note of this letter. */
  function StepSemitone(s: Step): int {
    match s
    case C => 0 case D => 2 case E => 4 case F => 5
    case G => 7 case A => 9 case B => 11
  }

  /**
   * A spelled pitch: `alter` is the chromatic alteration (+1 sharp, -1 flat,
   * +2 double sharp, ...) and `octave` the scientific octave (C4 is middle C).
   */
  datatype Pitch = Pitch(step: Step, alter: int, octave: int)

  function Repeat(c: char, n: nat): (r: string)
    ensures |r| == n
    ensures forall i :: 0 <= i < n ==> r[i] == c
  {
    if n == 0 then [] else [c] + Repeat(c, n - 1)
  }

  /** The accidental as the notation library spells it: '#' per sharp, '-' per flat. */
  function AccidentalText(alter: int): (r: string)
    ensures '#' in r <==> alter > 0
    ensures '-' in r <==> alter < 0
  {
    if alter > 0 then Repeat('#', alter) else Repeat('-', -alter)
  }

  /** `pitch.name`: letter and accidental, e.g. "C#", "B-". */
  function Name(p: Pitch): (r: string)
    ensures |r| >= 1 && r[0] == Letter(p.step)
    ensures '#' in r <==> p.alter > 0
    ensures '-' in r <==> p.alter < 0
  {
    [Letter(p.step)] + AccidentalText(p.alter)
  }

  /** `pitch.nameWithOctave`, e.g. "C#4", "B-3": the identity used to track ties. */
  function NameWithOctave(p: Pitch): string {
    Name(p) + IntToString(p.octave)
  }

  /** `pitch.midi`: middle C (C4) is 60. */
  function Midi(p: Pitch): int {
    12 * (p.octave + 1) + StepSemitone(p.step) + p.alter
  }

  /**
   * The spellings the notation library picks when it sets a pitch from a
   * bare semitone number: the naturals, and C#, E-, F#, G#, B- for the
   * black keys.
   */
  predicate DefaultSpelled(p: Pitch) {
    p.alter == 0 ||
    (p.alter == 1 && (p.step == C || p.step == F || p.step == G)) ||
    (p.alter == -1 && (p.step == E || p.step == B))
  }

  /** The default spelling of a MIDI number (its octave is floor(m / 12) - 1). */
  function SpellMidi(m: int): (p: Pitch)
    ensures Midi(p) == m && DefaultSpelled(p)
    ensures p.octave == m / 12 - 1
    ensures p.alter == 1 <==> m % 12 == 1 || m % 12 == 6 || m % 12 == 8
    ensures p.alter == -1 <==> m % 12 == 3 || m % 12 == 10
  {
    var octave := m / 12 - 1;
    match m % 12
    case 0 => Pitch(C, 0, octave)
    case 1 => Pitch(C, 1, octave)
    case 2 => Pitch(D, 0, octave)
    case 3 => Pitch(E, -1, octave)
    case 4 => Pitch(E, 0, octave)
    case 5 => Pitch(F, 0, octave)
    case 6 => Pitch(F, 1, octave)
    case 7 => Pitch(G, 0, octave)
    case 8 => Pitch(G, 1, octave)
    case 9 => Pitch(A, 0, octave)
    case 10 => Pitch(B, -1, octave)
    case _ => Pitch(B, 0, octave)
  }

  /** A pitch already in the default spelling is the default spelling of its own MIDI number. */
  lemma SpellMidiOfSpelled(p: Pitch)
    requires DefaultSpelled(p)
    ensures SpellMidi(Midi(p)) == p
  {
    var s := StepSemitone(p.step) + p.alter;
    assert 0 <= s < 12;
    assert Midi(p) == 12 * (p.octave + 1) + s;
    assert Midi(p) / 12 == p.octave + 1 && Midi(p) % 12 == s;
  }

  /**
   * `pitch.transpose(12 * k)` with an integer number of semitones.  With
   * k = 0 the caller does not transpose and the pitch stays as it is;
   * otherwise the library sets the result from its semitone number, so it
   * comes out in the default spelling whatever the original spelling was.
   */
  function ShiftOctaves(p: Pitch, k: int): (q: Pitch)
    ensures Midi(q) == Midi(p) + 12 * k
    ensures k == 0 ==> q == p
    ensures k != 0 ==> DefaultSpelled(q)
  {
    if k == 0 then p else SpellMidi(Midi(p) + 12 * k)
  }

  /** A pitch in the default spelling keeps its name and moves its octave number by k. */
  lemma ShiftKeepsDefaultSpelling(p: Pitch, k: int)
    requires DefaultSpelled(p)
    ensures ShiftOctaves(p, k) == p.(octave := p.octave + k)
  {
    if k != 0 {
      SpellMidiOfSpelled(p.(octave := p.octave + k));
    }
  }

  /** Other spellings are respelled: A#2 up an octave is B-3, E#2 up an octave is F3, C-5 down one is B3. */
  lemma ShiftRespells()
    ensures ShiftOctaves(Pitch(A, 1, 2), 1) == Pitch(B, -1, 3)
    ensures ShiftOctaves(Pitch(E, 1, 2), 1) == Pitch(F, 0, 3)
    ensures ShiftOctaves(Pitch(C, -1, 5), -1) == Pitch(B, 0, 3)
  {
    SpellMidiOfSpelled(Pitch(B, -1, 3));
    SpellMidiOfSpelled(Pitch(F, 0, 3));
    SpellMidiOfSpelled(Pitch(B, 0, 3));
  }

  // ---------------------------------------------------------------------
  // Decimal digits: `str(int)` and `int(digits)`

  predicate IsDigit(c: char) {
    '0' <= c <= '9'
  }

  predicate AllDigits(s: string) {
    forall i :: 0 <= i < |s| ==> IsDigit(s[i])
  }

  function DigitChar(d: int): (c: char)
    requires 0 <= d < 10
    ensures IsDigit(c) && c as int - '0' as int == d
  {
    ('0' as int + d) as char
  }

  function NatToString(n: nat): (s: string)
    ensures |s| >= 1 && AllDigits(s)
  {
    if n < 10 then [DigitChar(n)] else NatToString(n / 10) + [DigitChar(n % 10)]
  }

  /** Python's `str` of an integer: a leading '-' for negative numbers. */
  function IntToString(i: int): (s: string)
    ensures |s| >= 1
    ensures i >= 0 ==> AllDigits(s)
    ensures i < 0 ==> s[0] == '-' && AllDigits(s[1..])
  {
    if i < 0 then "-" + NatToString(-i) else NatToString(i)
  }

  /** The value of a string of decimal digits, as `int(s)` reads it. */
  function DigitsValue(s: string): nat
    requires AllDigits(s)
  {
    if s == [] then 0 else 10 * DigitsValue(s[..|s| - 1]) + (s[|s| - 1] as int - '0' as int)
  }

  lemma {:induction false} DigitsRoundTrip(n: nat)
    ensures DigitsValue(NatToString(n)) == n
  {
    if n >= 10 {
      var s := NatToString(n);
      assert s[..|s| - 1] == NatToString(n / 10);
      DigitsRoundTrip(n / 10);
    }
  }

  // ---------------------------------------------------------------------
  // Score elements

  /** `tie.type`, with NoTie for an element without a tie. */
  datatype TieType = NoTie | TieStart | TieContinue | TieStop | LetRing

  /** A tie that carries the sound on to the next element. */
  predicate CarriesOn(t: TieType) {
    t == TieStart || t == TieContinue
  }

  datatype ChordNote = ChordNote(pitch: Pitch, tie: TieType)

  /**
   * One element of `notesAndRests`: a note, a chord, a rest, or a note-like
   * element without pitch (an unpitched percussion note).  `quarters` is the
   * duration in quarter notes; `grace` marks grace notes and grace chords.
   */
  datatype Event =
    | Note(pitch: Pitch, tie: TieType, grace: bool, quarters: real)
    | Chord(notes: seq<ChordNote>, grace: bool, quarters: real)
    | Rest(quarters: real)
    | Unpitched(quarters: real)

  function ChordPitches(notes: seq<ChordNote>): (ps: seq<Pitch>)
    ensures |ps| == |notes|
    ensures forall i :: 0 <= i < |notes| ==> ps[i] == notes[i].pitch
  {
    if notes == [] then [] else [notes[0].pitch] + ChordPitches(notes[1..])
  }

  /** Chord notes moved by `k` whole octaves, ties kept. */
  function ShiftNotes(ns: seq<ChordNote>, k: int): (r: seq<ChordNote>)
    ensures |r| == |ns|
    ensures forall i :: 0 <= i < |ns| ==> r[i] == ChordNote(ShiftOctaves(ns[i].pitch, k), ns[i].tie)
  {
    if ns == [] then [] else [ChordNote(ShiftOctaves(ns[0].pitch, k), ns[0].tie)] + ShiftNotes(ns[1..], k)
  }

  /** An element moved by `k` whole octaves (the melody transposition). */
  function ShiftEvent(e: Event, k: int): Event {
    match e
    case Note(p, t, g, q) => Note(ShiftOctaves(p, k), t, g, q)
    case Chord(ns, g, q) => Chord(ShiftNotes(ns, k), g, q)
    case Rest(q) => Rest(q)
    case Unpitched(q) => Unpitched(q)
  }

  function ShiftEvents(es: seq<Event>, k: int): (r: seq<Event>)
    ensures |r| == |es|
    ensures forall i :: 0 <= i < |es| ==> r[i] == ShiftEvent(es[i], k)
  {
    if es == [] then [] else [ShiftEvent(es[0], k)] + ShiftEvents(es[1..], k)
  }

  // ---------------------------------------------------------------------
  // Lowest and highest of a list of MIDI numbers

  /** One accumulator step: the (min, max) so far widened by one more MIDI number. */
  function Widen(b: Option<(int, int)>, m: int): (r: Option<(int, int)>)
    ensures r.Some?
    ensures b.None? ==> r.value == (m, m)
    ensures b.Some? ==> r.value.0 == (if m < b.value.0 then m else b.value.0)
    ensures b.Some? ==> r.value.1 == (if m > b.value.1 then m else b.value.1)
  {
    match b
    case None => Some((m, m))
    case Some(lh) => Some((if m < lh.0 then m else lh.0, if m > lh.1 then m else lh.1))
  }

  /**
   * The running (min, max) of `ms`, scanned from first to last, or None for
   * an empty list: the accumulator the range scans keep.
   */
  function Bounds(ms: seq<int>): (r: Option<(int, int)>)
    ensures r.None? <==> ms == []
  {
    if ms == [] then None else Widen(Bounds(ms[..|ms| - 1]), ms[|ms| - 1])
  }

  /** The accumulated bounds are the least and the greatest number of the list. */
  lemma {:induction false} BoundsAreExtremes(ms: seq<int>)
    ensures Bounds(ms).Some? ==> Bounds(ms).value.0 <= Bounds(ms).value.1
    ensures Bounds(ms).Some? ==> forall m :: m in ms ==> Bounds(ms).value.0 <= m <= Bounds(ms).value.1
    ensures Bounds(ms).Some? ==> Bounds(ms).value.0 in ms && Bounds(ms).value.1 in ms
  {
    if ms != [] {
      var init := ms[..|ms| - 1];
      assert ms == init + [ms[|ms| - 1]];
      BoundsAreExtremes(init);
    }
  }

  lemma BoundsSnoc(ms: seq<int>, m: int)
    ensures Bounds(ms + [m]) == Widen(Bounds(ms), m)
  {
    assert (ms + [m])[..|ms|] == ms;
  }

  /** Both ends of an optional (low, high) pair moved by `d`. */
  function ShiftBounds(b: Option<(int, int)>, d: int): Option<(int, int)> {
    match b
    case None => None
    case Some(lh) => Some((lh.0 + d, lh.1 + d))
  }

  /** Adding the same amount to every number moves both bounds by that amount. */
  lemma {:induction false} BoundsShift(ms: seq<int>, ns: seq<int>, d: int)
    requires |ns| == |ms|
    requires forall i :: 0 <= i < |ms| ==> ns[i] == ms[i] + d
    ensures Bounds(ns) == ShiftBounds(Bounds(ms), d)
  {
    if ms != [] {
      var n := |ms|;
      BoundsShift(ms[..n - 1], ns[..n - 1], d);
    }
  }

  /** Concatenation regroups freely. */
  lemma AppendRegroup<T>(a: seq<T>, b: seq<T>, c: seq<T>)
    ensures a + (b + c) == (a + b) + c
  {
  }
}
