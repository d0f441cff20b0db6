/**
 * Score analysis and the range-fit planner: the pitch range of a score, its
 * tempo, and the decision between playing every part ("Full Score") and
 * playing the first part alone, moved by whole octaves towards the device
 * range ("Melody Only").
 */
module ScoreAnalysis {
  import opened Music

  const DefaultTempoBpm: real := 120.0

  /**
   * The `number` of a metronome mark: missing, numeric, or text together
   * with what `float(text)` made of it (None when the conversion raised).
   */
  datatype MarkNumber = Absent | Numeric(value: real) | Text(converted: Option<real>)

  datatype MetronomeMark = MetronomeMark(number: MarkNumber)

  /**
   * A parsed score: elements outside any part, the parts in order, the
   * metronome marks in order, and whether looking the marks up raises.
   */
  datatype Score = Score(
    loose: seq<Event>,
    parts: seq<seq<Event>>,
    marks: seq<MetronomeMark>,
    tempoLookupFails: bool)

  function Concat(parts: seq<seq<Event>>): seq<Event> {
    if parts == [] then [] else parts[0] + Concat(parts[1..])
  }

  /** `score.flat`: every element of the score. */
  function Flat(s: Score): seq<Event> {
    s.loose + Concat(s.parts)
  }

  // ---------------------------------------------------------------------
  // get_score_range

  /** The elements `flat.notes` yields: everything but rests. */
  predicate IsNoteElement(e: Event) {
    !e.Rest?
  }

  predicate HasNoteElements(es: seq<Event>) {
    exists i :: 0 <= i < |es| && IsNoteElement(es[i])
  }

  function NoteMidis(ns: seq<ChordNote>): (ms: seq<int>)
    ensures |ms| == |ns| && forall i :: 0 <= i < |ms| ==> ms[i] == Midi(ns[i].pitch)
  {
    if ns == [] then [] else [Midi(ns[0].pitch)] + NoteMidis(ns[1..])
  }

  /** MIDI numbers of the pitches one element contributes (grace notes included). */
  function ElementMidis(e: Event): (ms: seq<int>)
    ensures e.Note? ==> ms == [Midi(e.pitch)]
    ensures e.Chord? ==> ms == NoteMidis(e.notes)
    ensures e.Rest? || e.Unpitched? ==> ms == []
  {
    match e
    case Note(p, _, _, _) => [Midi(p)]
    case Chord(ns, _, _) => NoteMidis(ns)
    case Rest(_) => []
    case Unpitched(_) => []
  }

  function Midis(es: seq<Event>): seq<int> {
    if es == [] then [] else Midis(es[..|es| - 1]) + ElementMidis(es[|es| - 1])
  }

  /**
   * The range get_score_range reports: None when there are no note elements
   * or none of them carries a pitch, otherwise the lowest and highest MIDI
   * number, both of which occur in the score.
   */
  function RangeOf(es: seq<Event>): (r: Option<(int, int)>)
    ensures r.None? <==> !HasNoteElements(es) || Midis(es) == []
  {
    if !HasNoteElements(es) then None else Bounds(Midis(es))
  }

  /** A reported range runs from the lowest to the highest MIDI number of the score. */
  lemma RangeOfExtremes(es: seq<Event>)
    ensures RangeOf(es).Some? ==> RangeOf(es).value.0 <= RangeOf(es).value.1
    ensures RangeOf(es).Some? ==> forall m :: m in Midis(es) ==> RangeOf(es).value.0 <= m <= RangeOf(es).value.1
    ensures RangeOf(es).Some? ==> RangeOf(es).value.0 in Midis(es) && RangeOf(es).value.1 in Midis(es)
  {
    BoundsAreExtremes(Midis(es));
  }

  /** What one more element adds to the scan of a prefix. */
  lemma PrefixStep(es: seq<Event>, i: nat)
    requires i < |es|
    ensures Midis(es[..i + 1]) == Midis(es[..i]) + ElementMidis(es[i])
    ensures HasNoteElements(es[..i + 1]) <==> HasNoteElements(es[..i]) || IsNoteElement(es[i])
  {
    assert es[..i + 1][..i] == es[..i];
    if HasNoteElements(es[..i + 1]) && !IsNoteElement(es[i]) {
      var j :| 0 <= j < i + 1 && IsNoteElement(es[..i + 1][j]);
      assert es[..i][j] == es[j];
    }
    if HasNoteElements(es[..i]) {
      var j :| 0 <= j < i && IsNoteElement(es[..i][j]);
      assert es[..i + 1][j] == es[j];
    }
    if IsNoteElement(es[i]) {
      assert es[..i + 1][i] == es[i];
    }
  }

  /** The inner loop over the pitches of one element. */
  method WidenAll(acc: Option<(int, int)>, ghost seen: seq<int>, current: seq<int>) returns (acc': Option<(int, int)>)
    requires acc == Bounds(seen)
    ensures acc' == Bounds(seen + current)
  {
    acc' := acc;
    var j := 0;
    assert seen + current[..0] == seen;
    while j < |current|
      invariant 0 <= j <= |current|
      invariant acc' == Bounds(seen + current[..j])
    {
      assert current[..j + 1] == current[..j] + [current[j]];
      AppendRegroup(seen, current[..j], [current[j]]);
      BoundsSnoc(seen + current[..j], current[j]);
      acc' := Widen(acc', current[j]);
      j := j + 1;
    }
    assert current[..j] == current;
  }

  /**
   * The accumulator loop of get_score_range.  `acc` holds (min_midi,
   * max_midi); None stands for the initial (+inf, -inf).
   */
  method ScoreRange(es: seq<Event>) returns (r: Option<(int, int)>)
    ensures r == RangeOf(es)
  {
    var acc: Option<(int, int)> := None;
    var hasNotes := false;
    var i := 0;
    while i < |es|
      invariant 0 <= i <= |es|
      invariant hasNotes <==> HasNoteElements(es[..i])
      invariant acc == Bounds(Midis(es[..i]))
    {
      var e := es[i];
      PrefixStep(es, i);
      ghost var seen := Midis(es[..i]);
      if IsNoteElement(e) {
        hasNotes := true;
        acc := WidenAll(acc, seen, ElementMidis(e));
      } else {
        assert ElementMidis(e) == [];
        assert seen + ElementMidis(e) == seen;
      }
      i := i + 1;
    }
    assert es[..i] == es;
    if !hasNotes || acc.None? {
      r := None;
    } else {
      r := acc;
    }
  }

  // ---------------------------------------------------------------------
  // get_tempo_bpm

  /** The number a metronome mark yields, if any (before the positivity test). */
  function MarkValue(m: MetronomeMark): Option<real> {
    match m.number
    case Absent => None
    case Numeric(v) => Some(v)
    case Text(c) => Some(c.GetOr(DefaultTempoBpm))
  }

  /**
   * get_tempo_bpm: only the first metronome mark is consulted; a positive
   * value is the tempo, anything else (or an error) gives the default.
   */
  function TempoBpm(marks: seq<MetronomeMark>, lookupFails: bool): (bpm: real)
    ensures bpm > 0.0
    ensures bpm == DefaultTempoBpm || (!lookupFails && marks != [] && MarkValue(marks[0]) == Some(bpm))
    ensures lookupFails || marks == [] ==> bpm == DefaultTempoBpm
    ensures !lookupFails && marks != [] && MarkValue(marks[0]).Some? && MarkValue(marks[0]).value > 0.0 ==>
      bpm == MarkValue(marks[0]).value
  {
    if lookupFails || marks == [] then DefaultTempoBpm
    else
      match MarkValue(marks[0])
      case None => DefaultTempoBpm
      case Some(v) => if v > 0.0 then v else DefaultTempoBpm
  }

  lemma OnlyFirstMarkCounts(marks: seq<MetronomeMark>, lookupFails: bool)
    requires marks != []
    ensures TempoBpm(marks, lookupFails) == TempoBpm(marks[..1], lookupFails)
  {
  }

  // ---------------------------------------------------------------------
  // load_and_prepare_score

  /** ceil(d / 12) for a positive distance d. */
  function CeilTwelfths(d: int): (c: int)
    requires d > 0
    ensures c >= 1 && 12 * (c - 1) < d <= 12 * c
  {
    (d + 11) / 12
  }

  /** The full score is played when its range lies within the device range widened by the tolerance. */
  predicate FitsWithTolerance(lo: int, hi: int, deviceMin: int, deviceMax: int, tolerance: int) {
    lo >= deviceMin - tolerance && hi <= deviceMax + tolerance
  }

  /**
   * The melody transposition: up by whole octaves until the lowest note
   * reaches the device minimum, else down until the highest note is within
   * the device maximum, else none.  The low end is looked at first.
   */
  function MelodyShift(lo: int, hi: int, deviceMin: int, deviceMax: int): (k: int)
    ensures k % 12 == 0
    ensures lo < deviceMin ==> k > 0 && deviceMin <= lo + k <= deviceMin + 11
    ensures lo >= deviceMin && hi > deviceMax ==> k < 0 && deviceMax - 11 <= hi + k <= deviceMax
    ensures lo >= deviceMin && hi <= deviceMax ==> k == 0
  {
    if lo < deviceMin then 12 * CeilTwelfths(deviceMin - lo)
    else if hi > deviceMax then -12 * CeilTwelfths(hi - deviceMax)
    else 0
  }

  /**
   * The four values load_and_prepare_score returns: the elements to play
   * (None when there is nothing to play), whether the device may move single
   * notes by octaves, the mode label and the tempo.
   */
  datatype Prepared = Prepared(elements: Option<seq<Event>>, applyShifts: bool, modeLabel: string, bpm: real)

  const FullLabel := "Full Score"
  const MelodyLabel := "Melody Only"
  const TransposedMelodyLabel := "Melody Only+Transposed"

  function Failure(name: string): Prepared {
    Prepared(None, false, name, DefaultTempoBpm)
  }

  /**
   * load_and_prepare_score.  `parsed` is the outcome of parsing the file (None
   * when parsing raised), `chordified` that of chordify (None when it raised)
   * and `transposeOk` whether the melody transposition succeeds.
   *
   * The label, case by case: "No Notes" when the parsed score has no notes
   * at all; "No Melody Notes" when it does not fit and its first part has
   * none; "Error Loading" when parsing raises, when it does not fit and has
   * no part, or when the melody needs moving and the transposition raises;
   * "Melody Only+Transposed" exactly when the melody is moved, and "Melody
   * Only" when it need not be.  Every success carries the tempo of the
   * parsed score; every failure carries nothing to play and the default tempo.
   * Full mode plays the chordified score (the flat score when chordify
   * raises); melody mode plays the first part moved by the melody shift.
   */
  function LoadAndPrepare(
    parsed: Option<Score>, chordified: Option<seq<Event>>, transposeOk: bool,
    tolerance: int, deviceMin: int, deviceMax: int): (r: Prepared)
    ensures r.elements.None? ==> !r.applyShifts && r.bpm == DefaultTempoBpm
    ensures r.elements.None? ==> r.modeLabel == "No Notes" || r.modeLabel == "No Melody Notes" || r.modeLabel == "Error Loading"
    ensures r.elements.Some? ==> r.bpm > 0.0
    ensures r.elements.Some? ==> (r.applyShifts <==> r.modeLabel == FullLabel)
    ensures var full := if parsed.Some? then RangeOf(Flat(parsed.value)) else None;
      var fits := full.Some? && FitsWithTolerance(full.value.0, full.value.1, deviceMin, deviceMax, tolerance);
      var melodyMode := parsed.Some? && full.Some? && !fits && parsed.value.parts != [];
      var melody := if melodyMode then RangeOf(parsed.value.parts[0]) else None;
      var shift := if melody.Some? then MelodyShift(melody.value.0, melody.value.1, deviceMin, deviceMax) else 0;
      (r.modeLabel == "No Notes" <==> parsed.Some? && full.None?) &&
      (r.modeLabel == "No Melody Notes" <==> melodyMode && melody.None?) &&
      (r.modeLabel == "Error Loading" <==>
         parsed.None? || (parsed.Some? && full.Some? && !fits && parsed.value.parts == []) ||
         (melody.Some? && shift != 0 && !transposeOk)) &&
      (r.modeLabel == TransposedMelodyLabel <==> melody.Some? && shift != 0 && transposeOk) &&
      (r.modeLabel == MelodyLabel <==> melody.Some? && shift == 0) &&
      (r.modeLabel in {"No Notes", "No Melody Notes", "Error Loading"} ==> r == Failure(r.modeLabel)) &&
      (r.modeLabel == FullLabel ==> parsed.Some? && r.elements == Some(chordified.GetOr(Flat(parsed.value)))) &&
      (r.modeLabel == MelodyLabel || r.modeLabel == TransposedMelodyLabel ==>
         melody.Some? && r.elements == Some(ShiftEvents(parsed.value.parts[0], shift / 12)))
    ensures r.elements.Some? ==> parsed.Some? && r.bpm == TempoBpm(parsed.value.marks, parsed.value.tempoLookupFails)
  {
    if parsed.None? then Failure("Error Loading")
    else
      var s := parsed.value;
      match RangeOf(Flat(s))
      case None => Failure("No Notes")
      case Some(full) =>
        if FitsWithTolerance(full.0, full.1, deviceMin, deviceMax, tolerance) then
          Prepared(Some(chordified.GetOr(Flat(s))), true, FullLabel, TempoBpm(s.marks, s.tempoLookupFails))
        else if s.parts == [] then Failure("Error Loading")
        else
          match RangeOf(s.parts[0])
          case None => Failure("No Melody Notes")
          case Some(melody) =>
            var k := MelodyShift(melody.0, melody.1, deviceMin, deviceMax);
            if k != 0 && !transposeOk then Failure("Error Loading")
            else
              Prepared(Some(ShiftEvents(s.parts[0], k / 12)), false,
                       if k != 0 then TransposedMelodyLabel else MelodyLabel,
                       TempoBpm(s.marks, s.tempoLookupFails))
  }

  /** Full mode is chosen exactly when the whole score fits the widened device range. */
  lemma FullModeIff(
    parsed: Option<Score>, chordified: Option<seq<Event>>, transposeOk: bool,
    tolerance: int, deviceMin: int, deviceMax: int)
    ensures LoadAndPrepare(parsed, chordified, transposeOk, tolerance, deviceMin, deviceMax).modeLabel == FullLabel
        <==> parsed.Some? && RangeOf(Flat(parsed.value)).Some?
             && FitsWithTolerance(RangeOf(Flat(parsed.value)).value.0, RangeOf(Flat(parsed.value)).value.1,
                                  deviceMin, deviceMax, tolerance)
  {
  }

  // ---------------------------------------------------------------------
  // Transposition moves the range

  lemma ElementMidisShift(e: Event, k: int)
    ensures |ElementMidis(ShiftEvent(e, k))| == |ElementMidis(e)|
    ensures forall j :: 0 <= j < |ElementMidis(e)| ==> ElementMidis(ShiftEvent(e, k))[j] == ElementMidis(e)[j] + 12 * k
  {
  }

  lemma ConcatShifted(a: seq<int>, b: seq<int>, a': seq<int>, b': seq<int>, d: int)
    requires |a'| == |a| && forall i :: 0 <= i < |a| ==> a'[i] == a[i] + d
    requires |b'| == |b| && forall i :: 0 <= i < |b| ==> b'[i] == b[i] + d
    ensures |a' + b'| == |a + b| && forall i :: 0 <= i < |a + b| ==> (a' + b')[i] == (a + b)[i] + d
  {
  }

  lemma {:induction false} MidisShift(es: seq<Event>, k: int)
    ensures |Midis(ShiftEvents(es, k))| == |Midis(es)|
    ensures forall i :: 0 <= i < |Midis(es)| ==> Midis(ShiftEvents(es, k))[i] == Midis(es)[i] + 12 * k
  {
    if es != [] {
      var n := |es|;
      var ts := ShiftEvents(es, k);
      assert ts[..n - 1] == ShiftEvents(es[..n - 1], k);
      MidisShift(es[..n - 1], k);
      ElementMidisShift(es[n - 1], k);
      ConcatShifted(Midis(es[..n - 1]), ElementMidis(es[n - 1]),
                    Midis(ShiftEvents(es[..n - 1], k)), ElementMidis(ShiftEvent(es[n - 1], k)), 12 * k);
    }
  }

  lemma HasNoteElementsShift(es: seq<Event>, k: int)
    ensures HasNoteElements(ShiftEvents(es, k)) == HasNoteElements(es)
  {
    if HasNoteElements(es) {
      var i :| 0 <= i < |es| && IsNoteElement(es[i]);
      assert IsNoteElement(ShiftEvents(es, k)[i]);
    }
    if HasNoteElements(ShiftEvents(es, k)) {
      var i :| 0 <= i < |es| && IsNoteElement(ShiftEvents(es, k)[i]);
      assert IsNoteElement(es[i]);
    }
  }

  /** Moving every element by k octaves moves both ends of the range by 12k semitones. */
  lemma RangeOfShift(es: seq<Event>, k: int)
    ensures RangeOf(ShiftEvents(es, k)) == ShiftBounds(RangeOf(es), 12 * k)
  {
    var ts := ShiftEvents(es, k);
    assert Bounds(Midis(ts)) == ShiftBounds(Bounds(Midis(es)), 12 * k) by {
      MidisShift(es, k);
      BoundsShift(Midis(es), Midis(ts), 12 * k);
    }
    HasNoteElementsShift(es, k);
  }

  /**
   * In melody mode the first part is what is played, moved by the melody
   * shift: if its lowest note was below the device minimum it now lies in the
   * octave starting at the minimum; otherwise, if its highest note was above
   * the maximum, it now lies in the octave ending at the maximum.
   */
  lemma MelodyLandsInRange(
    s: Score, chordified: Option<seq<Event>>, transposeOk: bool,
    tolerance: int, deviceMin: int, deviceMax: int)
    requires s.parts != [] && RangeOf(s.parts[0]).Some?
    requires RangeOf(Flat(s)).Some?
    requires !FitsWithTolerance(RangeOf(Flat(s)).value.0, RangeOf(Flat(s)).value.1, deviceMin, deviceMax, tolerance)
    ensures var r := LoadAndPrepare(Some(s), chordified, transposeOk, tolerance, deviceMin, deviceMax);
            var (lo, hi) := RangeOf(s.parts[0]).value;
            r.elements.Some? ==>
              !r.applyShifts && RangeOf(r.elements.value).Some? &&
              var (lo', hi') := RangeOf(r.elements.value).value;
              (lo < deviceMin ==> deviceMin <= lo' <= deviceMin + 11) &&
              (lo >= deviceMin && hi > deviceMax ==> deviceMax - 11 <= hi' <= deviceMax) &&
              (lo >= deviceMin && hi <= deviceMax ==> lo' == lo && hi' == hi)
  {
    var (lo, hi) := RangeOf(s.parts[0]).value;
    var k := MelodyShift(lo, hi, deviceMin, deviceMax);
    RangeOfShift(s.parts[0], k / 12);
  }

  /**
   * The low end wins: a melody that is too low and too wide is moved up even
   * when that pushes its top further beyond the device maximum.
   */
  lemma LowEndWins()
    ensures MelodyShift(40, 90, 48, 83) == 12
  {
  }
}
