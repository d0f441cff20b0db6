/**
 * The score-filter utility: scans a source directory of MusicXML files and
 * moves those whose pitch range suits the keyboard (C3..B5, MIDI 48..83,
 * widened by a tolerance) into the score directory; with the melody
 * fallback, a score whose first part has any notes is moved as well.
 * Its range scan differs from the player's in one respect: grace notes and
 * grace chords do not count.
 */
module ScoreFilter {
  import opened Music
  import opened ScoreAnalysis

  /** The strict target range, C3 and B5. */
  const MinMidi: int := 48
  const MaxMidi: int := 83

  // ---------------------------------------------------------------------
  // get_score_range, grace notes skipped

  predicate IsGrace(e: Event) {
    (e.Note? || e.Chord?) && e.grace
  }

  /** The MIDI numbers one element contributes to the filter's scan. */
  function CountedMidis(e: Event): seq<int> {
    if IsGrace(e) then [] else ElementMidis(e)
  }

  function NonGraceMidis(es: seq<Event>): seq<int> {
    if es == [] then [] else NonGraceMidis(es[..|es| - 1]) + CountedMidis(es[|es| - 1])
  }

  /**
   * The range the filter reports: None when the scan raises (`scanFails`)
   * or no pitch outside grace notes was found, otherwise (min, max).
   */
  function FilterRange(es: seq<Event>, scanFails: bool): (r: Option<(int, int)>)
    ensures r.None? <==> scanFails || NonGraceMidis(es) == []
  {
    if scanFails then None else Bounds(NonGraceMidis(es))
  }

  /** A reported range is the least and the greatest pitch outside grace notes. */
  lemma FilterRangeExtremes(es: seq<Event>, scanFails: bool)
    ensures FilterRange(es, scanFails).Some? ==> FilterRange(es, scanFails).value.0 <= FilterRange(es, scanFails).value.1
    ensures FilterRange(es, scanFails).Some? ==>
      forall m :: m in NonGraceMidis(es) ==> FilterRange(es, scanFails).value.0 <= m <= FilterRange(es, scanFails).value.1
    ensures FilterRange(es, scanFails).Some? ==>
      FilterRange(es, scanFails).value.0 in NonGraceMidis(es) && FilterRange(es, scanFails).value.1 in NonGraceMidis(es)
  {
    BoundsAreExtremes(NonGraceMidis(es));
  }

  lemma NonGraceMidisSnoc(es: seq<Event>, e: Event)
    ensures NonGraceMidis(es + [e]) == NonGraceMidis(es) + CountedMidis(e)
  {
    assert (es + [e])[..|es|] == es;
  }

  /** One inductive step of `GraceMidisIgnored`: a trailing element is counted alike on both sides. */
  lemma GraceStep(before: seq<Event>, g: Event, init: seq<Event>, last: Event)
    requires NonGraceMidis(before + [g] + init) == NonGraceMidis(before + init)
    ensures NonGraceMidis(before + [g] + (init + [last])) == NonGraceMidis(before + (init + [last]))
  {
    AppendRegroup(before + [g], init, [last]);
    AppendRegroup(before, init, [last]);
    NonGraceMidisSnoc(before + [g] + init, last);
    NonGraceMidisSnoc(before + init, last);
  }

  lemma {:induction false} GraceMidisIgnored(before: seq<Event>, g: Event, after: seq<Event>)
    requires IsGrace(g)
    ensures NonGraceMidis(before + [g] + after) == NonGraceMidis(before + after)
  {
    if after == [] {
      assert before + [g] + after == before + [g] && before + after == before;
      NonGraceMidisSnoc(before, g);
    } else {
      var init, last := after[..|after| - 1], after[|after| - 1];
      assert after == init + [last];
      GraceMidisIgnored(before, g, init);
      GraceStep(before, g, init, last);
    }
  }

  lemma GraceElementIgnored(before: seq<Event>, g: Event, after: seq<Event>, scanFails: bool)
    requires IsGrace(g)
    ensures FilterRange(before + [g] + after, scanFails) == FilterRange(before + after, scanFails)
  {
    GraceMidisIgnored(before, g, after);
  }

  lemma {:induction false} NoGraceSameMidis(es: seq<Event>)
    requires forall i :: 0 <= i < |es| ==> !IsGrace(es[i])
    ensures NonGraceMidis(es) == Midis(es)
  {
    if es != [] {
      NoGraceSameMidis(es[..|es| - 1]);
    }
  }

  lemma {:induction false} PitchesComeFromNoteElements(es: seq<Event>)
    ensures Midis(es) != [] ==> HasNoteElements(es)
  {
    if es != [] {
      var n := |es|;
      if ElementMidis(es[n - 1]) != [] {
        assert IsNoteElement(es[n - 1]);
      } else {
        PitchesComeFromNoteElements(es[..n - 1]);
        if Midis(es[..n - 1]) != [] {
          var j :| 0 <= j < n - 1 && IsNoteElement(es[..n - 1][j]);
          assert IsNoteElement(es[j]);
        }
      }
    }
  }

  /**
   * On a score without grace notes the filter and the player report the
   * same range, so the two scans differ only in the grace notes.
   */
  lemma AgreesWithPlayerScan(es: seq<Event>)
    requires forall i :: 0 <= i < |es| ==> !IsGrace(es[i])
    ensures FilterRange(es, false) == RangeOf(es)
  {
    NoGraceSameMidis(es);
    PitchesComeFromNoteElements(es);
  }

  lemma NonGracePrefixStep(es: seq<Event>, i: nat)
    requires i < |es|
    ensures NonGraceMidis(es[..i + 1]) == NonGraceMidis(es[..i]) + CountedMidis(es[i])
  {
    assert es[..i + 1][..i] == es[..i];
  }

  /** One pass of the loop body: a grace element is skipped, any other widens the range by its pitches. */
  method ScanStep(es: seq<Event>, i: nat, acc: Option<(int, int)>, hasNotes: bool)
    returns (acc': Option<(int, int)>, hasNotes': bool)
    requires i < |es|
    requires acc == Bounds(NonGraceMidis(es[..i]))
    requires NonGraceMidis(es[..i]) != [] ==> hasNotes
    ensures acc' == Bounds(NonGraceMidis(es[..i + 1]))
    ensures hasNotes' == (hasNotes || IsNoteElement(es[i]))
    ensures NonGraceMidis(es[..i + 1]) != [] ==> hasNotes'
  {
    var e := es[i];
    NonGracePrefixStep(es, i);
    ghost var seen := NonGraceMidis(es[..i]);
    hasNotes' := hasNotes || IsNoteElement(e);
    if IsGrace(e) {
      assert seen + CountedMidis(e) == seen;
      acc' := acc;
    } else {
      acc' := WidenAll(acc, seen, ElementMidis(e));
    }
  }

  /**
   * The accumulator loop: `acc` holds (min_midi, max_midi), None standing
   * for the initial (+inf, -inf); `scanFails` is an exception raised while
   * iterating, which the function reports as "no range".
   */
  method ScanRange(es: seq<Event>, scanFails: bool) returns (r: Option<(int, int)>)
    ensures r == FilterRange(es, scanFails)
  {
    if scanFails {
      return None;
    }
    var acc: Option<(int, int)> := None;
    var hasNotes := false;
    var i := 0;
    while i < |es|
      invariant 0 <= i <= |es|
      invariant acc == Bounds(NonGraceMidis(es[..i]))
      invariant NonGraceMidis(es[..i]) != [] ==> hasNotes
    {
      acc, hasNotes := ScanStep(es, i, acc, hasNotes);
      i := i + 1;
    }
    assert es[..i] == es;
    if !hasNotes || acc.None? {
      r := None;
    } else {
      r := acc;
    }
  }

  // ---------------------------------------------------------------------
  // The decision for one parsed score

  datatype MoveReason = FullWithinTolerance | MelodyFallback

  /** Why a score stays where it is; OutsideTolerance lists which end failed. */
  datatype SkipReason = NoNotes | NoParts | MelodyHasNoNotes | OutsideTolerance(tooLow: bool, tooHigh: bool)

  datatype Decision = Move(why: MoveReason) | Skip(reason: SkipReason)

  /**
   * A score as converter.parse returned it, with whether scanning the whole
   * score or its first part raises.
   */
  datatype Parsed = Parsed(score: Score, fullScanFails: bool, melodyScanFails: bool)

  function FullRange(p: Parsed): Option<(int, int)> {
    FilterRange(Flat(p.score), p.fullScanFails)
  }

  function MelodyRange(p: Parsed): Option<(int, int)>
    requires p.score.parts != []
  {
    FilterRange(p.score.parts[0], p.melodyScanFails)
  }

  predicate WithinTolerance(lo: int, hi: int, tolerance: int) {
    MinMidi - tolerance <= lo && hi <= MaxMidi + tolerance
  }

  /**
   * The checks of check_and_move_scores for one parsed score: full range
   * within the tolerated bounds, else the melody fallback when enabled,
   * else a skip that names the failing ends.
   */
  function Decide(p: Parsed, tolerance: int, fallback: bool): (d: Decision)
    ensures d == Skip(NoNotes) <==> FullRange(p).None?
    ensures d == Move(FullWithinTolerance) <==>
      FullRange(p).Some? && WithinTolerance(FullRange(p).value.0, FullRange(p).value.1, tolerance)
    ensures d == Move(MelodyFallback) <==>
      FullRange(p).Some? && !WithinTolerance(FullRange(p).value.0, FullRange(p).value.1, tolerance) &&
      fallback && p.score.parts != [] && MelodyRange(p).Some?
    ensures d == Skip(NoParts) <==>
      FullRange(p).Some? && !WithinTolerance(FullRange(p).value.0, FullRange(p).value.1, tolerance) &&
      fallback && p.score.parts == []
    ensures d.Skip? && d.reason.OutsideTolerance? <==>
      FullRange(p).Some? && !WithinTolerance(FullRange(p).value.0, FullRange(p).value.1, tolerance) && !fallback
    ensures d.Skip? && d.reason.OutsideTolerance? ==>
      d.reason.tooLow == (FullRange(p).value.0 < MinMidi - tolerance) &&
      d.reason.tooHigh == (FullRange(p).value.1 > MaxMidi + tolerance) &&
      (d.reason.tooLow || d.reason.tooHigh)
  {
    match FullRange(p)
    case None => Skip(NoNotes)
    case Some(range) =>
      var lo, hi := range.0, range.1;
      if WithinTolerance(lo, hi, tolerance) then Move(FullWithinTolerance)
      else if fallback then
        if p.score.parts == [] then Skip(NoParts)
        else if MelodyRange(p).None? then Skip(MelodyHasNoNotes)
        else Move(MelodyFallback)
      else Skip(OutsideTolerance(lo < MinMidi - tolerance, hi > MaxMidi + tolerance))
  }

  /** A score moved under some tolerance is moved under any larger one. */
  lemma LargerToleranceKeepsFullMoves(p: Parsed, t: int, t': int, fallback: bool, fallback': bool)
    requires t <= t'
    requires Decide(p, t, fallback) == Move(FullWithinTolerance)
    ensures Decide(p, t', fallback') == Move(FullWithinTolerance)
  {
  }

  /**
   * With no tolerance, a score moved for its full range has every pitch
   * outside grace notes on the keyboard, C3..B5.
   */
  lemma StrictMoveFitsKeyboard(p: Parsed, fallback: bool)
    requires Decide(p, 0, fallback) == Move(FullWithinTolerance)
    ensures forall m :: m in NonGraceMidis(Flat(p.score)) ==> MinMidi <= m <= MaxMidi
  {
    FilterRangeExtremes(Flat(p.score), p.fullScanFails);
  }

  // ---------------------------------------------------------------------
  // Which directory entries are considered

  function LowerChar(c: char): (l: char)
    ensures 'A' <= c <= 'Z' ==> l as int == c as int + 32
    ensures !('A' <= c <= 'Z') ==> l == c
  {
    if 'A' <= c <= 'Z' then (c as int + 32) as char else c
  }

  /** `str.lower` on ASCII letters. */
  function Lower(s: string): (r: string)
    ensures |r| == |s| && forall i :: 0 <= i < |s| ==> r[i] == LowerChar(s[i])
  {
    if s == [] then [] else [LowerChar(s[0])] + Lower(s[1..])
  }

  predicate EndsWith(s: string, suffix: string) {
    |suffix| <= |s| && s[|s| - |suffix|..] == suffix
  }

  predicate HasScoreSuffix(name: string) {
    EndsWith(Lower(name), ".mxl") || EndsWith(Lower(name), ".musicxml")
  }

  /** The suffix test ignores case. */
  lemma SuffixCaseIgnored(stem: string)
    ensures HasScoreSuffix(stem + ".MXL") && HasScoreSuffix(stem + ".mxl")
    ensures HasScoreSuffix(stem + ".MusicXML") && HasScoreSuffix(stem + ".musicxml")
  {
    LowerEndsWith(stem, ".MXL", ".mxl");
    LowerEndsWith(stem, ".mxl", ".mxl");
    LowerEndsWith(stem, ".MusicXML", ".musicxml");
    LowerEndsWith(stem, ".musicxml", ".musicxml");
  }

  /** Lower-casing a name lower-cases its last characters. */
  lemma LowerEndsWith(stem: string, suffix: string, lowered: string)
    requires |lowered| == |suffix| && forall i :: 0 <= i < |suffix| ==> LowerChar(suffix[i]) == lowered[i]
    ensures EndsWith(Lower(stem + suffix), lowered)
  {
    var l := Lower(stem + suffix);
    assert forall i :: 0 <= i < |suffix| ==> l[|stem| + i] == LowerChar(suffix[i]);
    assert l[|stem|..] == lowered;
  }

  /** Other files are passed over without being counted. */
  lemma OtherSuffixesIgnored()
    ensures !HasScoreSuffix("score.xml") && !HasScoreSuffix("mxl")
  {
    PlainXmlIgnored();
  }

  /** A plain `.xml` name matches neither suffix. */
  lemma PlainXmlIgnored()
    ensures !HasScoreSuffix("score.xml")
  {
    NineCharsWithoutM("score.xml");
  }

  /** A nine-character name with no `m` at positions 1 and 6 has neither suffix. */
  lemma NineCharsWithoutM(name: string)
    requires |name| == 9 && LowerChar(name[1]) != 'm' && LowerChar(name[6]) != 'm'
    ensures !HasScoreSuffix(name)
  {
    var l := Lower(name);
    MismatchNotSuffix(l, ".mxl", 1);
    MismatchNotSuffix(l, ".musicxml", 1);
  }

  /** One differing character rules a suffix out. */
  lemma MismatchNotSuffix(s: string, suffix: string, i: nat)
    requires |suffix| <= |s| ==> i < |suffix| && s[|s| - |suffix| + i] != suffix[i]
    ensures !EndsWith(s, suffix)
  {
    if |suffix| <= |s| {
      assert s[|s| - |suffix|..][i] != suffix[i];
    }
  }

  // ---------------------------------------------------------------------
  // One directory entry

  /**
   * An entry of the source directory: its name, whether it is a regular
   * file, what converter.parse made of it (None when parsing raised), and
   * whether shutil.move succeeds.
   */
  datatype FileEntry = FileEntry(name: string, isFile: bool, parsed: Option<Parsed>, moveSucceeds: bool)

  predicate Considered(e: FileEntry) {
    HasScoreSuffix(e.name) && e.isFile
  }

  datatype Outcome = NotConsidered | Moved(why: MoveReason) | Skipped(reason: SkipReason) | Errored

  /** What happens to one entry: parse errors and failed moves are errors. */
  function FileOutcome(e: FileEntry, tolerance: int, fallback: bool): (o: Outcome)
    ensures o.NotConsidered? <==> !Considered(e)
    ensures o.Errored? <==> Considered(e) && (e.parsed.None? || (Decide(e.parsed.value, tolerance, fallback).Move? && !e.moveSucceeds))
    ensures o.Moved? <==> Considered(e) && e.parsed.Some? && Decide(e.parsed.value, tolerance, fallback).Move? && e.moveSucceeds
    ensures o.Moved? ==> o.why == Decide(e.parsed.value, tolerance, fallback).why
    ensures o.Skipped? ==> Considered(e) && e.parsed.Some? && Decide(e.parsed.value, tolerance, fallback) == Skip(o.reason)
  {
    if !Considered(e) then NotConsidered
    else
      match e.parsed
      case None => Errored
      case Some(p) =>
        match Decide(p, tolerance, fallback)
        case Skip(reason) => Skipped(reason)
        case Move(why) => if e.moveSucceeds then Moved(why) else Errored
  }

  /**
   * The body of the loop for one considered entry, with the `move_file`
   * flag and the two range scans.
   */
  method CheckFile(e: FileEntry, tolerance: int, fallback: bool) returns (o: Outcome)
    requires Considered(e)
    ensures o == FileOutcome(e, tolerance, fallback)
  {
    if e.parsed.None? {
      return Errored;
    }
    var p := e.parsed.value;
    var full := ScanRange(Flat(p.score), p.fullScanFails);
    if full.None? {
      return Skipped(NoNotes);
    }
    var moveFile := false;
    var why := FullWithinTolerance;
    var lo, hi := full.value.0, full.value.1;
    if lo >= MinMidi - tolerance && hi <= MaxMidi + tolerance {
      moveFile := true;
    } else if fallback {
      if p.score.parts == [] {
        o := Skipped(NoParts);
      } else {
        var melody := ScanRange(p.score.parts[0], p.melodyScanFails);
        if melody.None? {
          o := Skipped(MelodyHasNoNotes);
        } else {
          moveFile := true;
          why := MelodyFallback;
        }
      }
    } else {
      o := Skipped(OutsideTolerance(lo < MinMidi - tolerance, hi > MaxMidi + tolerance));
    }
    if moveFile {
      if e.moveSucceeds {
        o := Moved(why);
      } else {
        o := Errored;
      }
    }
  }

  // ---------------------------------------------------------------------
  // check_and_move_scores

  datatype Counts = Counts(moved: nat, skipped: nat, errors: nat)

  /** The three counters after the entries, in listing order. */
  function Tally(es: seq<FileEntry>, tolerance: int, fallback: bool): Counts {
    if es == [] then Counts(0, 0, 0)
    else
      var c := Tally(es[..|es| - 1], tolerance, fallback);
      match FileOutcome(es[|es| - 1], tolerance, fallback)
      case NotConsidered => c
      case Moved(_) => c.(moved := c.moved + 1)
      case Skipped(_) => c.(skipped := c.skipped + 1)
      case Errored => c.(errors := c.errors + 1)
  }

  /** The names of the entries moved into the score directory, in order. */
  function MovedNames(es: seq<FileEntry>, tolerance: int, fallback: bool): seq<string> {
    if es == [] then []
    else
      var e := es[|es| - 1];
      MovedNames(es[..|es| - 1], tolerance, fallback) + (if FileOutcome(e, tolerance, fallback).Moved? then [e.name] else [])
  }

  function ConsideredCount(es: seq<FileEntry>): nat {
    if es == [] then 0 else ConsideredCount(es[..|es| - 1]) + (if Considered(es[|es| - 1]) then 1 else 0)
  }

  /** Each considered entry raises exactly one counter; the others none. */
  lemma {:induction false} EachConsideredCountedOnce(es: seq<FileEntry>, tolerance: int, fallback: bool)
    ensures Tally(es, tolerance, fallback).moved + Tally(es, tolerance, fallback).skipped
          + Tally(es, tolerance, fallback).errors == ConsideredCount(es)
  {
    if es != [] {
      EachConsideredCountedOnce(es[..|es| - 1], tolerance, fallback);
    }
  }

  /** Only successfully moved entries reach the score directory. */
  lemma {:induction false} MovedNamesCounted(es: seq<FileEntry>, tolerance: int, fallback: bool)
    ensures |MovedNames(es, tolerance, fallback)| == Tally(es, tolerance, fallback).moved
    ensures forall k :: 0 <= k < |MovedNames(es, tolerance, fallback)| ==>
      exists i :: 0 <= i < |es| && es[i].name == MovedNames(es, tolerance, fallback)[k] && Considered(es[i])
  {
    if es != [] {
      var n := |es|;
      var init, last := es[..n - 1], es[n - 1];
      MovedNamesCounted(init, tolerance, fallback);
      var before := MovedNames(init, tolerance, fallback);
      var ms := MovedNames(es, tolerance, fallback);
      assert ms == before + (if FileOutcome(last, tolerance, fallback).Moved? then [last.name] else []);
      assert FileOutcome(last, tolerance, fallback).Moved? ==> Considered(last);
      forall k | 0 <= k < |ms|
        ensures exists i :: 0 <= i < |es| && es[i].name == ms[k] && Considered(es[i])
      {
        if k < |before| {
          var i :| 0 <= i < |init| && init[i].name == before[k] && Considered(init[i]);
          assert es[i] == init[i];
        } else {
          assert ms[k] == last.name && Considered(last);
        }
      }
    }
  }

  lemma EntryStep(es: seq<FileEntry>, i: nat)
    requires i < |es|
    ensures es[..i + 1][..i] == es[..i] && es[..i + 1][i] == es[i]
  {
  }

  /**
   * check_and_move_scores: nothing happens without a source directory;
   * otherwise every entry is looked at once, in listing order, and the
   * counters and the moved files are those of the outcomes.
   */
  method CheckAndMove(sourceIsDir: bool, entries: seq<FileEntry>, tolerance: int, fallback: bool)
    returns (moved: nat, skipped: nat, errors: nat, movedFiles: seq<string>)
    ensures !sourceIsDir ==> moved == 0 && skipped == 0 && errors == 0 && movedFiles == []
    ensures sourceIsDir ==> Counts(moved, skipped, errors) == Tally(entries, tolerance, fallback)
    ensures sourceIsDir ==> movedFiles == MovedNames(entries, tolerance, fallback)
    ensures sourceIsDir ==> moved + skipped + errors == ConsideredCount(entries)
  {
    moved, skipped, errors, movedFiles := 0, 0, 0, [];
    if !sourceIsDir {
      return;
    }
    var i := 0;
    while i < |entries|
      invariant 0 <= i <= |entries|
      invariant Counts(moved, skipped, errors) == Tally(entries[..i], tolerance, fallback)
      invariant movedFiles == MovedNames(entries[..i], tolerance, fallback)
    {
      var e := entries[i];
      EntryStep(entries, i);
      if HasScoreSuffix(e.name) && e.isFile {
        var o := CheckFile(e, tolerance, fallback);
        match o
        case Moved(_) =>
          moved := moved + 1;
          movedFiles := movedFiles + [e.name];
        case Skipped(_) =>
          skipped := skipped + 1;
        case Errored =>
          errors := errors + 1;
        case NotConsidered =>
      }
      i := i + 1;
    }
    assert entries[..i] == entries;
    EachConsideredCountedOnce(entries, tolerance, fallback);
  }
}
