/**
 * The transport: which score plays next, the playing / paused / stop-request
 * flags driven by the hotkeys, the tie tracker of the playback loop, and one
 * pass of the playback loop over a prepared element list, seen as the list of
 * calls it makes on the output device.
 */
module Transport {
  import opened Music
  import opened ScoreAnalysis

  // ---------------------------------------------------------------------
  // Device range (Player.__init__)

  /** The three output devices the player can drive. */
  datatype DeviceKind = KeyboardDevice | SampleDevice | MidiDevice

  /** The name the player looks the device up under. */
  function DeviceName(kind: DeviceKind): string {
    match kind
    case KeyboardDevice => "pynput"
    case SampleDevice => "sample"
    case MidiDevice => "midi"
  }

  /** The per-device MIDI ranges of the configuration; there is no entry for "midi". */
  const BackendMidiRanges: map<string, (int, int)> := map["pynput" := (48, 83), "sample" := (36, 92)]

  /** C3 to B5, used when the device has no entry. */
  const FallbackRange: (int, int) := (48, 83)

  /** The (min, max) MIDI range the planner fits scores into for this device. */
  function BackendRange(kind: DeviceKind): (r: (int, int))
    ensures r.0 <= r.1
    ensures DeviceName(kind) in BackendMidiRanges ==> r == BackendMidiRanges[DeviceName(kind)]
    ensures DeviceName(kind) !in BackendMidiRanges ==> r == FallbackRange
  {
    var name := DeviceName(kind);
    if name in BackendMidiRanges then BackendMidiRanges[name] else FallbackRange
  }

  /** The MIDI device has no configured range and gets C3..B5. */
  lemma MidiDeviceGetsFallback()
    ensures BackendRange(MidiDevice) == (48, 83)
    ensures BackendRange(SampleDevice) == (36, 92)
    ensures BackendRange(KeyboardDevice) == (48, 83)
  {
  }

  // ---------------------------------------------------------------------
  // Next score index (_get_next_score_index)

  /** 0, 1, ..., n-1. */
  function Indices(n: nat): (r: seq<int>)
    ensures |r| == n
    ensures forall i :: 0 <= i < n ==> r[i] == i
    ensures forall j :: j in r <==> 0 <= j < n
  {
    if n == 0 then [] else Indices(n - 1) + [n - 1]
  }

  /**
   * The list random mode draws from: every index, without the current one
   * when the current one is a valid index, and every index again should
   * that leave nothing.
   */
  function Candidates(n: nat, current: int): (c: seq<int>)
    ensures 0 <= current < n && n >= 2 ==> forall j :: j in c <==> 0 <= j < n && j != current
    ensures !(0 <= current < n) || n < 2 ==> forall j :: j in c <==> 0 <= j < n
    ensures 0 <= current < n && n >= 2 ==>
      |c| == n - 1 && forall i :: 0 <= i < n - 1 ==> c[i] == if i < current then i else i + 1
    ensures n > 0 ==> |c| > 0
  {
    var all := Indices(n);
    if 0 <= current < n then
      var popped := all[..current] + all[current + 1..];
      assert forall j :: j in popped <==> 0 <= j < n && j != current by {
        forall j | 0 <= j < n && j != current
          ensures j in popped
        {
          if j < current { assert popped[j] == j; } else { assert popped[j - 1] == j; }
        }
      }
      if popped == [] then all else popped
    else all
  }

  /**
   * The index the next score is taken from: -1 when there are no scores or
   * the mode is unknown; in random mode a random candidate (`draw` stands for
   * the random choice); in sequential mode the following index, cyclically.
   */
  function NextIndex(mode: string, current: int, n: nat, draw: nat): (r: int)
    ensures r == -1 || 0 <= r < n
    ensures n == 0 ==> r == -1
    ensures mode != "random" && mode != "sequential" ==> r == -1
  {
    if n == 0 then -1
    else if mode == "random" then
      if n == 1 then 0
      else RandomPick(Candidates(n, current), draw)
    else if mode == "sequential" then (current + 1) % n
    else -1
  }

  /** random.choice: the element the random number `draw` selects. */
  function RandomPick(c: seq<int>, draw: nat): (r: int)
    requires c != []
    ensures r in c
    ensures draw < |c| ==> r == c[draw]
  {
    c[draw % |c|]
  }

  /**
   * Random mode always yields a valid index: the only one of a single score,
   * and otherwise never the valid current one.
   */
  lemma RandomNextIndex(current: int, n: nat, draw: nat)
    requires n >= 1
    ensures 0 <= NextIndex("random", current, n, draw) < n
    ensures n == 1 ==> NextIndex("random", current, n, draw) == 0
    ensures n >= 2 && 0 <= current < n ==> NextIndex("random", current, n, draw) != current
  {
    if n >= 2 {
      assert NextIndex("random", current, n, draw) in Candidates(n, current);
    }
  }

  /**
   * Sequential mode takes the following score, starting at 0 from nothing
   * selected and wrapping around after the last score.
   */
  lemma SequentialNextIndex(current: int, n: nat, draw: nat)
    requires n >= 1
    ensures 0 <= NextIndex("sequential", current, n, draw) < n
    ensures -1 <= current < n - 1 ==> NextIndex("sequential", current, n, draw) == current + 1
    ensures current == n - 1 ==> NextIndex("sequential", current, n, draw) == 0
  {
    assert NextIndex("sequential", current, n, draw) == (current + 1) % n;
    if -1 <= current < n - 1 {
      ModOfSmall(current + 1, n);
    } else if current == n - 1 {
      ModOfMultiple(n);
    }
  }

  lemma ModOfSmall(x: int, n: int)
    requires 0 <= x < n
    ensures x % n == x
  {
  }

  lemma ModOfNextBand(y: int, n: int)
    requires n <= y < 2 * n
    ensures y % n == y - n
  {
  }

  lemma ModOfMultiple(n: int)
    requires n > 0
    ensures n % n == 0 && (n + n) % n == 0
  {
  }

  /** Every other score can be drawn next in random mode. */
  lemma RandomChoiceCoversOthers(current: int, n: nat, j: int)
    requires n >= 2 && 0 <= current < n
    requires 0 <= j < n && j != current
    ensures exists draw: nat :: NextIndex("random", current, n, draw) == j
  {
    var c := Candidates(n, current);
    var draw: nat := if j < current then j else j - 1;
    assert c[draw] == j;
    assert NextIndex("random", current, n, draw) == RandomPick(c, draw);
  }

  // ---------------------------------------------------------------------
  // The tie tracker of the playback loop

  /** A tracked name holds a pitch of that name. */
  predicate KeyedAt(tied: map<string, Pitch>, n: string) {
    n in tied ==> NameWithOctave(tied[n]) == n
  }

  /** Every tracked pitch is stored under its own name. */
  ghost predicate WellKeyed(tied: map<string, Pitch>) {
    forall n :: KeyedAt(tied, n)
  }

  /**
   * A single note: it continues a sustained note exactly when its name is
   * tracked; afterwards it is tracked exactly when its tie carries on.
   */
  function NoteTie(tied: map<string, Pitch>, p: Pitch, tie: TieType): (r: (bool, map<string, Pitch>))
    ensures r.0 <==> NameWithOctave(p) in tied
    ensures NameWithOctave(p) in r.1 <==> CarriesOn(tie)
    ensures CarriesOn(tie) ==> r.1[NameWithOctave(p)] == p
  {
    var name := NameWithOctave(p);
    var isTied := name in tied;
    if CarriesOn(tie) then (isTied, tied[name := p])
    else if name in tied then (isTied, tied - {name})
    else (isTied, tied)
  }

  /** A note leaves every other tracked name as it was, and keeps the tracker well keyed. */
  lemma NoteTieFrame(tied: map<string, Pitch>, p: Pitch, tie: TieType)
    ensures forall n :: n != NameWithOctave(p) ==> (n in NoteTie(tied, p, tie).1 <==> n in tied)
    ensures forall n :: n != NameWithOctave(p) && n in tied ==> NoteTie(tied, p, tie).1[n] == tied[n]
    ensures WellKeyed(tied) ==> WellKeyed(NoteTie(tied, p, tie).1)
  {
    if WellKeyed(tied) {
      forall n ensures KeyedAt(NoteTie(tied, p, tie).1, n) {
        assert KeyedAt(tied, n);
      }
    }
  }

  /** The tracked pitches a chord continues, in chord order (what the chord call is told). */
  function TiedInChord(tied: map<string, Pitch>, ps: seq<Pitch>): (r: seq<Pitch>)
    ensures |r| <= |ps|
  {
    if ps == [] then []
    else
      var last := ps[|ps| - 1];
      TiedInChord(tied, ps[..|ps| - 1])
        + (if NameWithOctave(last) in tied then [tied[NameWithOctave(last)]] else [])
  }

  /**
   * The tied list holds the tracked entry of every chord pitch whose name is
   * tracked, and nothing else; with a well-keyed tracker each entry has the
   * name of a chord pitch.
   */
  lemma TiedInChordMembers(tied: map<string, Pitch>, ps: seq<Pitch>)
    ensures forall q :: q in TiedInChord(tied, ps) <==>
      exists i :: 0 <= i < |ps| && NameWithOctave(ps[i]) in tied && q == tied[NameWithOctave(ps[i])]
    ensures WellKeyed(tied) ==> forall q :: q in TiedInChord(tied, ps) ==>
      exists i :: 0 <= i < |ps| && NameWithOctave(q) == NameWithOctave(ps[i])
  {
    TiedInChordEntries(tied, ps);
    if WellKeyed(tied) {
      forall q | q in TiedInChord(tied, ps)
        ensures exists i :: 0 <= i < |ps| && NameWithOctave(q) == NameWithOctave(ps[i])
      {
        var i :| 0 <= i < |ps| && NameWithOctave(ps[i]) in tied && q == tied[NameWithOctave(ps[i])];
        assert KeyedAt(tied, NameWithOctave(ps[i]));
      }
    }
  }

  /** `q` is the tracked entry of one of the chord's tracked pitches. */
  ghost predicate EntryOf(tied: map<string, Pitch>, ps: seq<Pitch>, q: Pitch) {
    exists i :: 0 <= i < |ps| && NameWithOctave(ps[i]) in tied && q == tied[NameWithOctave(ps[i])]
  }

  lemma EntryOfSnoc(tied: map<string, Pitch>, ps: seq<Pitch>, q: Pitch)
    requires ps != []
    ensures EntryOf(tied, ps, q) <==>
      EntryOf(tied, ps[..|ps| - 1], q) || (NameWithOctave(ps[|ps| - 1]) in tied && q == tied[NameWithOctave(ps[|ps| - 1])])
  {
    var isEntry := (p: Pitch) => NameWithOctave(p) in tied && q == tied[NameWithOctave(p)];
    ExistsSnoc(ps, ps[..|ps| - 1], isEntry);
  }

  /** Some element of a non-empty sequence satisfies `P` exactly when one before the last or the last does. */
  lemma ExistsSnoc<T>(ps: seq<T>, init: seq<T>, P: T -> bool)
    requires ps != [] && init == ps[..|ps| - 1]
    ensures (exists i :: 0 <= i < |ps| && P(ps[i])) <==> (exists i :: 0 <= i < |init| && P(init[i])) || P(ps[|ps| - 1])
  {
    if exists i :: 0 <= i < |init| && P(init[i]) {
      var i :| 0 <= i < |init| && P(init[i]);
      assert init[i] == ps[i];
    }
  }

  /** The tied list holds exactly the tracked entries of the chord's tracked pitches. */
  lemma {:induction false} TiedInChordEntries(tied: map<string, Pitch>, ps: seq<Pitch>)
    ensures forall q :: q in TiedInChord(tied, ps) <==> EntryOf(tied, ps, q)
  {
    if ps != [] {
      TiedInChordEntries(tied, ps[..|ps| - 1]);
      forall q
        ensures q in TiedInChord(tied, ps) <==> EntryOf(tied, ps, q)
      {
        EntryOfSnoc(tied, ps, q);
      }
    }
  }

  /** A chord whose pitches are all untracked is attacked afresh. */
  lemma {:induction false} NothingTrackedNothingTied(tied: map<string, Pitch>, ps: seq<Pitch>)
    requires forall i :: 0 <= i < |ps| ==> NameWithOctave(ps[i]) !in tied
    ensures TiedInChord(tied, ps) == []
  {
    if ps != [] {
      NothingTrackedNothingTied(tied, ps[..|ps| - 1]);
    }
  }

  /** The loop of the chord branch that collects the tied pitches. */
  method CollectTied(tied: map<string, Pitch>, ps: seq<Pitch>) returns (r: seq<Pitch>)
    ensures r == TiedInChord(tied, ps)
  {
    r := [];
    var j := 0;
    while j < |ps|
      invariant 0 <= j <= |ps|
      invariant r == TiedInChord(tied, ps[..j])
    {
      r := TiePitch(tied, ps, j, r);
      j := j + 1;
    }
    assert ps[..j] == ps;
  }

  /** One pass of that loop: a tracked pitch adds its tracked entry. */
  method TiePitch(tied: map<string, Pitch>, ps: seq<Pitch>, j: nat, r: seq<Pitch>) returns (r': seq<Pitch>)
    requires j < |ps| && r == TiedInChord(tied, ps[..j])
    ensures r' == TiedInChord(tied, ps[..j + 1])
  {
    assert ps[..j + 1][..j] == ps[..j];
    var name := NameWithOctave(ps[j]);
    r' := r;
    if name in tied {
      r' := r + [tied[name]];
    }
  }

  /**
   * The tracker after a chord: the chord notes whose tie carries on, by name
   * (a later note of the same name overwrites an earlier one).
   */
  function CarriedOn(notes: seq<ChordNote>): map<string, Pitch> {
    if notes == [] then map[]
    else
      var last := notes[|notes| - 1];
      var rest := CarriedOn(notes[..|notes| - 1]);
      if CarriesOn(last.tie) then rest[NameWithOctave(last.pitch) := last.pitch] else rest
  }

  /**
   * After a chord exactly the names of its carrying-on notes are tracked: a
   * pitch tracked before but absent from the chord, or present without a
   * carrying tie, is dropped.
   */
  lemma {:induction false} CarriedOnKeys(notes: seq<ChordNote>)
    ensures forall n :: n in CarriedOn(notes) <==>
      exists i :: 0 <= i < |notes| && CarriesOn(notes[i].tie) && NameWithOctave(notes[i].pitch) == n
    ensures WellKeyed(CarriedOn(notes))
  {
    if notes != [] {
      var init := notes[..|notes| - 1];
      CarriedOnKeys(init);
      forall n | exists i :: 0 <= i < |notes| && CarriesOn(notes[i].tie) && NameWithOctave(notes[i].pitch) == n
        ensures n in CarriedOn(notes)
      {
        var i :| 0 <= i < |notes| && CarriesOn(notes[i].tie) && NameWithOctave(notes[i].pitch) == n;
        if i < |notes| - 1 {
          assert init[i] == notes[i];
        }
      }
      forall n | n in CarriedOn(notes)
        ensures exists i :: 0 <= i < |notes| && CarriesOn(notes[i].tie) && NameWithOctave(notes[i].pitch) == n
      {
        if n in CarriedOn(init) && !(CarriesOn(notes[|notes| - 1].tie) && NameWithOctave(notes[|notes| - 1].pitch) == n) {
          var i :| 0 <= i < |init| && CarriesOn(init[i].tie) && NameWithOctave(init[i].pitch) == n;
          assert notes[i] == init[i];
        }
      }
      forall n ensures KeyedAt(CarriedOn(notes), n) {
        assert KeyedAt(CarriedOn(init), n);
      }
    }
  }

  /** The loop of the chord branch that builds the new tracker. */
  method CollectCarried(notes: seq<ChordNote>) returns (r: map<string, Pitch>)
    ensures r == CarriedOn(notes)
  {
    r := map[];
    var j := 0;
    while j < |notes|
      invariant 0 <= j <= |notes|
      invariant r == CarriedOn(notes[..j])
    {
      assert notes[..j + 1][..j] == notes[..j];
      if CarriesOn(notes[j].tie) {
        r := r[NameWithOctave(notes[j].pitch) := notes[j].pitch];
      }
      j := j + 1;
    }
    assert notes[..j] == notes;
  }

  // ---------------------------------------------------------------------
  // One pass of the playback loop over a prepared element list

  /** The loudness every call is made with (about mezzo-forte). */
  const Volume: real := 0.6

  /** The length in seconds of an element of `quarters` quarter notes. */
  function Seconds(quarters: real, secondsPerQuarter: real): real {
    quarters * secondsPerQuarter
  }

  /** A call the playback loop makes on the output device. */
  datatype Call =
    | PlayNote(pitch: Pitch, seconds: real, applyShift: bool, volume: real, continuation: bool)
    | PlayChord(pitches: seq<Pitch>, seconds: real, applyShift: bool, volume: real, tiedPitches: seq<Pitch>)
    | RestFor(seconds: real)

  /** The tracker, the calls made so far, and whether a call raised. */
  datatype RunState = RunState(tied: map<string, Pitch>, calls: seq<Call>, failed: bool)

  /** How a pass over one score ends. */
  datatype RunOutcome = Finished | Stopped | Failed

  /**
   * One element.  `tieArgs` says whether the device accepts the tie argument
   * the loop passes to play_note and play_chord; a device that does not
   * raises at the call, and the pass ends in error.  Elements of an unknown
   * kind are skipped without a call.
   */
  function StepRun(st: RunState, e: Event, applyShift: bool, secondsPerQuarter: real, tieArgs: bool): RunState
    requires !st.failed
  {
    match e
    case Note(p, tie, _, q) =>
      if !tieArgs then st.(failed := true)
      else
        var nt := NoteTie(st.tied, p, tie);
        RunState(nt.1, st.calls + [PlayNote(p, Seconds(q, secondsPerQuarter), applyShift, Volume, nt.0)], false)
    case Chord(ns, _, q) =>
      if !tieArgs then st.(failed := true)
      else
        var ps := ChordPitches(ns);
        RunState(CarriedOn(ns), st.calls + [PlayChord(ps, Seconds(q, secondsPerQuarter), applyShift, Volume, TiedInChord(st.tied, ps))], false)
    case Rest(q) => st.(calls := st.calls + [RestFor(Seconds(q, secondsPerQuarter))])
    case Unpitched(_) => st
  }

  /** The state after the first `n` elements, starting from an empty tracker. */
  function RunPrefix(es: seq<Event>, n: nat, applyShift: bool, secondsPerQuarter: real, tieArgs: bool): RunState
    requires n <= |es|
  {
    if n == 0 then RunState(map[], [], false)
    else Advance(RunPrefix(es, n - 1, applyShift, secondsPerQuarter, tieArgs), es[n - 1], applyShift, secondsPerQuarter, tieArgs)
  }

  /** One element, unless an earlier call already raised. */
  function Advance(st: RunState, e: Event, applyShift: bool, secondsPerQuarter: real, tieArgs: bool): RunState {
    if st.failed then st else StepRun(st, e, applyShift, secondsPerQuarter, tieArgs)
  }

  /** The number of elements the pass gets through before it sees the stop request. */
  function Processed(n: nat, stopAfter: Option<nat>): (k: nat)
    ensures k <= n
    ensures stopAfter.None? ==> k == n
  {
    match stopAfter
    case None => n
    case Some(s) => if s < n then s else n
  }

  lemma {:induction false} FailureSticks(es: seq<Event>, i: nat, n: nat, applyShift: bool, spq: real, tieArgs: bool)
    requires i <= n <= |es|
    requires RunPrefix(es, i, applyShift, spq, tieArgs).failed
    ensures RunPrefix(es, n, applyShift, spq, tieArgs) == RunPrefix(es, i, applyShift, spq, tieArgs)
  {
    if n > i {
      FailureSticks(es, i, n - 1, applyShift, spq, tieArgs);
    }
  }

  /**
   * The element loop of the playback thread.  `stopAfter` is the number of
   * elements after which the stop request is seen (None: it never comes).
   * The calls are those of the processed prefix; the pass ends in error when
   * a call raised, stopped when the stop request came, and finished otherwise.
   */
  method PlayScore(es: seq<Event>, applyShift: bool, secondsPerQuarter: real, tieArgs: bool, stopAfter: Option<nat>)
    returns (calls: seq<Call>, outcome: RunOutcome)
    ensures var st := RunPrefix(es, Processed(|es|, stopAfter), applyShift, secondsPerQuarter, tieArgs);
      calls == st.calls &&
      outcome == (if st.failed then Failed else if stopAfter.Some? then Stopped else Finished)
  {
    var limit := Processed(|es|, stopAfter);
    var tied: map<string, Pitch> := map[];
    calls := [];
    var failed := false;
    var i := 0;
    while i < limit && !failed
      invariant 0 <= i <= limit
      invariant RunPrefix(es, i, applyShift, secondsPerQuarter, tieArgs) == RunState(tied, calls, failed)
    {
      match es[i] {
        case Note(p, tie, _, q) =>
        if !tieArgs {
          failed := true;
        } else {
          var isTied := NameWithOctave(p) in tied;
          calls := calls + [PlayNote(p, Seconds(q, secondsPerQuarter), applyShift, Volume, isTied)];
          if CarriesOn(tie) {
            tied := tied[NameWithOctave(p) := p];
          } else if NameWithOctave(p) in tied {
            tied := tied - {NameWithOctave(p)};
          }
        }
      case Chord(ns, _, q) =>
        if !tieArgs {
          failed := true;
        } else {
          var ps := ChordPitches(ns);
          var current := CollectTied(tied, ps);
          calls := calls + [PlayChord(ps, Seconds(q, secondsPerQuarter), applyShift, Volume, current)];
          tied := CollectCarried(ns);
        }
      case Rest(q) =>
        calls := calls + [RestFor(Seconds(q, secondsPerQuarter))];
      case Unpitched(_) =>
      }
      i := i + 1;
    }
    if failed {
      FailureSticks(es, i, limit, applyShift, secondsPerQuarter, tieArgs);
      outcome := Failed;
    } else if stopAfter.Some? {
      outcome := Stopped;
    } else {
      outcome := Finished;
    }
  }

  /** A run with the tie arguments accepted never ends in error. */
  lemma CorrectedRunNeverFails(es: seq<Event>, n: nat, applyShift: bool, spq: real)
    requires n <= |es|
    ensures !RunPrefix(es, n, applyShift, spq, true).failed
  {
    var i := 0;
    while i < n
      invariant i <= n
      invariant !RunPrefix(es, i, applyShift, spq, true).failed
    {
      AcceptedStepSucceeds(RunPrefix(es, i, applyShift, spq, true), es[i], applyShift, spq);
      i := i + 1;
    }
  }

  /** With the tie arguments accepted, no element makes a call raise. */
  lemma AcceptedStepSucceeds(st: RunState, e: Event, applyShift: bool, spq: real)
    requires !st.failed
    ensures !Advance(st, e, applyShift, spq, true).failed
  {
  }

  /** The tracker stays keyed by pitch name through a whole run. */
  lemma RunKeepsWellKeyed(es: seq<Event>, n: nat, applyShift: bool, spq: real, tieArgs: bool)
    requires n <= |es|
    ensures WellKeyed(RunPrefix(es, n, applyShift, spq, tieArgs).tied)
  {
    var i, st := 0, RunState(map[], [], false);
    while i < n
      invariant i <= n && st == RunPrefix(es, i, applyShift, spq, tieArgs)
      invariant WellKeyed(st.tied)
    {
      StepKeepsWellKeyed(st, es[i], applyShift, spq, tieArgs);
      st, i := Advance(st, es[i], applyShift, spq, tieArgs), i + 1;
    }
  }

  /** One element keeps the tracker keyed by pitch name (a failed state is kept as it is). */
  lemma StepKeepsWellKeyed(st: RunState, e: Event, applyShift: bool, spq: real, tieArgs: bool)
    requires WellKeyed(st.tied)
    ensures WellKeyed(Advance(st, e, applyShift, spq, tieArgs).tied)
  {
    if !st.failed && e.Chord? {
      CarriedOnKeys(e.notes);
    } else if !st.failed && e.Note? {
      NoteTieFrame(st.tied, e.pitch, e.tie);
    }
  }

  /** A rest makes a rest call and leaves the tracker as it was. */
  lemma RestKeepsTracker(es: seq<Event>, n: nat, applyShift: bool, spq: real, tieArgs: bool)
    requires 0 < n <= |es| && es[n - 1].Rest?
    requires !RunPrefix(es, n - 1, applyShift, spq, tieArgs).failed
    ensures RunPrefix(es, n, applyShift, spq, tieArgs).tied == RunPrefix(es, n - 1, applyShift, spq, tieArgs).tied
    ensures RunPrefix(es, n, applyShift, spq, tieArgs).calls
         == RunPrefix(es, n - 1, applyShift, spq, tieArgs).calls + [RestFor(Seconds(es[n - 1].quarters, spq))]
  {
  }

  /**
   * A tie across three notes: C4 starts a tie, C4 continues it, C4 stops it.
   * The second note is a continuation, the first is not, and after the third
   * C4 is no longer tracked.
   */
  lemma TieAcrossThreeNotes(q: real, spq: real)
    ensures var c4 := Pitch(C, 0, 4);
      var es := [Note(c4, TieStart, false, q), Note(c4, TieContinue, false, q), Note(c4, TieStop, false, q)];
      var st := RunPrefix(es, 3, false, spq, true);
      |st.calls| == 3 && (forall i :: 0 <= i < 3 ==> st.calls[i].PlayNote?) &&
      !st.calls[0].continuation && st.calls[1].continuation && st.calls[2].continuation &&
      "C4" !in st.tied
  {
    var c4 := Pitch(C, 0, 4);
    assert NameWithOctave(c4) == "C4" by {
      assert IntToString(4) == "4";
    }
    var es := [Note(c4, TieStart, false, q), Note(c4, TieContinue, false, q), Note(c4, TieStop, false, q)];
    var call := PlayNote(c4, Seconds(q, spq), false, Volume, false);
    assert RunPrefix(es, 0, false, spq, true) == RunState(map[], [], false);
    assert NoteTie(map[], c4, TieStart) == (false, map["C4" := c4]);
    var st1 := RunPrefix(es, 1, false, spq, true);
    assert st1 == RunState(map["C4" := c4], [call], false);
    assert map["C4" := c4]["C4" := c4] == map["C4" := c4];
    assert NoteTie(map["C4" := c4], c4, TieContinue) == (true, map["C4" := c4]);
    var st2 := RunPrefix(es, 2, false, spq, true);
    assert st2 == RunState(map["C4" := c4], [call, call.(continuation := true)], false);
    assert NoteTie(map["C4" := c4], c4, TieStop) == (true, map[]);
    var st3 := RunPrefix(es, 3, false, spq, true);
    assert st3 == RunState(map[], [call, call.(continuation := true), call.(continuation := true)], false);
  }

  // ---------------------------------------------------------------------
  // The device interface as the loop calls it

  /**
   * Whether the device's play_note / play_chord take the tie argument the
   * playback loop passes: only the MIDI device's do; the keyboard and
   * sample devices take the four arguments of the abstract interface.
   */
  function AcceptsTieArgument(kind: DeviceKind): bool {
    kind == MidiDevice
  }

  /**
   * As written, a keyboard or sample device raises at the first note or
   * chord: the pass fails exactly when a note or chord is reached, and the
   * only calls that got through are rests.
   */
  lemma {:induction false} InterfaceMismatchFails(kind: DeviceKind, es: seq<Event>, n: nat, applyShift: bool, spq: real)
    requires kind != MidiDevice && n <= |es|
    ensures RunPrefix(es, n, applyShift, spq, AcceptsTieArgument(kind)).failed <==>
      exists i :: 0 <= i < n && (es[i].Note? || es[i].Chord?)
    ensures forall c :: c in RunPrefix(es, n, applyShift, spq, AcceptsTieArgument(kind)).calls ==> c.RestFor?
  {
    if n > 0 {
      InterfaceMismatchFails(kind, es, n - 1, applyShift, spq);
      if exists i :: 0 <= i < n - 1 && (es[i].Note? || es[i].Chord?) {
        var i :| 0 <= i < n - 1 && (es[i].Note? || es[i].Chord?);
        assert 0 <= i < n;
      }
    }
  }

  /**
   * The calls a keyboard or sample device gets as written are a prefix of
   * those the MIDI device gets for the same elements, and the two runs agree
   * in full as long as the as-written one has not failed.
   */
  lemma AsWrittenIsPrefixOfCorrected(es: seq<Event>, n: nat, applyShift: bool, spq: real)
    requires n <= |es|
    ensures RunPrefix(es, n, applyShift, spq, false).calls <= RunPrefix(es, n, applyShift, spq, true).calls
    ensures !RunPrefix(es, n, applyShift, spq, false).failed ==>
      RunPrefix(es, n, applyShift, spq, false) == RunPrefix(es, n, applyShift, spq, true)
  {
    var i, f, t := 0, RunState(map[], [], false), RunState(map[], [], false);
    while i < n
      invariant i <= n && f == RunPrefix(es, i, applyShift, spq, false) && t == RunPrefix(es, i, applyShift, spq, true)
      invariant f.calls <= t.calls && (!f.failed ==> f == t)
    {
      StepKeepsPrefix(f, t, es[i], applyShift, spq);
      f, t, i := Advance(f, es[i], applyShift, spq, false), Advance(t, es[i], applyShift, spq, true), i + 1;
    }
  }

  /** One element keeps the as-written run's calls a prefix of the corrected run's. */
  lemma StepKeepsPrefix(f: RunState, t: RunState, e: Event, applyShift: bool, spq: real)
    requires f.calls <= t.calls && (!f.failed ==> f == t)
    ensures Advance(f, e, applyShift, spq, false).calls <= Advance(t, e, applyShift, spq, true).calls
    ensures !Advance(f, e, applyShift, spq, false).failed ==>
      Advance(f, e, applyShift, spq, false) == Advance(t, e, applyShift, spq, true)
  {
    AdvanceAppends(t, e, applyShift, spq, true);
  }

  /** An element only ever adds calls. */
  lemma AdvanceAppends(st: RunState, e: Event, applyShift: bool, spq: real, tieArgs: bool)
    ensures st.calls <= Advance(st, e, applyShift, spq, tieArgs).calls
  {
  }

  /** A one-note score on the keyboard device: the pass fails and nothing is played. */
  lemma KeyboardFirstNoteFails()
    ensures var es := [Note(Pitch(C, 0, 4), NoTie, false, 1.0)];
      var st := RunPrefix(es, 1, true, 0.5, AcceptsTieArgument(KeyboardDevice));
      st.failed && st.calls == []
  {
  }

  // ---------------------------------------------------------------------
  // The player

  /**
   * What the surroundings decide during one pass of the playback thread:
   * what parsing, chordify and transposition yield, after how many elements
   * a stop request arrives (None: none does), whether one arrives during
   * the autoplay pause, and the random draw for the next score.
   */
  datatype SongInput = SongInput(
    parsed: Option<Score>,
    chordified: Option<seq<Event>>,
    transposeOk: bool,
    stopAfter: Option<nat>,
    stopDuringWait: bool,
    draw: nat)

  class Player {
    var scores: seq<string>
    var mode: string
    var tolerance: int
    var device: DeviceKind
    var backendMin: int
    var backendMax: int
    var selected: int
    var currentPath: Option<string>
    var isPlaying: bool
    var isPaused: bool
    var stopRequested: bool

    /** The selection is -1 or a valid index; only a playing player can be paused and has a path. */
    ghost predicate Valid()
      reads this
    {
      -1 <= selected < |scores| && (isPaused ==> isPlaying) && (isPlaying <==> currentPath.Some?)
    }

    constructor (device: DeviceKind, scores: seq<string>, mode: string, tolerance: int)
      ensures Valid()
      ensures this.device == device && this.scores == scores && this.mode == mode && this.tolerance == tolerance
      ensures (backendMin, backendMax) == BackendRange(device)
      ensures selected == -1 && currentPath.None?
      ensures !isPlaying && !isPaused && !stopRequested
    {
      this.device := device;
      this.scores := scores;
      this.mode := mode;
      this.tolerance := tolerance;
      selected := -1;
      currentPath := None;
      isPlaying := false;
      isPaused := false;
      stopRequested := false;
      var range := BackendRange(device);
      backendMin := range.0;
      backendMax := range.1;
    }

    /** stop: ask a running pass to end and clear the pause; nothing when idle. */
    method Stop()
      requires Valid()
      modifies this
      ensures Valid()
      ensures old(isPlaying) ==> stopRequested && !isPaused
      ensures !old(isPlaying) ==> stopRequested == old(stopRequested) && isPaused == old(isPaused)
      ensures isPlaying == old(isPlaying) && selected == old(selected) && currentPath == old(currentPath)
      ensures scores == old(scores) && mode == old(mode) && tolerance == old(tolerance)
      ensures device == old(device) && backendMin == old(backendMin) && backendMax == old(backendMax)
    {
      if !isPlaying {
        return;
      }
      stopRequested := true;
      isPaused := false;
    }

    /** pause_resume: toggle the pause while playing; nothing when idle. */
    method PauseResume()
      requires Valid()
      modifies this
      ensures Valid()
      ensures isPaused == (if old(isPlaying) then !old(isPaused) else old(isPaused))
      ensures isPlaying == old(isPlaying) && stopRequested == old(stopRequested)
      ensures selected == old(selected) && currentPath == old(currentPath)
      ensures scores == old(scores) && mode == old(mode) && tolerance == old(tolerance)
      ensures device == old(device) && backendMin == old(backendMin) && backendMax == old(backendMax)
    {
      if !isPlaying {
        return;
      }
      isPaused := !isPaused;
    }

    /**
     * _start_thread: stop a running pass first, then start a new one on
     * `path`; `spawnOk` says whether starting the thread succeeds.
     */
    method StartThread(path: string, spawnOk: bool)
      requires Valid()
      modifies this
      ensures Valid()
      ensures isPlaying == spawnOk && !isPaused && !stopRequested
      ensures currentPath == (if spawnOk then Some(path) else None)
      ensures selected == old(selected)
      ensures scores == old(scores) && mode == old(mode) && tolerance == old(tolerance)
      ensures device == old(device) && backendMin == old(backendMin) && backendMax == old(backendMax)
    {
      if isPlaying {
        Stop();
      }
      currentPath := Some(path);
      stopRequested := false;
      isPaused := false;
      if spawnOk {
        isPlaying := true;
      } else {
        isPlaying := false;
        currentPath := None;
      }
    }

    /**
     * start_or_resume: nothing without scores; resume a paused pass; leave
     * a running one alone; otherwise play the selected score, or pick the
     * next one, select it and play it.
     */
    method StartOrResume(draw: nat, spawnOk: bool)
      requires Valid()
      modifies this
      ensures Valid()
      ensures scores == old(scores) && mode == old(mode) && tolerance == old(tolerance)
      ensures device == old(device) && backendMin == old(backendMin) && backendMax == old(backendMax)
      ensures old(scores) == [] || old(isPlaying) ==>
        selected == old(selected) && currentPath == old(currentPath) && isPlaying == old(isPlaying) &&
        stopRequested == old(stopRequested)
      ensures old(scores) == [] ==> isPaused == old(isPaused)
      ensures old(scores) != [] && old(isPlaying) ==> !isPaused
      ensures old(scores) != [] && !old(isPlaying) ==>
        var idx := if old(selected) >= 0 then old(selected) else NextIndex(mode, old(selected), |scores|, draw);
        (idx == -1 ==> selected == old(selected) && !isPlaying && !isPaused && currentPath.None? &&
                       stopRequested == old(stopRequested)) &&
        (idx != -1 ==> selected == idx && 0 <= idx < |scores| && isPlaying == spawnOk && !isPaused && !stopRequested &&
                       currentPath == (if spawnOk then Some(scores[idx]) else None))
    {
      if scores == [] {
        return;
      }
      if isPlaying {
        if isPaused {
          isPaused := false;
        }
        return;
      }
      var toPlay := -1;
      if selected >= 0 {
        toPlay := selected;
      } else {
        var next := NextIndex(mode, selected, |scores|, draw);
        if next != -1 {
          selected := next;
          toPlay := next;
        }
      }
      if toPlay != -1 {
        StartThread(scores[toPlay], spawnOk);
      }
    }

    /**
     * _change_track: select the neighbouring score cyclically, stopping a
     * running pass first; never starts one; nothing without scores.
     */
    method ChangeTrack(direction: int)
      requires Valid()
      modifies this
      ensures Valid()
      ensures scores == old(scores) && mode == old(mode) && tolerance == old(tolerance)
      ensures device == old(device) && backendMin == old(backendMin) && backendMax == old(backendMax)
      ensures isPlaying == old(isPlaying) && currentPath == old(currentPath)
      ensures scores == [] ==> selected == old(selected) && isPaused == old(isPaused) && stopRequested == old(stopRequested)
      ensures scores != [] ==> 0 <= selected < |scores| && selected == (old(selected) + direction + |scores|) % |scores|
      ensures scores != [] && old(isPlaying) ==> stopRequested && !isPaused
      ensures !old(isPlaying) ==> isPaused == old(isPaused) && stopRequested == old(stopRequested)
    {
      if scores == [] {
        return;
      }
      var n := |scores|;
      var newIndex := (selected + direction + n) % n;
      if isPlaying {
        Stop();
      }
      selected := newIndex;
    }

    method NextTrack()
      requires Valid()
      modifies this
      ensures Valid()
      ensures scores == old(scores) && isPlaying == old(isPlaying) && currentPath == old(currentPath)
      ensures scores != [] ==> selected == (if old(selected) == |scores| - 1 then 0 else old(selected) + 1)
      ensures scores == [] ==> selected == old(selected)
    {
      if scores != [] {
        if selected == |scores| - 1 {
          ModOfMultiple(|scores|);
        } else {
          ModOfNextBand(selected + 1 + |scores|, |scores|);
        }
      }
      ChangeTrack(1);
    }

    method PrevTrack()
      requires Valid()
      modifies this
      ensures Valid()
      ensures scores == old(scores) && isPlaying == old(isPlaying) && currentPath == old(currentPath)
      ensures scores != [] && old(selected) > 0 ==> selected == old(selected) - 1
      ensures scores != [] && old(selected) == 0 ==> selected == |scores| - 1
      ensures scores != [] && old(selected) == -1 ==> selected == (if |scores| >= 2 then |scores| - 2 else 0)
      ensures scores == [] ==> selected == old(selected)
    {
      if scores != [] {
        if selected > 0 {
          ModOfNextBand(selected - 1 + |scores|, |scores|);
        } else if selected == 0 || |scores| >= 2 {
          ModOfSmall(selected - 1 + |scores|, |scores|);
        }
      }
      ChangeTrack(-1);
    }

    /** update_score_list: -1 for an empty list, the last index when the selection fell off the end. */
    method UpdateScoreList(newScores: seq<string>)
      requires Valid()
      modifies this
      ensures Valid()
      ensures scores == newScores
      ensures newScores == [] ==> selected == -1
      ensures newScores != [] && old(selected) >= |newScores| ==> selected == |newScores| - 1
      ensures newScores != [] && old(selected) < |newScores| ==> selected == old(selected)
      ensures isPlaying == old(isPlaying) && isPaused == old(isPaused) && stopRequested == old(stopRequested)
      ensures currentPath == old(currentPath) && mode == old(mode) && tolerance == old(tolerance)
      ensures device == old(device) && backendMin == old(backendMin) && backendMax == old(backendMax)
    {
      scores := newScores;
      if scores == [] {
        selected := -1;
      } else if selected >= |scores| {
        selected := |scores| - 1;
      }
    }

    /** The end of the playback thread: idle, unpaused, no path; the selection is kept. */
    method FinishRun()
      requires Valid()
      modifies this
      ensures Valid()
      ensures !isPlaying && !isPaused && currentPath.None?
      ensures selected == old(selected) && stopRequested == old(stopRequested)
      ensures scores == old(scores) && mode == old(mode) && tolerance == old(tolerance)
      ensures device == old(device) && backendMin == old(backendMin) && backendMax == old(backendMax)
    {
      isPlaying := false;
      isPaused := false;
      currentPath := None;
    }

    /**
     * The rest of a pass once the score is prepared: play the elements on
     * the device, passing the tie argument, so that a device that does not
     * take it raises and the thread ends; the thread also ends on a stop
     * request, during the elements or the autoplay pause; otherwise it
     * selects the next score and goes on when there is one.
     */
    method PlayPrepared(es: seq<Event>, applyShifts: bool, bpm: real, input: SongInput) returns (calls: seq<Call>, continues: bool)
      requires Valid() && isPlaying && bpm > 0.0
      modifies this
      ensures Valid() && isPlaying
      ensures scores == old(scores) && mode == old(mode) && tolerance == old(tolerance)
      ensures device == old(device) && backendMin == old(backendMin) && backendMax == old(backendMax)
      ensures
           var st := RunPrefix(es, Processed(|es|, input.stopAfter), applyShifts, 60.0 / bpm, AcceptsTieArgument(device));
           calls == st.calls &&
           (device == MidiDevice ==> !st.failed) &&
           (st.failed ==>
              !continues && selected == old(selected) && currentPath == old(currentPath) &&
              isPaused == old(isPaused) && stopRequested == old(stopRequested)) &&
           (!st.failed && (input.stopAfter.Some? || input.stopDuringWait) ==>
              !continues && stopRequested && !isPaused && selected == old(selected) && currentPath == old(currentPath)) &&
           (!st.failed && input.stopAfter.None? && !input.stopDuringWait ==>
              var next := NextIndex(mode, old(selected), |scores|, input.draw);
              continues == (next != -1) && stopRequested == old(stopRequested) && isPaused == old(isPaused) &&
              (next != -1 ==> selected == next && currentPath == Some(scores[next])) &&
              (next == -1 ==> selected == old(selected) && currentPath == old(currentPath)))
    {
      continues := false;
      var outcome;
      calls, outcome := PlayScore(es, applyShifts, 60.0 / bpm, AcceptsTieArgument(device), input.stopAfter);
      if device == MidiDevice {
        CorrectedRunNeverFails(es, Processed(|es|, input.stopAfter), applyShifts, 60.0 / bpm);
      }
      if outcome == Failed {
        return;
      } else if outcome == Stopped || input.stopDuringWait {
        Stop();
      } else {
        var next := NextIndex(mode, selected, |scores|, input.draw);
        if next != -1 {
          selected := next;
          currentPath := Some(scores[next]);
          continues := true;
        }
      }
    }

    /**
     * One pass of the playback thread's outer loop: give up on a pending
     * stop request or an empty path; load and prepare the score; then play
     * it (PlayPrepared).  Returns the device calls and whether the thread
     * goes on to another pass.
     */
    method PlaybackIteration(input: SongInput) returns (calls: seq<Call>, continues: bool)
      requires Valid() && isPlaying
      modifies this
      ensures Valid() && isPlaying
      ensures scores == old(scores) && mode == old(mode) && tolerance == old(tolerance)
      ensures device == old(device) && backendMin == old(backendMin) && backendMax == old(backendMax)
      ensures old(stopRequested) || old(currentPath) == Some("") ==>
        calls == [] && !continues && selected == old(selected) && currentPath == old(currentPath) &&
        isPaused == old(isPaused) && stopRequested == old(stopRequested)
      ensures !old(stopRequested) && old(currentPath) != Some("") ==>
        var prep := LoadAndPrepare(input.parsed, input.chordified, input.transposeOk, tolerance, backendMin, backendMax);
        (prep.elements.None? ==>
           calls == [] && !continues && selected == old(selected) && currentPath == old(currentPath) &&
           isPaused == old(isPaused) && stopRequested == old(stopRequested)) &&
        (prep.elements.Some? ==>
           var es, applyShifts, bpm := prep.elements.value, prep.applyShifts, prep.bpm;
           var st := RunPrefix(es, Processed(|es|, input.stopAfter), applyShifts, 60.0 / bpm, AcceptsTieArgument(device));
           calls == st.calls &&
           (device == MidiDevice ==> !st.failed) &&
           (st.failed ==>
              !continues && selected == old(selected) && currentPath == old(currentPath) &&
              isPaused == old(isPaused) && stopRequested == old(stopRequested)) &&
           (!st.failed && (input.stopAfter.Some? || input.stopDuringWait) ==>
              !continues && stopRequested && !isPaused && selected == old(selected) && currentPath == old(currentPath)) &&
           (!st.failed && input.stopAfter.None? && !input.stopDuringWait ==>
              var next := NextIndex(mode, old(selected), |scores|, input.draw);
              continues == (next != -1) && stopRequested == old(stopRequested) && isPaused == old(isPaused) &&
              (next != -1 ==> selected == next && currentPath == Some(scores[next])) &&
              (next == -1 ==> selected == old(selected) && currentPath == old(currentPath))))
    {
      calls := [];
      continues := false;
      if stopRequested || currentPath == Some("") {
        return;
      }
      var prep := LoadAndPrepare(input.parsed, input.chordified, input.transposeOk, tolerance, backendMin, backendMax);
      if prep.elements.None? {
        return;
      }
      calls, continues := PlayPrepared(prep.elements.value, prep.applyShifts, prep.bpm, input);
    }

  }
}
