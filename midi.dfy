/**
 * The MIDI output device.  It keeps a table of sounding notes keyed by the
 * pitch's name with octave; each entry holds the note number and the
 * pending note-off that its timer will send.  Messages go to the output
 * port, modelled as an append-only log of channel-1 messages as defined in
 * the MIDI 1.0 Detailed Specification: Note On (status 0x90), Note Off
 * (status 0x80) and the Channel Mode message All Notes Off (controller 123).
 *
 * Python dictionaries iterate in insertion order, and deleting a key and
 * inserting it again moves it to the end; `order` records that order.
 */
module MidiBackend {
  import opened Music

  type Message = seq<int>

  const NoteOnStatus := 0x90
  const NoteOffStatus := 0x80
  const ControlChangeStatus := 0xB0
  const AllNotesOffController := 123

  function NoteOn(midi: int, velocity: int): Message { [NoteOnStatus, midi, velocity] }
  function NoteOff(midi: int): Message { [NoteOffStatus, midi, 0] }
  const AllNotesOff: Message := [ControlChangeStatus, AllNotesOffController, 0]

  /** `int(volume * 127)`: Python's int() truncates toward zero. */
  function Velocity(volume: real): (v: int)
    ensures 0.0 <= volume <= 1.0 ==> 0 <= v <= 127
    ensures volume >= 0.0 ==> v as real <= volume * 127.0 < v as real + 1.0
    ensures volume < 0.0 ==> v as real - 1.0 < volume * 127.0 <= v as real
  {
    if volume >= 0.0 then (volume * 127.0).Floor else -((-volume * 127.0).Floor)
  }

  /** The player's fixed volume 0.6 is sent as velocity 76. */
  lemma PlayerVolumeVelocity()
    ensures Velocity(0.6) == 76
  {
    assert 0.6 * 127.0 == 76.2;
  }

  /** A pending note-off: the timer that will send a note-off for `midi` after `seconds`. */
  datatype PendingOff = PendingOff(seconds: real, midi: int)

  /** One entry of `active_notes`: `{'midi_note': midi, 'timer': timer}`. */
  datatype ActiveNote = ActiveNote(midi: int, timer: PendingOff)

  /** The device's state: the initialized flag, the table, its key order and the messages sent so far. */
  datatype Device = Device(initialized: bool, active: map<string, ActiveNote>, order: seq<string>, sent: seq<Message>)

  predicate Distinct(s: seq<string>) {
    forall i, j :: 0 <= i < j < |s| ==> s[i] != s[j]
  }

  /** `order` lists every key of the table exactly once. */
  ghost predicate ValidTable(d: Device) {
    Distinct(d.order) && (forall id :: id in d.active <==> id in d.order)
  }

  /**
   * `order` without `x`: `del` drops the key and the other keys keep their
   * relative order.
   */
  function Remove(s: seq<string>, x: string): (r: seq<string>)
    ensures forall y :: y in r <==> y in s && y != x
    ensures Distinct(s) ==> Distinct(r)
    ensures x !in s ==> r == s
    ensures Distinct(s) ==> forall i :: 0 <= i < |s| && s[i] == x ==> r == s[..i] + s[i + 1..]
  {
    if s == [] then []
    else
      var rest := Remove(s[1..], x);
      RemoveStep(s, x, rest);
      if s[0] == x then rest else [s[0]] + rest
  }

  /** The contract of `Remove` carries over from the tail to the whole list. */
  lemma RemoveStep(s: seq<string>, x: string, rest: seq<string>)
    requires s != []
    requires forall y :: y in rest <==> y in s[1..] && y != x
    requires Distinct(s[1..]) ==> Distinct(rest)
    requires x !in s[1..] ==> rest == s[1..]
    requires Distinct(s[1..]) ==> forall i :: 0 <= i < |s[1..]| && s[1..][i] == x ==> rest == s[1..][..i] + s[1..][i + 1..]
    ensures var r := if s[0] == x then rest else [s[0]] + rest;
      (forall y :: y in r <==> y in s && y != x) &&
      (Distinct(s) ==> Distinct(r)) &&
      (x !in s ==> r == s) &&
      (Distinct(s) ==> forall i :: 0 <= i < |s| && s[i] == x ==> r == s[..i] + s[i + 1..])
  {
    DistinctTail(s);
    if s[0] == x {
      assert x in s;
      assert Distinct(s) ==> rest == s[1..] && forall i :: 0 <= i < |s| && s[i] == x ==> i == 0;
    } else {
      assert Distinct(s) ==> s[0] !in rest;
      DistinctCons(s[0], rest);
      SpliceAfterHead(s, x, rest);
      assert x !in s ==> [s[0]] + rest == s;
    }
  }

  /** The tail of a list without repetitions has none and does not hold its head. */
  lemma DistinctTail(s: seq<string>)
    requires s != []
    ensures Distinct(s) ==> Distinct(s[1..]) && s[0] !in s[1..]
  {
    if Distinct(s) {
      forall a, b | 0 <= a < b < |s[1..]| ensures s[1..][a] != s[1..][b] {
        assert s[1..][a] == s[a + 1] && s[1..][b] == s[b + 1];
      }
    }
  }

  lemma DistinctSnoc(t: seq<string>, x: string)
    ensures Distinct(t) && x !in t ==> Distinct(t + [x])
  {
    if Distinct(t) && x !in t {
      var u := t + [x];
      forall i, j | 0 <= i < j < |u| ensures u[i] != u[j] {
        if j == |u| - 1 {
          assert u[i] in t;
        } else {
          assert u[i] == t[i] && u[j] == t[j];
        }
      }
    }
  }

  lemma DistinctCons(h: string, t: seq<string>)
    ensures Distinct(t) && h !in t ==> Distinct([h] + t)
  {
    if Distinct(t) && h !in t {
      var u := [h] + t;
      forall i, j | 0 <= i < j < |u| ensures u[i] != u[j] {
        if i == 0 {
          assert u[j] in t;
        } else {
          assert u[i] == t[i - 1] && u[j] == t[j - 1];
        }
      }
    }
  }

  /** Removing `x` from the tail at its position there, then putting the head back, removes it from the whole list. */
  lemma SpliceAfterHead(s: seq<string>, x: string, rest: seq<string>)
    requires s != [] && s[0] != x
    requires Distinct(s[1..]) ==> forall i :: 0 <= i < |s[1..]| && s[1..][i] == x ==> rest == s[1..][..i] + s[1..][i + 1..]
    ensures Distinct(s) ==> forall i :: 0 <= i < |s| && s[i] == x ==> [s[0]] + rest == s[..i] + s[i + 1..]
  {
    if Distinct(s) {
      DistinctTail(s);
      forall i | 0 <= i < |s| && s[i] == x ensures [s[0]] + rest == s[..i] + s[i + 1..] {
        assert s[1..][i - 1] == x;
        SpliceAt(s, i, rest);
      }
    }
  }

  lemma SpliceAt<T>(s: seq<T>, i: nat, rest: seq<T>)
    requires 0 < i < |s| && rest == s[1..][..i - 1] + s[1..][i..]
    ensures [s[0]] + rest == s[..i] + s[i + 1..]
  {
    assert s[..i] == [s[0]] + s[1..][..i - 1];
    assert s[1..][i..] == s[i + 1..];
  }

  lemma RemoveHead(s: seq<string>)
    requires s != [] && Distinct(s)
    ensures Remove(s, s[0]) == s[1..]
  {
    assert s[..0] + s[0 + 1..] == s[1..];
  }

  /**
   * _send_note_off: a note-off goes out, and the entry (if any) is deleted;
   * every other entry stays as it was.
   */
  function AfterNoteOff(d: Device, id: string, midi: int): (r: Device)
    ensures r.sent == d.sent + [NoteOff(midi)]
    ensures id !in r.active && r.initialized == d.initialized
    ensures r.order == Remove(d.order, id)
    ensures forall x :: x != id ==> (x in r.active <==> x in d.active)
    ensures forall x :: x != id && x in d.active ==> r.active[x] == d.active[x]
    ensures ValidTable(d) ==> ValidTable(r)
  {
    d.(sent := d.sent + [NoteOff(midi)], active := d.active - {id}, order := Remove(d.order, id))
  }

  /**
   * A new attack: a sounding note of the same name is first stopped with a
   * note-off for its old number; then the note-on is sent and the entry
   * (re-)inserted at the end of the table with a fresh pending note-off.
   */
  function AfterAttack(d: Device, id: string, midi: int, velocity: int, seconds: real): (r: Device)
    ensures r.sent == d.sent + (if id in d.active then [NoteOff(d.active[id].midi)] else []) + [NoteOn(midi, velocity)]
    ensures r.active == d.active[id := ActiveNote(midi, PendingOff(seconds, midi))]
    ensures r.initialized == d.initialized
    ensures r.order == (if id in d.active then Remove(d.order, id) else d.order) + [id]
    ensures |r.order| > 0 && r.order[|r.order| - 1] == id
    ensures ValidTable(d) ==> ValidTable(r)
  {
    var d1 := if id in d.active then AfterNoteOff(d, id, d.active[id].midi) else d;
    DistinctSnoc(d1.order, id);
    d1.(sent := d1.sent + [NoteOn(midi, velocity)],
        active := d1.active[id := ActiveNote(midi, PendingOff(seconds, midi))],
        order := d1.order + [id])
  }

  /** A tie extension: only the entry's pending note-off is replaced; nothing is sent. */
  function AfterExtend(d: Device, id: string, midi: int, seconds: real): (r: Device)
    requires id in d.active
    ensures r.sent == d.sent && r.order == d.order && r.initialized == d.initialized
    ensures r.active.Keys == d.active.Keys
    ensures r.active[id] == ActiveNote(d.active[id].midi, PendingOff(seconds, midi))
    ensures forall x :: x in d.active && x != id ==> r.active[x] == d.active[x]
    ensures ValidTable(d) ==> ValidTable(r)
  {
    d.(active := d.active[id := d.active[id].(timer := PendingOff(seconds, midi))])
  }

  /**
   * play_note: nothing at all when not initialized; a tie continuation of a
   * sounding note extends it; anything else (a continuation of a note that
   * has already stopped included) is a new attack.
   */
  function AfterPlayNote(d: Device, p: Pitch, seconds: real, velocity: int, tieContinuation: bool): (r: Device)
    ensures !d.initialized ==> r == d
    ensures r.initialized == d.initialized
    ensures d.initialized && tieContinuation && NameWithOctave(p) in d.active ==>
      r.sent == d.sent && r.order == d.order && r.active.Keys == d.active.Keys &&
      r.active[NameWithOctave(p)] == ActiveNote(d.active[NameWithOctave(p)].midi, PendingOff(seconds, Midi(p))) &&
      forall x :: x in d.active && x != NameWithOctave(p) ==> r.active[x] == d.active[x]
    ensures d.initialized && !(tieContinuation && NameWithOctave(p) in d.active) ==>
      r == AfterAttack(d, NameWithOctave(p), Midi(p), velocity, seconds)
    ensures ValidTable(d) ==> ValidTable(r)
  {
    var id := NameWithOctave(p);
    if !d.initialized then d
    else if tieContinuation && id in d.active then AfterExtend(d, id, Midi(p), seconds)
    else AfterAttack(d, id, Midi(p), velocity, seconds)
  }

  /** The names of the pitches passed as tied. */
  function TiedNames(tied: seq<Pitch>): (names: set<string>)
    ensures forall p :: p in tied ==> NameWithOctave(p) in names
    ensures forall x :: x in names ==> exists p :: p in tied && NameWithOctave(p) == x
  {
    set p | p in tied :: NameWithOctave(p)
  }

  /** One pitch of play_chord: a tied name is extended when sounding and otherwise skipped; any other is attacked. */
  function AfterChordPitch(d: Device, p: Pitch, seconds: real, velocity: int, tiedNames: set<string>): (r: Device)
    ensures r.initialized == d.initialized
    ensures ValidTable(d) ==> ValidTable(r)
  {
    var id := NameWithOctave(p);
    if id in tiedNames then
      if id in d.active then AfterExtend(d, id, Midi(p), seconds) else d
    else AfterAttack(d, id, Midi(p), velocity, seconds)
  }

  /** play_chord: the pitches handled one after another in chord order. */
  function AfterPlayChord(d: Device, ps: seq<Pitch>, seconds: real, velocity: int, tiedNames: set<string>): (r: Device)
    ensures !d.initialized ==> r == d
    ensures r.initialized == d.initialized
    ensures ValidTable(d) ==> ValidTable(r)
  {
    if !d.initialized || ps == [] then d
    else AfterChordPitch(AfterPlayChord(d, ps[..|ps| - 1], seconds, velocity, tiedNames), ps[|ps| - 1], seconds, velocity, tiedNames)
  }

  /** The note-offs stop sends for the entries `ids`, in that order. */
  function OffsFor(ids: seq<string>, active: map<string, ActiveNote>): (ms: seq<Message>)
    requires forall id :: id in ids ==> id in active
    ensures |ms| == |ids|
    ensures forall i :: 0 <= i < |ids| ==> ms[i] == NoteOff(active[ids[i]].midi)
  {
    if ids == [] then [] else [NoteOff(active[ids[0]].midi)] + OffsFor(ids[1..], active)
  }

  /** What stop leaves behind, as one value. */
  lemma AfterStopIs(d: Device)
    requires ValidTable(d) && d.initialized
    ensures AfterStop(d) == Device(false, map[], [], d.sent + OffsFor(d.order, d.active) + [AllNotesOff])
  {
  }

  /**
   * stop: nothing when not initialized; otherwise one note-off per sounding
   * note in table order, every pending note-off cancelled with the emptied
   * table, then All Notes Off, and the device is no longer initialized.
   */
  function AfterStop(d: Device): (r: Device)
    requires ValidTable(d)
    ensures |d.order| == |d.active|
    ensures !d.initialized ==> r == d
    ensures d.initialized ==> !r.initialized && r.active == map[] && r.order == []
    ensures d.initialized ==> |r.sent| == |d.sent| + |d.active| + 1 && r.sent[..|d.sent|] == d.sent
    ensures d.initialized ==> forall i :: 0 <= i < |d.order| ==> r.sent[|d.sent| + i] == NoteOff(d.active[d.order[i]].midi)
    ensures d.initialized ==> r.sent[|r.sent| - 1] == AllNotesOff
    ensures ValidTable(r)
  {
    DistinctKeysCount(d);
    if !d.initialized then d
    else
      Device(false, map[], [], d.sent + OffsFor(d.order, d.active) + [AllNotesOff])
  }

  /** In a valid table there are exactly as many entries as names in the order. */
  lemma DistinctKeysCount(d: Device)
    requires ValidTable(d)
    ensures |d.active| == |d.order|
  {
    DistinctSetSize(d.order);
    assert d.active.Keys == set x | x in d.order;
  }

  lemma {:induction false} DistinctSetSize(s: seq<string>)
    requires Distinct(s)
    ensures |set x | x in s| == |s|
  {
    if s != [] {
      DistinctSetSize(s[1..]);
      assert (set x | x in s) == (set x | x in s[1..]) + {s[0]};
      assert s[0] !in s[1..];
    }
  }

  /** start: opening the port (`portOpens`) is what initializes the device; an initialized device is left alone. */
  function AfterStart(d: Device, portOpens: bool): (r: Device)
    ensures d.initialized || !portOpens ==> r == d
    ensures !d.initialized && portOpens ==> r == d.(initialized := true)
  {
    if d.initialized || !portOpens then d else d.(initialized := true)
  }

  // ---------------------------------------------------------------------
  // Properties

  predicate IsNoteOn(m: Message) {
    |m| == 3 && m[0] == NoteOnStatus
  }

  /** The note numbers of the note-on messages in a log, in order. */
  function NoteOnKeys(ms: seq<Message>): (ks: seq<int>)
    ensures |ks| <= |ms|
  {
    if ms == [] then []
    else NoteOnKeys(ms[..|ms| - 1]) + (if IsNoteOn(ms[|ms| - 1]) then [ms[|ms| - 1][1]] else [])
  }

  lemma {:induction false} NoteOnKeysAppend(a: seq<Message>, b: seq<Message>)
    ensures NoteOnKeys(a + b) == NoteOnKeys(a) + NoteOnKeys(b)
  {
    if b != [] {
      var b' := b[..|b| - 1];
      assert (a + b)[..|a + b| - 1] == a + b';
      var last := b[|b| - 1];
      assert (a + b)[|a + b| - 1] == last;
      var k := if IsNoteOn(last) then [last[1]] else [];
      calc {
        NoteOnKeys(a + b);
        NoteOnKeys(a + b') + k;
        { NoteOnKeysAppend(a, b'); }
        NoteOnKeys(a) + NoteOnKeys(b') + k;
        NoteOnKeys(a) + (NoteOnKeys(b') + k);
        NoteOnKeys(a) + NoteOnKeys(b);
      }
    } else {
      assert a + b == a;
    }
  }

  /** The note numbers of the pitches that are not tied, in chord order. */
  function UntiedMidis(ps: seq<Pitch>, tiedNames: set<string>): (ms: seq<int>)
    ensures |ms| <= |ps|
  {
    if ps == [] then []
    else
      var p := ps[|ps| - 1];
      UntiedMidis(ps[..|ps| - 1], tiedNames) + (if NameWithOctave(p) in tiedNames then [] else [Midi(p)])
  }

  /**
   * The note-ons a chord sends are exactly those of its untied pitches, in
   * chord order: a tied pitch is never attacked again.
   */
  lemma {:induction false} ChordNoteOns(d: Device, ps: seq<Pitch>, seconds: real, velocity: int, tiedNames: set<string>)
    requires d.initialized
    ensures NoteOnKeys(AfterPlayChord(d, ps, seconds, velocity, tiedNames).sent) == NoteOnKeys(d.sent) + UntiedMidis(ps, tiedNames)
  {
    if ps != [] {
      var init, p := ps[..|ps| - 1], ps[|ps| - 1];
      ChordNoteOns(d, init, seconds, velocity, tiedNames);
      ChordPitchNoteOns(AfterPlayChord(d, init, seconds, velocity, tiedNames), p, seconds, velocity, tiedNames);
      AppendRegroup(NoteOnKeys(d.sent), UntiedMidis(init, tiedNames), if NameWithOctave(p) in tiedNames then [] else [Midi(p)]);
    }
  }

  /** One pitch of a chord sends a note-on exactly when it is not tied. */
  lemma ChordPitchNoteOns(d: Device, p: Pitch, seconds: real, velocity: int, tiedNames: set<string>)
    ensures NoteOnKeys(AfterChordPitch(d, p, seconds, velocity, tiedNames).sent)
         == NoteOnKeys(d.sent) + (if NameWithOctave(p) in tiedNames then [] else [Midi(p)])
  {
    var id := NameWithOctave(p);
    var r := AfterChordPitch(d, p, seconds, velocity, tiedNames);
    if id in tiedNames {
      assert r.sent == d.sent;
    } else {
      var offs := if id in d.active then [NoteOff(d.active[id].midi)] else [];
      assert r.sent == d.sent + offs + [NoteOn(Midi(p), velocity)];
      AttackNoteOns(d.sent, offs, Midi(p), velocity);
    }
  }

  /** An attack, with or without a note-off before it, adds just its own note-on. */
  lemma AttackNoteOns(sent: seq<Message>, offs: seq<Message>, midi: int, velocity: int)
    requires |offs| <= 1 && forall k :: 0 <= k < |offs| ==> !IsNoteOn(offs[k])
    ensures NoteOnKeys(sent + offs + [NoteOn(midi, velocity)]) == NoteOnKeys(sent) + [midi]
  {
    NoteOnKeysSnoc(sent + offs, NoteOn(midi, velocity));
    if offs == [] {
      assert sent + offs == sent;
    } else {
      assert sent + offs == sent + [offs[0]];
      NoteOnKeysSnoc(sent, offs[0]);
    }
  }

  /** One more message adds its note number when it is a note-on. */
  lemma NoteOnKeysSnoc(ms: seq<Message>, m: Message)
    ensures NoteOnKeys(ms + [m]) == NoteOnKeys(ms) + (if IsNoteOn(m) then [m[1]] else [])
  {
    assert (ms + [m])[..|ms|] == ms;
  }

  /**
   * A tied name keeps its table state through the chord: it is neither
   * added nor removed, and a sounding one keeps its note number.
   */
  lemma {:induction false} TiedEntriesKept(d: Device, ps: seq<Pitch>, seconds: real, velocity: int, tiedNames: set<string>, id: string)
    requires id in tiedNames
    ensures var r := AfterPlayChord(d, ps, seconds, velocity, tiedNames);
      (id in r.active <==> id in d.active) && (id in d.active ==> r.active[id].midi == d.active[id].midi)
  {
    if d.initialized && ps != [] {
      TiedEntriesKept(d, ps[..|ps| - 1], seconds, velocity, tiedNames, id);
    }
  }

  /** A tie continuation of a sounding note sends nothing and keeps the note number. */
  lemma TieContinuationSendsNothing(d: Device, p: Pitch, seconds: real, velocity: int)
    requires d.initialized && NameWithOctave(p) in d.active
    ensures var r := AfterPlayNote(d, p, seconds, velocity, true);
      r.sent == d.sent && r.active[NameWithOctave(p)].midi == d.active[NameWithOctave(p)].midi
  {
  }

  // ---------------------------------------------------------------------
  // The device object

  class MidiOut {
    var initialized: bool
    var active: map<string, ActiveNote>
    var order: seq<string>
    var sent: seq<Message>

    function State(): Device
      reads this
    {
      Device(initialized, active, order, sent)
    }

    ghost predicate Valid()
      reads this
    {
      ValidTable(State())
    }

    constructor()
      ensures Valid() && State() == Device(false, map[], [], [])
    {
      initialized := false;
      active := map[];
      order := [];
      sent := [];
    }

    method Start(portOpens: bool)
      requires Valid()
      modifies this
      ensures Valid() && State() == AfterStart(old(State()), portOpens)
    {
      if initialized {
        return;
      }
      if portOpens {
        initialized := true;
      }
    }

    /** _send_note_off; also what a timer does when it fires. */
    method SendNoteOff(id: string, midi: int)
      requires Valid()
      modifies this
      ensures Valid() && State() == AfterNoteOff(old(State()), id, midi)
    {
      sent := sent + [NoteOff(midi)];
      if id in active {
        active := active - {id};
      } else {
        assert active - {id} == active;
      }
      order := Remove(order, id);
    }

    /** The pending note-off of entry `id` fires. */
    method TimerFires(id: string)
      requires Valid() && id in active
      modifies this
      ensures Valid() && State() == AfterNoteOff(old(State()), id, old(active[id].timer.midi))
    {
      SendNoteOff(id, active[id].timer.midi);
    }

    method Attack(id: string, midi: int, velocity: int, seconds: real)
      requires Valid()
      modifies this
      ensures Valid() && State() == AfterAttack(old(State()), id, midi, velocity, seconds)
    {
      if id in active {
        SendNoteOff(id, active[id].midi);
      }
      sent := sent + [NoteOn(midi, velocity)];
      active := active[id := ActiveNote(midi, PendingOff(seconds, midi))];
      order := order + [id];
    }

    method PlayNote(p: Pitch, seconds: real, applyShift: bool, volume: real, tieContinuation: bool)
      requires Valid()
      modifies this
      ensures Valid() && State() == AfterPlayNote(old(State()), p, seconds, Velocity(volume), tieContinuation)
    {
      if !initialized {
        return;
      }
      var id := NameWithOctave(p);
      var midi := Midi(p);
      if tieContinuation && id in active {
        active := active[id := active[id].(timer := PendingOff(seconds, midi))];
        return;
      }
      var velocity := Velocity(volume);
      Attack(id, midi, velocity, seconds);
    }

    /** One pass of play_chord's loop. */
    method ChordPitch(p: Pitch, seconds: real, velocity: int, tiedNames: set<string>)
      requires Valid()
      modifies this
      ensures Valid() && State() == AfterChordPitch(old(State()), p, seconds, velocity, tiedNames)
    {
      var id := NameWithOctave(p);
      var midi := Midi(p);
      if id in tiedNames {
        if id in active {
          active := active[id := active[id].(timer := PendingOff(seconds, midi))];
        }
      } else {
        Attack(id, midi, velocity, seconds);
      }
    }

    method PlayChord(ps: seq<Pitch>, seconds: real, applyShift: bool, volume: real, tied: seq<Pitch>)
      requires Valid()
      modifies this
      ensures Valid() && State() == AfterPlayChord(old(State()), ps, seconds, Velocity(volume), TiedNames(tied))
    {
      if !initialized {
        return;
      }
      var tiedNames := TiedNames(tied);
      var velocity := Velocity(volume);
      var j := 0;
      while j < |ps|
        invariant 0 <= j <= |ps|
        invariant Valid() && initialized
        invariant State() == AfterPlayChord(old(State()), ps[..j], seconds, velocity, tiedNames)
      {
        ChordStep(old(State()), ps, j, seconds, velocity, tiedNames);
        j := j + 1;
      }
      assert ps[..j] == ps;
    }

    /** One pass of play_chord's loop, stated against the chord's transition. */
    method ChordStep(ghost d0: Device, ps: seq<Pitch>, j: nat, seconds: real, velocity: int, tiedNames: set<string>)
      requires Valid() && initialized && d0.initialized && j < |ps|
      requires State() == AfterPlayChord(d0, ps[..j], seconds, velocity, tiedNames)
      modifies this
      ensures Valid() && initialized
      ensures State() == AfterPlayChord(d0, ps[..j + 1], seconds, velocity, tiedNames)
    {
      assert ps[..j + 1][..j] == ps[..j];
      ChordPitch(ps[j], seconds, velocity, tiedNames);
    }

    method Stop()
      requires Valid()
      modifies this
      ensures Valid() && State() == AfterStop(old(State()))
    {
      if !initialized {
        return;
      }
      ghost var d0 := State();
      SendAllOffs();
      active := map[];
      sent := sent + [AllNotesOff];
      initialized := false;
      AfterStopIs(d0);
    }

    /** stop's loop: a note-off for every sounding note, in table order. */
    method SendAllOffs()
      requires Valid() && initialized
      modifies this
      ensures Valid() && initialized && order == []
      ensures sent == old(sent) + OffsFor(old(order), old(active))
    {
      var ids := order;
      var entries := active;
      var j := 0;
      while j < |ids|
        invariant 0 <= j <= |ids|
        invariant Valid() && initialized
        invariant order == ids[j..]
        invariant forall id :: id in active ==> id in entries && active[id] == entries[id]
        invariant sent == old(sent) + OffsFor(ids[..j], entries)
      {
        StopFirst(ids, entries, old(sent), j);
        j := j + 1;
      }
      assert ids[..j] == ids;
    }

    /** One pass of stop's loop: the first entry still in the table is switched off. */
    method StopFirst(ghost ids: seq<string>, ghost entries: map<string, ActiveNote>, ghost before: seq<Message>, ghost j: nat)
      requires Valid() && initialized && j < |ids|
      requires forall x :: x in ids ==> x in entries
      requires order == ids[j..]
      requires forall id :: id in active ==> id in entries && active[id] == entries[id]
      requires sent == before + OffsFor(ids[..j], entries)
      modifies this
      ensures Valid() && initialized && order == ids[j + 1..]
      ensures forall id :: id in active ==> id in entries && active[id] == entries[id]
      ensures sent == before + OffsFor(ids[..j + 1], entries)
    {
      var id := order[0];
      RemoveHead(order);
      assert ids[..j + 1] == ids[..j] + [id];
      OffsForSnoc(ids[..j], id, entries);
      AppendRegroup(before, OffsFor(ids[..j], entries), [NoteOff(entries[id].midi)]);
      SendNoteOff(id, active[id].midi);
    }
  }

  lemma {:induction false} OffsForSnoc(ids: seq<string>, id: string, active: map<string, ActiveNote>)
    requires forall x :: x in ids + [id] ==> x in active
    ensures OffsFor(ids + [id], active) == OffsFor(ids, active) + [NoteOff(active[id].midi)]
  {
  }
}
