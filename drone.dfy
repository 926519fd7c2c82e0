/** The drone of the application component: a root key and an optional
    chord select a set of voice ids `midi-N`, and an effect reconciles the
    engine's voice table with that set by stopping what is no longer wanted
    and starting what is new. Also the subdivision buttons' "press again
    to deselect" toggle. */
module Drone {
  import opened Common
  import opened MetronomeEngine

  /** CHORD_OFFSETS, entry by entry in the order written: for each chord
      button id, the semitone offsets from the root. */
  const ChordOffsets: seq<(string, seq<int>)> := [
    ("M3", [0, 4, 7, 12]),
    ("m3", [0, 3, 7, 12]),
    ("Mm7", [0, 4, 7, 10]),
    ("Dim7", [0, 3, 6, 9]),
    ("5th", [0, 7, 12, 24]),
    ("8va", [0, 12, 24])
  ]

  /** The entry of `name` in a table like CHORD_OFFSETS, if it has one. */
  function Lookup(table: seq<(string, seq<int>)>, name: string): Option<seq<int>>
  {
    if table == [] then None
    else if table[0].0 == name then Some(table[0].1)
    else Lookup(table[1..], name)
  }

  /** A lookup finds an entry of the table under that name, and finds
      nothing only when no entry has that name. */
  lemma {:induction false} LookupSound(table: seq<(string, seq<int>)>, name: string)
    ensures Lookup(table, name).Some? ==>
      exists i :: 0 <= i < |table| && table[i] == (name, Lookup(table, name).value)
    ensures Lookup(table, name).None? ==> forall i :: 0 <= i < |table| ==> table[i].0 != name
  {
    if table != [] && table[0].0 != name {
      LookupSound(table[1..], name);
      if Lookup(table, name).Some? {
        var i :| 0 <= i < |table[1..]| && table[1..][i] == (name, Lookup(table, name).value);
        assert table[i + 1] == table[1..][i];
      } else {
        forall i | 0 < i < |table| ensures table[i].0 != name {
          assert table[i] == table[1..][i - 1];
        }
      }
    }
  }

  predicate Distinct(offs: seq<int>) {
    forall i, j :: 0 <= i < j < |offs| ==> offs[i] != offs[j]
  }

  /** The offsets sounded for a chord selection: the table entry, or the
      root alone when no chord, or an unknown one, is selected. */
  function Offsets(chord: Option<string>): seq<int>
  {
    if chord.None? then [0]
    else match Lookup(ChordOffsets, chord.value)
      case Some(o) => o
      case None => [0]
  }

  /** The six chords of the table, and the fallback for no chord or a name
      outside it. */
  lemma ChordOffsetsTable()
    ensures Offsets(Some("M3")) == [0, 4, 7, 12]
    ensures Offsets(Some("m3")) == [0, 3, 7, 12]
    ensures Offsets(Some("Mm7")) == [0, 4, 7, 10]
    ensures Offsets(Some("Dim7")) == [0, 3, 6, 9]
    ensures Offsets(Some("5th")) == [0, 7, 12, 24]
    ensures Offsets(Some("8va")) == [0, 12, 24]
    ensures Offsets(Some("sus4")) == [0]
    ensures Offsets(None) == [0]
  {
  }

  /** Whatever is selected, the root sounds and no offset repeats. */
  lemma OffsetsWellFormed(chord: Option<string>)
    ensures |Offsets(chord)| >= 1 && Offsets(chord)[0] == 0 && Distinct(Offsets(chord))
  {
    if chord.Some? {
      LookupSound(ChordOffsets, chord.value);
      if Lookup(ChordOffsets, chord.value).Some? {
        var i :| 0 <= i < |ChordOffsets| && ChordOffsets[i] == (chord.value, Offsets(chord));
        assert Distinct(ChordOffsets[i].1);
      }
    }
  }

  /** The voice id of a MIDI note, `midi-${midi}`. */
  function MidiId(midi: int): string
  {
    "midi-" + IntToString(midi)
  }

  /** No two notes share an id. */
  ghost predicate Injective(f: int -> string) {
    forall a, b :: f(a) == f(b) ==> a == b
  }

  /** Different notes get different voice ids. */
  lemma MidiIdIsInjective()
    ensures Injective(MidiId)
  {
    forall a, b | MidiId(a) == MidiId(b) ensures a == b {
      assert MidiId(a)[5..] == IntToString(a);
      assert MidiId(b)[5..] == IntToString(b);
      IntToStringInjective(a, b);
    }
  }

  /** The ids a naming of notes gives to a set of notes. */
  function Ids(f: int -> string, notes: set<int>): set<string>
  {
    set m | m in notes :: f(m)
  }

  /** Under an injective naming, a note's id is among the ids of a set
      exactly when the note is in it. */
  lemma IdsMember(f: int -> string, notes: set<int>, m: int)
    requires Injective(f)
    ensures f(m) in Ids(f, notes) <==> m in notes
  {
  }

  /** Taking ids commutes with set difference, because ids are injective. */
  lemma IdsDifference(f: int -> string, a: set<int>, b: set<int>)
    requires Injective(f)
    ensures Ids(f, a) - Ids(f, b) == Ids(f, a - b)
  {
  }

  /** Adding a note adds its id. */
  lemma IdsAdd(f: int -> string, notes: set<int>, m: int)
    ensures Ids(f, notes + {m}) == Ids(f, notes) + {f(m)}
  {
  }

  /** A set of notes has as many ids as notes. */
  lemma {:induction false} IdsSize(f: int -> string, notes: set<int>)
    requires Injective(f)
    ensures |Ids(f, notes)| == |notes|
  {
    if notes != {} {
      var x := Pick(notes);
      var rest := notes - {x};
      IdsSize(f, rest);
      IdsMember(f, rest, x);
      assert Ids(f, notes) == Ids(f, rest) + {f(x)};
    }
  }

  /** The MIDI notes a list of offsets gives above a root. */
  function ShiftedNotes(root: int, offs: seq<int>): set<int>
  {
    if offs == [] then {}
    else ShiftedNotes(root, offs[..|offs| - 1]) + {root + offs[|offs| - 1]}
  }

  /** A note is among the shifted notes exactly when its distance from the
      root is one of the offsets. */
  lemma {:induction false} ShiftedNotesMember(root: int, offs: seq<int>, m: int)
    ensures m in ShiftedNotes(root, offs) <==> m - root in offs
  {
    if offs != [] {
      var init := offs[..|offs| - 1];
      ShiftedNotesMember(root, init, m);
      assert offs == init + [offs[|offs| - 1]];
    }
  }

  /** Distinct offsets give as many notes as offsets. */
  lemma {:induction false} ShiftedNotesSize(root: int, offs: seq<int>)
    requires Distinct(offs)
    ensures |ShiftedNotes(root, offs)| == |offs|
  {
    if offs != [] {
      var init := offs[..|offs| - 1];
      var last := offs[|offs| - 1];
      assert Distinct(init);
      ShiftedNotesSize(root, init);
      ShiftedNotesMember(root, init, root + last);
      assert last !in init by {
        forall k | 0 <= k < |init| ensures init[k] != last {
          assert init[k] == offs[k];
        }
      }
    }
  }

  /** The ids wanted for a root and a list of offsets: none without a root. */
  function Target(root: Option<int>, offs: seq<int>): set<string>
  {
    if root.None? then {} else Ids(MidiId, ShiftedNotes(root.value, offs))
  }

  /** `midi-m` is wanted exactly when there is a root and m lies one of the
      offsets above it. */
  lemma TargetMember(root: Option<int>, offs: seq<int>, m: int)
    ensures MidiId(m) in Target(root, offs) <==> root.Some? && m - root.value in offs
  {
    if root.Some? {
      MidiIdIsInjective();
      IdsMember(MidiId, ShiftedNotes(root.value, offs), m);
      ShiftedNotesMember(root.value, offs, m);
    }
  }

  /** Every wanted id is the id of some note. */
  lemma TargetIds(root: Option<int>, offs: seq<int>, id: string)
    requires id in Target(root, offs)
    ensures exists m :: id == MidiId(m) && root.Some? && m - root.value in offs
  {
    var m :| m in ShiftedNotes(root.value, offs) && id == MidiId(m);
    ShiftedNotesMember(root.value, offs, m);
  }

  /** Going from one list of offsets to another on the same root, the ids
      no longer wanted are exactly those of the notes whose offset only the
      first list has. */
  lemma TargetDifference(root: int, a: seq<int>, b: seq<int>)
    ensures Target(Some(root), a) - Target(Some(root), b) == Ids(MidiId, ShiftedNotes(root, a) - ShiftedNotes(root, b))
    ensures forall m :: m in ShiftedNotes(root, a) - ShiftedNotes(root, b) <==> m - root in a && m - root !in b
  {
    MidiIdIsInjective();
    IdsDifference(MidiId, ShiftedNotes(root, a), ShiftedNotes(root, b));
    forall m ensures m in ShiftedNotes(root, a) - ShiftedNotes(root, b) <==> m - root in a && m - root !in b
    {
      ShiftedNotesMember(root, a, m);
      ShiftedNotesMember(root, b, m);
    }
  }

  /** The ids the drone should be sounding for a root and chord selection. */
  function DroneTarget(root: Option<int>, chord: Option<string>): set<string>
  {
    Target(root, Offsets(chord))
  }

  /** Without a root nothing sounds; with one, the root itself sounds and
      there is exactly one voice per chord tone. */
  lemma DroneTargetShape(root: Option<int>, chord: Option<string>)
    ensures root.None? ==> DroneTarget(root, chord) == {}
    ensures root.Some? ==> MidiId(root.value) in DroneTarget(root, chord)
    ensures root.Some? ==> |DroneTarget(root, chord)| == |Offsets(chord)|
  {
    if root.Some? {
      var offs := Offsets(chord);
      OffsetsWellFormed(chord);
      TargetMember(root, offs, root.value);
      ShiftedNotesSize(root.value, offs);
      MidiIdIsInjective();
      IdsSize(MidiId, ShiftedNotes(root.value, offs));
    }
  }

  /** The notes of one offset list missing from another, on the same root,
      when they differ in a single offset. */
  lemma SingleOffsetDifference(root: int, a: seq<int>, b: seq<int>, x: int)
    requires x in a && x !in b
    requires forall o :: o in a && o !in b ==> o == x
    ensures Target(Some(root), a) - Target(Some(root), b) == {MidiId(root + x)}
  {
    TargetDifference(root, a, b);
    var lost := ShiftedNotes(root, a) - ShiftedNotes(root, b);
    assert lost == {root + x} by {
      assert (root + x) - root == x;
      forall m | m in lost ensures m == root + x {
        assert m - root in a && m - root !in b;
      }
    }
    IdsAdd(MidiId, {}, root + x);
  }

  /** Switching from M3 to m3 changes only the third: the major third is
      stopped and the minor third started; root, fifth and octave keep sounding. */
  lemma MajorToMinorSwitch(root: int)
    ensures DroneTarget(Some(root), Some("M3")) - DroneTarget(Some(root), Some("m3")) == {MidiId(root + 4)}
    ensures DroneTarget(Some(root), Some("m3")) - DroneTarget(Some(root), Some("M3")) == {MidiId(root + 3)}
  {
    ChordOffsetsTable();
    SingleOffsetDifference(root, [0, 4, 7, 12], [0, 3, 7, 12], 4);
    SingleOffsetDifference(root, [0, 3, 7, 12], [0, 4, 7, 12], 3);
  }

  /** The subdivision buttons (1/8, 1/8T, 1/16, dotted): pressing the active
      one falls back to plain quarters, pressing another selects it. */
  function SubdivisionPress(current: Subdivision, button: Subdivision): (r: Subdivision)
    requires button != Quarter
    ensures r == Quarter <==> current == button
    ensures r != Quarter ==> r == button
  {
    if current == button then Quarter else button
  }

  lemma SubdivisionPressTwice(current: Subdivision, button: Subdivision)
    requires button != Quarter && (current == Quarter || current == button)
    ensures SubdivisionPress(SubdivisionPress(current, button), button) == current
  {
  }

  /** The voice table after playSynthTone has been called once for each id
      of `ids`, in any order: an id that was sounding is stopped, any other
      starts at its frequency with the given gain. */
  function Toggled(voices: map<string, Voice>, ids: set<string>, freqs: map<string, real>, gain: real): map<string, Voice>
    requires ids <= freqs.Keys
  {
    map id | id in (voices.Keys - ids) + (ids - voices.Keys) :: if id in voices then voices[id] else Voice(freqs[id], gain)
  }

  /** One more call of playSynthTone, for an id not yet toggled, toggles it too. */
  lemma ToggledStep(voices: map<string, Voice>, ids: set<string>, freqs: map<string, real>, gain: real, id: string)
    requires ids <= freqs.Keys && id in freqs && id !in ids
    ensures var t := Toggled(voices, ids, freqs, gain);
      Toggled(voices, ids + {id}, freqs, gain) ==
        if id in t then t - {id} else t[id := Voice(freqs[id], gain)]
  {
  }

  /** The drone effect together with the set of ids it believes are
      playing (playingIdsRef) and the engine it drives. */
  class DroneController {
    const engine: Engine
    var playingIds: set<string>

    constructor (e: Engine)
      ensures engine == e && playingIds == {}
    {
      engine := e;
      playingIds := {};
    }

    /** The first half of the effect: targetIds and targetFreqs. */
    static method BuildTarget(root: Option<int>, offs: seq<int>, hz: int -> real)
      returns (target: set<string>, freqs: map<string, real>)
      ensures target == Target(root, offs)
      ensures freqs.Keys == target
      ensures forall m :: MidiId(m) in freqs ==> freqs[MidiId(m)] == hz(m)
    {
      target := {};
      freqs := map[];
      if root.Some? {
        var i := 0;
        while i < |offs|
          invariant 0 <= i <= |offs|
          invariant target == Ids(MidiId, ShiftedNotes(root.value, offs[..i]))
          invariant freqs.Keys == target
          invariant forall m :: MidiId(m) in freqs ==> freqs[MidiId(m)] == hz(m)
        {
          var midi := root.value + offs[i];
          var id := MidiId(midi);
          forall m | MidiId(m) == id ensures m == midi {
            MidiIdIsInjective();
          }
          assert offs[..i + 1][..i] == offs[..i];
          IdsAdd(MidiId, ShiftedNotes(root.value, offs[..i]), midi);
          target := target + {id};
          freqs := freqs[id := hz(midi)];
          i := i + 1;
        }
        assert offs[..i] == offs;
      }
    }

    /** The stop loop: every id believed playing but not wanted is stopped
        and forgotten; wanted ones are left alone. */
    method StopStale(target: set<string>)
      requires engine.Valid()
      modifies this`playingIds, engine`voices
      ensures engine.Valid()
      ensures playingIds == old(playingIds) * target
      ensures engine.voices == old(engine.voices) - (old(playingIds) - target)
    {
      ghost var p0 := playingIds;
      ghost var v0 := engine.voices;
      var current := playingIds;
      while current != {}
        invariant engine.Valid()
        invariant current <= p0
        invariant playingIds == p0 - ((p0 - current) - target)
        invariant engine.voices == v0 - ((p0 - current) - target)
        decreases current
      {
        var id :| id in current;
        if id !in target {
          engine.StopSynthTone(id);
          playingIds := playingIds - {id};
        }
        current := current - {id};
      }
    }

    /** The start loop: every wanted id not believed playing is handed to
        playSynthTone and recorded as playing. */
    method StartMissing(target: set<string>, freqs: map<string, real>)
      requires engine.Valid()
      requires freqs.Keys == target && playingIds <= target
      modifies this`playingIds, engine`voices, engine`contextReady
      ensures engine.Valid()
      ensures playingIds == target
      ensures engine.voices == Toggled(old(engine.voices), target - old(playingIds), freqs, Gain(engine.volume, SynthShare))
    {
      ghost var p1 := playingIds;
      ghost var v1 := engine.voices;
      ghost var gain := Gain(engine.volume, SynthShare);
      var pending := target;
      while pending != {}
        invariant engine.Valid()
        invariant pending <= target
        invariant playingIds == p1 + (target - pending)
        invariant engine.voices == Toggled(v1, (target - pending) - p1, freqs, gain)
        decreases pending
      {
        var id :| id in pending;
        ghost var done := (target - pending) - p1;
        if id !in playingIds {
          var freq := freqs[id];
          var _ := engine.PlaySynthTone(id, freq);
          ToggledStep(v1, done, freqs, gain, id);
          assert (target - (pending - {id})) - p1 == done + {id};
          playingIds := playingIds + {id};
        } else {
          assert (target - (pending - {id})) - p1 == done;
        }
        pending := pending - {id};
      }
      assert (target - pending) - p1 == target - p1;
    }

    /** Runs the effect for a new root and chord. `hz` stands for the
        equal-tempered frequency of a MIDI note, which is always positive, so
        the source's `if (freq)` guard always passes and is not modelled. */
    method Reconcile(root: Option<int>, chord: Option<string>, hz: int -> real)
      requires forall m :: hz(m) > 0.0
      requires engine.Valid()
      modifies this`playingIds, engine`voices, engine`contextReady
      ensures engine.Valid()
      ensures playingIds == DroneTarget(root, chord)
      // the voice table after stopping old(playingIds) - target, then toggling each id of target - old(playingIds)
      ensures var stopped := old(engine.voices) - (old(playingIds) - playingIds);
        var started := playingIds - old(playingIds);
        engine.voices.Keys == (stopped.Keys - started) + (started - stopped.Keys)
      ensures var stopped := old(engine.voices) - (old(playingIds) - playingIds);
        forall id :: id in stopped && id !in playingIds - old(playingIds) ==>
          id in engine.voices && engine.voices[id] == stopped[id]
      ensures forall m :: MidiId(m) in playingIds - old(playingIds) && MidiId(m) !in old(engine.voices) ==>
        MidiId(m) in engine.voices && engine.voices[MidiId(m)] == Voice(hz(m), Gain(engine.volume, SynthShare))
      ensures old(engine.voices.Keys) == old(playingIds) ==> engine.voices.Keys == playingIds
    {
      var target, freqs := BuildTarget(root, Offsets(chord), hz);
      ghost var p0 := playingIds;
      StopStale(target);
      assert target - playingIds == target - p0;
      StartMissing(target, freqs);
    }
  }
}
