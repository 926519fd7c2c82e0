/** The keyboard panel: one octave of root keys from C3 (MIDI 48) to B3
    (MIDI 59), seven white and five black, and the six chord buttons above
    them. Its tables must agree with the drone's chord table and with the
    tuner's note names; pressing a key or a button goes through the
    select/deselect toggle. */
module PianoKeys {
  import opened Common
  import PitchDetector
  import Drone

  datatype WhiteKey = WhiteKey(note: string, midi: int)

  /** A black key sits on the boundary between white keys boundaryIndex - 1
      and boundaryIndex. */
  datatype BlackKey = BlackKey(note: string, midi: int, boundaryIndex: int)

  /** `caption` is the button's label. */
  datatype ChordButton = ChordButton(id: string, caption: string, desc: string)

  const ChordButtons: seq<ChordButton> := [
    ChordButton("M3", "M3", "Major Triad"),
    ChordButton("m3", "m3", "Minor Triad"),
    ChordButton("Mm7", "Mm7", "Dominant 7"),
    ChordButton("Dim7", "Dim7", "Diminished"),
    ChordButton("5th", "5th", "Perfect 5th"),
    ChordButton("8va", "8va", "Octaves")
  ]

  const WhiteKeys: seq<WhiteKey> := [
    WhiteKey("C", 48),
    WhiteKey("D", 50),
    WhiteKey("E", 52),
    WhiteKey("F", 53),
    WhiteKey("G", 55),
    WhiteKey("A", 57),
    WhiteKey("B", 59)
  ]

  const BlackKeys: seq<BlackKey> := [
    BlackKey("C#", 49, 1),
    BlackKey("D#", 51, 2),
    BlackKey("F#", 54, 4),
    BlackKey("G#", 56, 5),
    BlackKey("A#", 58, 6)
  ]

  /** The MIDI numbers of all keys, whites first. */
  function KeyMidis(): seq<int>
  {
    seq(|WhiteKeys|, i requires 0 <= i < |WhiteKeys| => WhiteKeys[i].midi) +
    seq(|BlackKeys|, i requires 0 <= i < |BlackKeys| => BlackKeys[i].midi)
  }

  /** The twelve keys are the notes 48..59, each exactly once. */
  lemma KeysCoverOneOctave()
    ensures |KeyMidis()| == 12
    ensures forall m :: m in KeyMidis() <==> 48 <= m < 60
    ensures forall i, j :: 0 <= i < j < |KeyMidis()| ==> KeyMidis()[i] != KeyMidis()[j]
  {
    var ms := KeyMidis();
    assert ms == [48, 50, 52, 53, 55, 57, 59, 49, 51, 54, 56, 58];
  }

  /** White keys are listed from low to high. */
  lemma WhiteKeysAscending()
    ensures forall i, j :: 0 <= i < j < |WhiteKeys| ==> WhiteKeys[i].midi < WhiteKeys[j].midi
  {
  }

  /** Every black key lies on an inner boundary of the white keys, a
      semitone above the white key to its left and a semitone below the one
      to its right. */
  lemma BlackKeysBetweenWhites()
    ensures forall k :: k in BlackKeys ==>
      && 1 <= k.boundaryIndex <= 6
      && k.midi == WhiteKeys[k.boundaryIndex - 1].midi + 1
      && k.midi == WhiteKeys[k.boundaryIndex].midi - 1
  {
  }

  /** Each key is labelled with the name the tuner gives its pitch class. */
  lemma KeyLabelsMatchNoteNames()
    ensures forall i :: 0 <= i < |WhiteKeys| ==> WhiteKeys[i].note == PitchDetector.NoteStrings[WhiteKeys[i].midi % 12]
    ensures forall i :: 0 <= i < |BlackKeys| ==> BlackKeys[i].note == PitchDetector.NoteStrings[BlackKeys[i].midi % 12]
  {
    var names := PitchDetector.NoteStrings;
    assert [WhiteKeys[0].note, WhiteKeys[1].note, WhiteKeys[2].note, WhiteKeys[3].note,
            WhiteKeys[4].note, WhiteKeys[5].note, WhiteKeys[6].note] ==
           [names[0], names[2], names[4], names[5], names[7], names[9], names[11]];
    assert [BlackKeys[0].note, BlackKeys[1].note, BlackKeys[2].note, BlackKeys[3].note, BlackKeys[4].note] ==
           [names[1], names[3], names[6], names[8], names[10]];
  }

  /** The chord buttons are the entries of the drone's chord table, in the
      same order, each labelled with its own id. */
  lemma ChordButtonsMatchTable()
    ensures |ChordButtons| == |Drone.ChordOffsets|
    ensures forall i :: 0 <= i < |ChordButtons| ==>
      ChordButtons[i].id == Drone.ChordOffsets[i].0 && ChordButtons[i].caption == ChordButtons[i].id
  {
  }

  /** A table lookup by the name of entry i finds entry i when no two
      entries share a name. */
  lemma {:induction false} LookupDistinctNames(table: seq<(string, seq<int>)>, i: nat)
    requires i < |table|
    requires forall j, k :: 0 <= j < k < |table| ==> table[j].0 != table[k].0
    ensures Drone.Lookup(table, table[i].0) == Some(table[i].1)
  {
    if i > 0 {
      assert table[0].0 != table[i].0;
      assert table[1..][i - 1] == table[i];
      LookupDistinctNames(table[1..], i - 1);
    }
  }

  /** Pressing chord button i: the active button deselects the chord, any
      other selects that button's chord, whose offsets are its table entry
      and never the root-only fallback. */
  lemma ChordPress(selected: Option<string>, i: nat)
    requires i < |ChordButtons|
    ensures var r := Toggle(selected, ChordButtons[i].id);
      && (r.None? <==> selected == Some(ChordButtons[i].id))
      && (r.Some? ==> r.value == ChordButtons[i].id && Drone.Offsets(r) == Drone.ChordOffsets[i].1)
  {
    ChordButtonsMatchTable();
    assert forall j, k :: 0 <= j < k < |Drone.ChordOffsets| ==> Drone.ChordOffsets[j].0 != Drone.ChordOffsets[k].0;
    LookupDistinctNames(Drone.ChordOffsets, i);
  }
}
