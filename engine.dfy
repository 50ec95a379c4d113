/** The game logic of the sight-reading engine: where each piano key sits on
    the grand staff, the computer-keyboard and MIDI inputs, the 88-key
    virtual piano layout, wait-mode scoring and the accuracy figure.

    Staff lines are counted in half-line units (the source's `line` times
    two), so every table entry is a whole number. */
module Engine {
  import opened Options
  import Generators

  /* ---------------------------------------------------------------------
     MIDI_TO_STAFF_POSITION
     --------------------------------------------------------------------- */

  datatype Staff = Treble | Bass | Both

  /** One entry of the staff table; `line2` is the line in half-line units. */
  datatype Pos = Pos(staff: Staff, line2: int, ledgerLines: nat, noteName: string)

  const LowestKey: int := 21
  const HighestKey: int := 108
  const MiddleC: int := 60

  /** MIDI 21 to 23 (A0 to B0). */
  const Octave0: seq<Pos> := [
    Pos(Bass, -20, 5, "A0"),
    Pos(Bass, -19, 5, "Bb0"),
    Pos(Bass, -18, 5, "B0")
  ]

  /** MIDI 24 to 35 (C1 to B1). */
  const Octave1: seq<Pos> := [
    Pos(Bass, -18, 4, "C1"),
    Pos(Bass, -17, 4, "Db1"),
    Pos(Bass, -16, 4, "D1"),
    Pos(Bass, -15, 4, "Eb1"),
    Pos(Bass, -14, 3, "E1"),
    Pos(Bass, -13, 3, "F1"),
    Pos(Bass, -12, 3, "Gb1"),
    Pos(Bass, -11, 3, "G1"),
    Pos(Bass, -10, 3, "Ab1"),
    Pos(Bass, -9, 2, "A1"),
    Pos(Bass, -8, 2, "Bb1"),
    Pos(Bass, -7, 2, "B1")
  ]

  /** MIDI 36 to 47 (C2 to B2). */
  const Octave2: seq<Pos> := [
    Pos(Bass, -6, 2, "C2"),
    Pos(Bass, -5, 2, "Db2"),
    Pos(Bass, -4, 1, "D2"),
    Pos(Bass, -3, 1, "Eb2"),
    Pos(Bass, -2, 1, "E2"),
    Pos(Bass, -1, 0, "F2"),
    Pos(Bass, 0, 0, "Gb2"),
    Pos(Bass, 1, 0, "G2"),
    Pos(Bass, 2, 0, "Ab2"),
    Pos(Bass, 3, 0, "A2"),
    Pos(Bass, 4, 0, "Bb2"),
    Pos(Bass, 5, 0, "B2")
  ]

  /** MIDI 48 to 59 (C3 to B3). */
  const Octave3: seq<Pos> := [
    Pos(Bass, 6, 0, "C3"),
    Pos(Bass, 7, 0, "Db3"),
    Pos(Bass, 8, 0, "D3"),
    Pos(Bass, 9, 0, "Eb3"),
    Pos(Bass, 10, 0, "E3"),
    Pos(Bass, 11, 0, "F3"),
    Pos(Bass, 12, 0, "Gb3"),
    Pos(Bass, 13, 0, "G3"),
    Pos(Bass, 14, 0, "Ab3"),
    Pos(Bass, 15, 0, "A3"),
    Pos(Bass, 16, 0, "Bb3"),
    Pos(Bass, 17, 0, "B3")
  ]

  /** MIDI 61 to 71 (Db4 to B4). */
  const Octave4: seq<Pos> := [
    Pos(Treble, 1, 0, "Db4"),
    Pos(Treble, 2, 0, "D4"),
    Pos(Treble, 3, 0, "Eb4"),
    Pos(Treble, 4, 0, "E4"),
    Pos(Treble, 5, 0, "F4"),
    Pos(Treble, 6, 0, "Gb4"),
    Pos(Treble, 7, 0, "G4"),
    Pos(Treble, 8, 0, "Ab4"),
    Pos(Treble, 9, 0, "A4"),
    Pos(Treble, 10, 0, "Bb4"),
    Pos(Treble, 11, 0, "B4")
  ]

  /** MIDI 72 to 83 (C5 to B5). */
  const Octave5: seq<Pos> := [
    Pos(Treble, 12, 0, "C5"),
    Pos(Treble, 13, 0, "Db5"),
    Pos(Treble, 14, 0, "D5"),
    Pos(Treble, 15, 0, "Eb5"),
    Pos(Treble, 16, 0, "E5"),
    Pos(Treble, 17, 0, "F5"),
    Pos(Treble, 18, 1, "Gb5"),
    Pos(Treble, 19, 1, "G5"),
    Pos(Treble, 20, 1, "Ab5"),
    Pos(Treble, 21, 1, "A5"),
    Pos(Treble, 22, 1, "Bb5"),
    Pos(Treble, 23, 1, "B5")
  ]

  /** MIDI 84 to 95 (C6 to B6). */
  const Octave6: seq<Pos> := [
    Pos(Treble, 24, 2, "C6"),
    Pos(Treble, 25, 2, "Db6"),
    Pos(Treble, 26, 2, "D6"),
    Pos(Treble, 27, 2, "Eb6"),
    Pos(Treble, 28, 2, "E6"),
    Pos(Treble, 29, 2, "F6"),
    Pos(Treble, 30, 3, "Gb6"),
    Pos(Treble, 31, 3, "G6"),
    Pos(Treble, 32, 3, "Ab6"),
    Pos(Treble, 33, 3, "A6"),
    Pos(Treble, 34, 3, "Bb6"),
    Pos(Treble, 35, 3, "B6")
  ]

  /** MIDI 96 to 107 (C7 to B7). */
  const Octave7: seq<Pos> := [
    Pos(Treble, 36, 4, "C7"),
    Pos(Treble, 37, 4, "Db7"),
    Pos(Treble, 38, 4, "D7"),
    Pos(Treble, 39, 4, "Eb7"),
    Pos(Treble, 40, 4, "E7"),
    Pos(Treble, 41, 4, "F7"),
    Pos(Treble, 42, 5, "Gb7"),
    Pos(Treble, 43, 5, "G7"),
    Pos(Treble, 44, 5, "Ab7"),
    Pos(Treble, 45, 5, "A7"),
    Pos(Treble, 46, 5, "Bb7"),
    Pos(Treble, 47, 5, "B7")
  ]

  /** MIDI 60, middle C, drawn between the staves. */
  const MiddleCPos: Pos := Pos(Both, 0, 1, "C4")

  /** MIDI 108, the top key. */
  const TopCPos: Pos := Pos(Treble, 48, 6, "C8")

  /** `MIDI_TO_STAFF_POSITION[midi]`; `None` where the table has no entry. */
  function StaffPosition(midi: int): (p: Option<Pos>)
    ensures p.Some? <==> LowestKey <= midi <= HighestKey
  {
    if midi < LowestKey || midi > HighestKey then None
    else if midi < 24 then Some(Octave0[midi - 21])
    else if midi < 36 then Some(Octave1[midi - 24])
    else if midi < 48 then Some(Octave2[midi - 36])
    else if midi < 60 then Some(Octave3[midi - 48])
    else if midi == 60 then Some(MiddleCPos)
    else if midi < 72 then Some(Octave4[midi - 61])
    else if midi < 84 then Some(Octave5[midi - 72])
    else if midi < 96 then Some(Octave6[midi - 84])
    else if midi < 108 then Some(Octave7[midi - 96])
    else Some(TopCPos)
  }

  /** Pitch-class names as the table spells them: flats, never sharps. */
  const FlatNames: seq<string> := ["C", "Db", "D", "Eb", "E", "F", "Gb", "G", "Ab", "A", "Bb", "B"]

  /** The scientific pitch name of a key: its pitch class, then its octave
      (C4 is middle C). */
  function PitchName(midi: int): string
    requires 12 <= midi < 132
  {
    FlatNames[midi % 12] + [('0' as int + midi / 12 - 1) as char]
  }

  /** The entries `row` holds for the keys from `first` on: all on `staff`,
      each a semitone (half a line) above the last, and each named by its
      scientific pitch name. */
  predicate RowFollows(row: seq<Pos>, first: int, staff: Staff, line0: int)
    requires 12 <= first && first + |row| <= 132
  {
    forall i :: 0 <= i < |row| ==> EntryFollows(row[i], first + i, staff, line0 + i)
  }

  predicate EntryFollows(p: Pos, midi: int, staff: Staff, line2: int)
    requires 12 <= midi < 132
  {
    p.staff == staff && p.line2 == line2 && p.noteName == PitchName(midi)
  }

  lemma Octave0Follows()
    ensures RowFollows(Octave0, 21, Bass, -20)
  {
    assert EntryFollows(Octave0[0], 21, Bass, -20);
    assert EntryFollows(Octave0[1], 22, Bass, -19);
    assert EntryFollows(Octave0[2], 23, Bass, -18);
  }
  lemma Octave0Ledger() ensures LedgerFalls(Octave0) {}
  lemma Octave1Follows()
    ensures RowFollows(Octave1, 24, Bass, -18)
  {
    assert EntryFollows(Octave1[0], 24, Bass, -18);
    assert EntryFollows(Octave1[1], 25, Bass, -17);
    assert EntryFollows(Octave1[2], 26, Bass, -16);
    assert EntryFollows(Octave1[3], 27, Bass, -15);
    assert EntryFollows(Octave1[4], 28, Bass, -14);
    assert EntryFollows(Octave1[5], 29, Bass, -13);
    assert EntryFollows(Octave1[6], 30, Bass, -12);
    assert EntryFollows(Octave1[7], 31, Bass, -11);
    assert EntryFollows(Octave1[8], 32, Bass, -10);
    assert EntryFollows(Octave1[9], 33, Bass, -9);
    assert EntryFollows(Octave1[10], 34, Bass, -8);
    assert EntryFollows(Octave1[11], 35, Bass, -7);
  }
  lemma Octave1Ledger() ensures LedgerFalls(Octave1) {}
  lemma Octave2Follows()
    ensures RowFollows(Octave2, 36, Bass, -6)
  {
    assert EntryFollows(Octave2[0], 36, Bass, -6);
    assert EntryFollows(Octave2[1], 37, Bass, -5);
    assert EntryFollows(Octave2[2], 38, Bass, -4);
    assert EntryFollows(Octave2[3], 39, Bass, -3);
    assert EntryFollows(Octave2[4], 40, Bass, -2);
    assert EntryFollows(Octave2[5], 41, Bass, -1);
    assert EntryFollows(Octave2[6], 42, Bass, 0);
    assert EntryFollows(Octave2[7], 43, Bass, 1);
    assert EntryFollows(Octave2[8], 44, Bass, 2);
    assert EntryFollows(Octave2[9], 45, Bass, 3);
    assert EntryFollows(Octave2[10], 46, Bass, 4);
    assert EntryFollows(Octave2[11], 47, Bass, 5);
  }
  lemma Octave2Ledger() ensures LedgerFalls(Octave2) {}
  lemma Octave3Follows()
    ensures RowFollows(Octave3, 48, Bass, 6)
  {
    assert EntryFollows(Octave3[0], 48, Bass, 6);
    assert EntryFollows(Octave3[1], 49, Bass, 7);
    assert EntryFollows(Octave3[2], 50, Bass, 8);
    assert EntryFollows(Octave3[3], 51, Bass, 9);
    assert EntryFollows(Octave3[4], 52, Bass, 10);
    assert EntryFollows(Octave3[5], 53, Bass, 11);
    assert EntryFollows(Octave3[6], 54, Bass, 12);
    assert EntryFollows(Octave3[7], 55, Bass, 13);
    assert EntryFollows(Octave3[8], 56, Bass, 14);
    assert EntryFollows(Octave3[9], 57, Bass, 15);
    assert EntryFollows(Octave3[10], 58, Bass, 16);
    assert EntryFollows(Octave3[11], 59, Bass, 17);
  }
  lemma Octave3Ledger() ensures LedgerFalls(Octave3) {}
  lemma Octave4Follows()
    ensures RowFollows(Octave4, 61, Treble, 1)
  {
    assert EntryFollows(Octave4[0], 61, Treble, 1);
    assert EntryFollows(Octave4[1], 62, Treble, 2);
    assert EntryFollows(Octave4[2], 63, Treble, 3);
    assert EntryFollows(Octave4[3], 64, Treble, 4);
    assert EntryFollows(Octave4[4], 65, Treble, 5);
    assert EntryFollows(Octave4[5], 66, Treble, 6);
    assert EntryFollows(Octave4[6], 67, Treble, 7);
    assert EntryFollows(Octave4[7], 68, Treble, 8);
    assert EntryFollows(Octave4[8], 69, Treble, 9);
    assert EntryFollows(Octave4[9], 70, Treble, 10);
    assert EntryFollows(Octave4[10], 71, Treble, 11);
  }
  lemma Octave4Ledger() ensures LedgerRises(Octave4) {}
  lemma Octave5Follows()
    ensures RowFollows(Octave5, 72, Treble, 12)
  {
    assert EntryFollows(Octave5[0], 72, Treble, 12);
    assert EntryFollows(Octave5[1], 73, Treble, 13);
    assert EntryFollows(Octave5[2], 74, Treble, 14);
    assert EntryFollows(Octave5[3], 75, Treble, 15);
    assert EntryFollows(Octave5[4], 76, Treble, 16);
    assert EntryFollows(Octave5[5], 77, Treble, 17);
    assert EntryFollows(Octave5[6], 78, Treble, 18);
    assert EntryFollows(Octave5[7], 79, Treble, 19);
    assert EntryFollows(Octave5[8], 80, Treble, 20);
    assert EntryFollows(Octave5[9], 81, Treble, 21);
    assert EntryFollows(Octave5[10], 82, Treble, 22);
    assert EntryFollows(Octave5[11], 83, Treble, 23);
  }
  lemma Octave5Ledger() ensures LedgerRises(Octave5) {}
  lemma Octave6Follows()
    ensures RowFollows(Octave6, 84, Treble, 24)
  {
    assert EntryFollows(Octave6[0], 84, Treble, 24);
    assert EntryFollows(Octave6[1], 85, Treble, 25);
    assert EntryFollows(Octave6[2], 86, Treble, 26);
    assert EntryFollows(Octave6[3], 87, Treble, 27);
    assert EntryFollows(Octave6[4], 88, Treble, 28);
    assert EntryFollows(Octave6[5], 89, Treble, 29);
    assert EntryFollows(Octave6[6], 90, Treble, 30);
    assert EntryFollows(Octave6[7], 91, Treble, 31);
    assert EntryFollows(Octave6[8], 92, Treble, 32);
    assert EntryFollows(Octave6[9], 93, Treble, 33);
    assert EntryFollows(Octave6[10], 94, Treble, 34);
    assert EntryFollows(Octave6[11], 95, Treble, 35);
  }
  lemma Octave6Ledger() ensures LedgerRises(Octave6) {}
  lemma Octave7Follows()
    ensures RowFollows(Octave7, 96, Treble, 36)
  {
    assert EntryFollows(Octave7[0], 96, Treble, 36);
    assert EntryFollows(Octave7[1], 97, Treble, 37);
    assert EntryFollows(Octave7[2], 98, Treble, 38);
    assert EntryFollows(Octave7[3], 99, Treble, 39);
    assert EntryFollows(Octave7[4], 100, Treble, 40);
    assert EntryFollows(Octave7[5], 101, Treble, 41);
    assert EntryFollows(Octave7[6], 102, Treble, 42);
    assert EntryFollows(Octave7[7], 103, Treble, 43);
    assert EntryFollows(Octave7[8], 104, Treble, 44);
    assert EntryFollows(Octave7[9], 105, Treble, 45);
    assert EntryFollows(Octave7[10], 106, Treble, 46);
    assert EntryFollows(Octave7[11], 107, Treble, 47);
  }
  lemma Octave7Ledger() ensures LedgerRises(Octave7) {}

  /** Every entry: below middle C the note is on the bass staff and above it
      on the treble staff, middle C alone belonging to both; each semitone
      is half a line, treble notes counting up from middle C on line 0 and
      bass notes from G-flat 2 on line 0, except that the three keys below
      C1 sit half a line higher than that rule (so B0 shares C1's line);
      and the name is the key's scientific pitch name, spelt with flats. */
  lemma StaffEntry(midi: int)
    requires LowestKey <= midi <= HighestKey
    ensures var p := StaffPosition(midi).value;
      && (midi < MiddleC <==> p.staff == Bass)
      && (midi > MiddleC <==> p.staff == Treble)
      && (midi == MiddleC <==> p.staff == Both)
      && (MiddleC <= midi ==> p.line2 == midi - MiddleC)
      && (24 <= midi < MiddleC ==> p.line2 == midi - 42)
      && (midi < 24 ==> p.line2 == midi - 41)
      && p.noteName == PitchName(midi)
  {
    if midi < 24 { Octave0Follows(); }
    else if midi < 36 { Octave1Follows(); }
    else if midi < 48 { Octave2Follows(); }
    else if midi < 60 { Octave3Follows(); }
    else if midi == 60 { }
    else if midi < 72 { Octave4Follows(); }
    else if midi < 84 { Octave5Follows(); }
    else if midi < 96 { Octave6Follows(); }
    else if midi < 108 { Octave7Follows(); }
  }

  /** Ledger lines never get fewer moving away from middle C on either staff. */
  lemma LedgerLinesGrowOutward(midi: int)
    ensures LowestKey <= midi < 59 ==>
      StaffPosition(midi).value.ledgerLines >= StaffPosition(midi + 1).value.ledgerLines
    ensures MiddleC < midi < HighestKey ==>
      StaffPosition(midi).value.ledgerLines <= StaffPosition(midi + 1).value.ledgerLines
  {
    if midi < 23 { Octave0Ledger(); }
    else if 23 < midi < 35 { Octave1Ledger(); }
    else if 35 < midi < 47 { Octave2Ledger(); }
    else if 47 < midi < 59 { Octave3Ledger(); }
    else if 60 < midi < 71 { Octave4Ledger(); }
    else if 71 < midi < 83 { Octave5Ledger(); }
    else if 83 < midi < 95 { Octave6Ledger(); }
    else if 95 < midi < 107 { Octave7Ledger(); }
  }

  predicate LedgerFalls(row: seq<Pos>) {
    forall i :: 0 < i < |row| ==> row[i - 1].ledgerLines >= row[i].ledgerLines
  }

  predicate LedgerRises(row: seq<Pos>) {
    forall i :: 0 < i < |row| ==> row[i - 1].ledgerLines <= row[i].ledgerLines
  }

  /* ---------------------------------------------------------------------
     KEYBOARD_TO_MIDI
     --------------------------------------------------------------------- */

  /** The computer-keyboard layout: two rows per octave, 32 keys from C3 (48)
      to G5 (79). Every key of the layout is a single character, so the
      table is a function of one character; `KeyboardNote` looks up a key
      name, and a name the layout lacks reads as `None` (`undefined`). */
  function KeyboardToMidi(c: char): (midi: Option<int>) {
    match c
    case 'z' => Some(48) case 's' => Some(49) case 'x' => Some(50) case 'd' => Some(51)
    case 'c' => Some(52) case 'v' => Some(53) case 'g' => Some(54) case 'b' => Some(55)
    case 'h' => Some(56) case 'n' => Some(57) case 'j' => Some(58) case 'm' => Some(59)
    case 'q' => Some(60) case '2' => Some(61) case 'w' => Some(62) case '3' => Some(63)
    case 'e' => Some(64) case 'r' => Some(65) case '5' => Some(66) case 't' => Some(67)
    case '6' => Some(68) case 'y' => Some(69) case '7' => Some(70) case 'u' => Some(71)
    case 'i' => Some(72) case '9' => Some(73) case 'o' => Some(74) case '0' => Some(75)
    case 'p' => Some(76) case '[' => Some(77) case '=' => Some(78) case ']' => Some(79)
    case _ => None
  }

  const LowestMappedKey: int := 48
  const HighestMappedKey: int := 79

  /** `KEYBOARD_TO_MIDI[key]`, for a key name as the browser reports it. */
  function KeyboardNote(key: string): Option<int> {
    if |key| == 1 then KeyboardToMidi(key[0]) else None
  }

  /** The key that plays each note, lowest first: the inverse of the layout. */
  const KeyForNote: seq<char> := "zsxdcvgbhnjmq2w3er5t6y7ui9o0p[=]"

  /** Every mapped key plays a note from 48 to 79, and `KeyForNote` gives the
      key back, so no two keys play the same note. */
  lemma KeyboardMapsIntoRange(key: string)
    requires KeyboardNote(key).Some?
    ensures var midi := KeyboardNote(key).value;
      LowestMappedKey <= midi <= HighestMappedKey && [KeyForNote[midi - LowestMappedKey]] == key
  {
  }

  /** Every note from 48 to 79 has a key. */
  lemma KeyboardCoversRange(midi: int)
    requires LowestMappedKey <= midi <= HighestMappedKey
    ensures KeyboardNote([KeyForNote[midi - LowestMappedKey]]) == Some(midi)
  {
  }

  /* ---------------------------------------------------------------------
     MIDIHandler.handleMIDIMessage
     --------------------------------------------------------------------- */

  /** What the handler does with one incoming message: play and score a
      note, silence one (the note may be missing from a short message), or
      nothing. */
  datatype MidiAction = NoteOn(note: int, velocity: int) | NoteOff(released: Option<int>) | Ignore

  const NoteOnCommand: bv8 := 0x90
  const NoteOffCommand: bv8 := 0x80

  /** The command half of the status byte; a message with no bytes reads as
      command 0, since `undefined & 0xF0` is 0. */
  function Command(data: seq<bv8>): bv8 {
    if |data| == 0 then 0 else data[0] & 0xF0
  }

  /** The byte at `i`, or `None` past the end of the message. */
  function DataByte(data: seq<bv8>, i: nat): Option<int> {
    if i < |data| then Some(data[i] as int) else None
  }

  /** Dispatch on the status byte's command: Note On with a positive
      velocity plays the note; Note Off, or Note On with velocity 0, stops
      it; anything else, including a Note On that lacks its velocity byte,
      is ignored. The channel (the low four bits) plays no part. */
  function DecodeMidi(data: seq<bv8>): (a: MidiAction)
    ensures a.NoteOn? ==> |data| >= 3 && a.note == data[1] as int && a.velocity == data[2] as int > 0
    ensures a.NoteOff? ==> a.released == DataByte(data, 1)
    ensures Command(data) != NoteOnCommand && Command(data) != NoteOffCommand ==> a == Ignore
  {
    var command := Command(data);
    var velocity := DataByte(data, 2);
    if command == NoteOnCommand && velocity.Some? && velocity.value > 0 then NoteOn(data[1] as int, velocity.value)
    else if command == NoteOffCommand || (command == NoteOnCommand && velocity == Some(0)) then NoteOff(DataByte(data, 1))
    else Ignore
  }

  /** A Note On message as section "Channel Voice Messages" of the MIDI 1.0
      Detailed Specification lays it out: status 0x9n for channel n, then
      the key and the velocity, each seven bits. */
  function NoteOnMessage(channel: bv8, note: bv8, velocity: bv8): seq<bv8>
    requires channel < 16 && note < 128 && velocity < 128
  {
    [NoteOnCommand | channel, note, velocity]
  }

  /** A Note Off message: status 0x8n, key, release velocity. */
  function NoteOffMessage(channel: bv8, note: bv8, velocity: bv8): seq<bv8>
    requires channel < 16 && note < 128 && velocity < 128
  {
    [NoteOffCommand | channel, note, velocity]
  }

  /** Decoding a well-formed Note On or Note Off on any channel gives back
      its key; a Note On with velocity 0 counts as a Note Off. */
  lemma DecodeNoteMessages(channel: bv8, note: bv8, velocity: bv8)
    requires channel < 16 && note < 128 && velocity < 128
    ensures DecodeMidi(NoteOnMessage(channel, note, velocity)) ==
      if velocity > 0 then NoteOn(note as int, velocity as int) else NoteOff(Some(note as int))
    ensures DecodeMidi(NoteOffMessage(channel, note, velocity)) == NoteOff(Some(note as int))
  {
    assert (NoteOnCommand | channel) & 0xF0 == NoteOnCommand;
    assert (NoteOffCommand | channel) & 0xF0 == NoteOffCommand;
  }

  /** Any other status byte with the high bit set (aftertouch, control and
      program change, pitch bend, system messages) does nothing. */
  lemma OtherMessagesIgnored(data: seq<bv8>)
    requires |data| > 0 && data[0] >= 0xA0
    ensures DecodeMidi(data) == Ignore
  {
    assert data[0] & 0xF0 >= 0xA0;
  }

  /* ---------------------------------------------------------------------
     WaitMode.setExercise / handleNoteInput
     --------------------------------------------------------------------- */

  /** The engine's running score and how far into the exercise the player is. */
  datatype WaitState = WaitState(hits: nat, misses: nat, streak: nat, bestStreak: nat, index: nat)

  /** The note at `index` is a single note with this pitch. Rests and chords
      carry no `midi`, so no input matches them. */
  predicate Expects(notes: seq<Generators.Event>, index: nat, midi: int) {
    index < |notes| && notes[index].Note? && notes[index].midi == midi
  }

  /** The score and position after one played note: once the exercise is
      done nothing changes; a right note scores a hit, extends the streak
      and moves on; a wrong one scores a miss, breaks the streak and stays. */
  function WaitStep(notes: seq<Generators.Event>, s: WaitState, midi: int): (r: WaitState)
    ensures s.index >= |notes| ==> r == s
    ensures s.index < |notes| ==> r.hits + r.misses == s.hits + s.misses + 1
    ensures r.index == (if Expects(notes, s.index, midi) then s.index + 1 else s.index)
    ensures r.hits == s.hits + (if Expects(notes, s.index, midi) then 1 else 0)
    ensures r.streak == (if Expects(notes, s.index, midi) then s.streak + 1
                         else if s.index < |notes| then 0 else s.streak)
    ensures r.bestStreak == (if Expects(notes, s.index, midi) && s.streak + 1 > s.bestStreak then s.streak + 1
                             else s.bestStreak)
    ensures s.streak <= s.bestStreak ==> r.streak <= r.bestStreak
  {
    if s.index >= |notes| then s
    else if notes[s.index].Note? && midi == notes[s.index].midi then
      var streak := s.streak + 1;
      WaitState(s.hits + 1, s.misses, streak, if s.bestStreak > streak then s.bestStreak else streak, s.index + 1)
    else
      WaitState(s.hits, s.misses + 1, 0, s.bestStreak, s.index)
  }

  /** The state after a series of played notes, in order. */
  function WaitRun(notes: seq<Generators.Event>, s: WaitState, inputs: seq<int>): WaitState
    decreases |inputs|
  {
    if inputs == [] then s else WaitRun(notes, WaitStep(notes, s, inputs[0]), inputs[1..])
  }

  /** The best streak is never below the current one, and the position never
      passes the end of the exercise, whatever is played. */
  predicate ScoreValid(notes: seq<Generators.Event>, s: WaitState) {
    s.streak <= s.bestStreak && s.index <= |notes|
  }

  lemma {:induction false} WaitRunKeepsValid(notes: seq<Generators.Event>, s: WaitState, inputs: seq<int>)
    requires ScoreValid(notes, s)
    ensures ScoreValid(notes, WaitRun(notes, s, inputs))
    ensures WaitRun(notes, s, inputs).bestStreak >= s.bestStreak
    decreases |inputs|
  {
    if inputs != [] {
      WaitRunKeepsValid(notes, WaitStep(notes, s, inputs[0]), inputs[1..]);
    }
  }

  /** The pitches of the exercise from `index` on, when every event there is
      a single note. */
  predicate AllNotesFrom(notes: seq<Generators.Event>, index: nat) {
    forall k :: index <= k < |notes| ==> notes[k].Note?
  }

  function PitchesFrom(notes: seq<Generators.Event>, index: nat): (pitches: seq<int>)
    requires index <= |notes| && AllNotesFrom(notes, index)
    ensures |pitches| == |notes| - index
    ensures forall k :: 0 <= k < |pitches| ==> pitches[k] == notes[index + k].midi
  {
    seq(|notes| - index, k requires 0 <= k < |notes| - index => notes[index + k].midi)
  }

  /** Playing exactly the remaining notes finishes the exercise with a hit
      for each and no miss, the streak growing by one per note. */
  lemma {:induction false} PerfectRun(notes: seq<Generators.Event>, s: WaitState)
    requires s.index <= |notes| && AllNotesFrom(notes, s.index)
    ensures var r := WaitRun(notes, s, PitchesFrom(notes, s.index));
      && r.index == |notes|
      && r.hits == s.hits + (|notes| - s.index)
      && r.misses == s.misses
      && r.streak == s.streak + (|notes| - s.index)
    decreases |notes| - s.index
  {
    var inputs := PitchesFrom(notes, s.index);
    if s.index < |notes| {
      var next := WaitStep(notes, s, inputs[0]);
      assert Expects(notes, s.index, inputs[0]);
      assert inputs[1..] == PitchesFrom(notes, next.index);
      PerfectRun(notes, next);
    }
  }

  /** A rest or a chord at the current position can never be passed: every
      input from then on is a miss and the position stays put. */
  lemma {:induction false} StuckOnRestOrChord(notes: seq<Generators.Event>, s: WaitState, inputs: seq<int>)
    requires s.index < |notes| && !notes[s.index].Note?
    ensures var r := WaitRun(notes, s, inputs);
      r.index == s.index && r.hits == s.hits && r.misses == s.misses + |inputs|
    decreases |inputs|
  {
    if inputs != [] {
      StuckOnRestOrChord(notes, WaitStep(notes, s, inputs[0]), inputs[1..]);
    }
  }

  /** Once the exercise is finished, further input changes nothing. */
  lemma {:induction false} FinishedIgnoresInput(notes: seq<Generators.Event>, s: WaitState, inputs: seq<int>)
    requires s.index >= |notes|
    ensures WaitRun(notes, s, inputs) == s
    decreases |inputs|
  {
    if inputs != [] {
      FinishedIgnoresInput(notes, WaitStep(notes, s, inputs[0]), inputs[1..]);
    }
  }

  /** `SightReadingEngine`: only the `stats` counters that wait mode updates. */
  class SightReadingEngine {
    var hits: nat
    var misses: nat
    var streak: nat
    var bestStreak: nat

    constructor ()
      ensures hits == 0 && misses == 0 && streak == 0 && bestStreak == 0
    {
      hits, misses, streak, bestStreak := 0, 0, 0, 0;
    }
  }

  class WaitMode {
    const engine: SightReadingEngine
    var notes: seq<Generators.Event>
    var currentIndex: nat

    constructor (engine: SightReadingEngine)
      ensures this.engine == engine && notes == [] && currentIndex == 0
    {
      this.engine := engine;
      notes := [];
      currentIndex := 0;
    }

    /** The engine's counters together with this mode's position. */
    function State(): WaitState
      reads this, engine
    {
      WaitState(engine.hits, engine.misses, engine.streak, engine.bestStreak, currentIndex)
    }

    /** Loads a new exercise and starts from its first note; the score carries over. */
    method SetExercise(notes: seq<Generators.Event>)
      modifies this
      ensures this.notes == notes && currentIndex == 0
    {
      this.notes := notes;
      currentIndex := 0;
    }

    /** Scores one played note against the current position. */
    method HandleNoteInput(midi: int)
      modifies this, engine
      ensures notes == old(notes)
      ensures State() == WaitStep(notes, old(State()), midi)
    {
      if currentIndex >= |notes| {
        return;
      }
      var expected := notes[currentIndex];
      if expected.Note? && midi == expected.midi {
        engine.hits := engine.hits + 1;
        engine.streak := engine.streak + 1;
        engine.bestStreak := if engine.bestStreak > engine.streak then engine.bestStreak else engine.streak;
        currentIndex := currentIndex + 1;
      } else {
        engine.misses := engine.misses + 1;
        engine.streak := 0;
      }
    }
  }

  /* ---------------------------------------------------------------------
     KeyboardInput.handleKeyDown / handleKeyUp, MIDIHandler
     --------------------------------------------------------------------- */

  /** The computer-keyboard input: notes go to the engine's wait mode. */
  class KeyboardInput {
    const mode: WaitMode
    var activeKeys: set<string>

    constructor (mode: WaitMode)
      ensures this.mode == mode && activeKeys == {}
    {
      this.mode := mode;
      activeKeys := {};
    }

    /** A key goes down. A key already held (the browser's auto-repeat) is
        ignored; a mapped key is marked held and its note played and scored;
        any other key does nothing. Returns the note played. */
    method HandleKeyDown(key: string) returns (played: Option<int>)
      modifies this, mode, mode.engine
      ensures mode.notes == old(mode.notes)
      ensures var k := Generators.ToLower(key);
        if k in old(activeKeys) || KeyboardNote(k).None? then
          && played == None && activeKeys == old(activeKeys)
          && mode.State() == old(mode.State())
        else
          && played == KeyboardNote(k) && activeKeys == old(activeKeys) + {k}
          && mode.State() == WaitStep(mode.notes, old(mode.State()), played.value)
    {
      var k := Generators.ToLower(key);
      if k in activeKeys {
        return None;
      }
      played := KeyboardNote(k);
      if played.Some? {
        activeKeys := activeKeys + {k};
        mode.HandleNoteInput(played.value);
      }
    }

    /** A key comes up: it is no longer held, and its note, if it has one,
        is stopped. Returns the note stopped. */
    method HandleKeyUp(key: string) returns (stopped: Option<int>)
      modifies this
      ensures activeKeys == old(activeKeys) - {Generators.ToLower(key)}
      ensures stopped == KeyboardNote(Generators.ToLower(key))
    {
      var k := Generators.ToLower(key);
      activeKeys := activeKeys - {k};
      stopped := KeyboardNote(k);
    }
  }

  /** The MIDI keyboard input: notes go to the engine's wait mode. */
  class MidiHandler {
    const mode: WaitMode

    constructor (mode: WaitMode)
      ensures this.mode == mode
    {
      this.mode := mode;
    }

    /** Handles one message: a Note On is scored (and played), a Note Off
        stops its note, anything else is dropped. Returns what was done. */
    method HandleMidiMessage(data: seq<bv8>) returns (action: MidiAction)
      modifies mode, mode.engine
      ensures action == DecodeMidi(data)
      ensures mode.notes == old(mode.notes)
      ensures mode.State() == if action.NoteOn? then WaitStep(mode.notes, old(mode.State()), action.note)
                              else old(mode.State())
    {
      action := DecodeMidi(data);
      if action.NoteOn? {
        mode.HandleNoteInput(action.note);
      }
    }
  }

  /* ---------------------------------------------------------------------
     VirtualPiano.generateKeys (classification and indexing)
     --------------------------------------------------------------------- */

  const TotalKeys: nat := 88

  /** The pitch classes of the black keys, counted from C. */
  const BlackPitchClasses: set<int> := {1, 3, 6, 8, 10}

  /** Black or white, by the key's pitch class. */
  predicate IsBlackKey(midi: int) {
    (midi - 12) % 12 in BlackPitchClasses
  }

  /** One generated key: its note, its colour, and the white-key counter when
      it was placed (a white key's own index; for a black key, the index of
      the white key to its right, against whose left edge it is drawn). */
  datatype Key = Key(midi: int, isBlack: bool, whiteIndex: nat)

  /** White keys of a whole octave below each pitch class: how many of C, D,
      E, F, G, A, B come before it. */
  const WhitesBeforePitchClass: seq<nat> := [0, 1, 1, 2, 2, 3, 4, 4, 5, 5, 6, 6]

  /** The number of white keys from A0 up to, not including, `midi`, counted
      by octaves: seven per octave from C0, less the five below A0. */
  function WhitesBelow(midi: int): int
    requires midi >= 12
  {
    7 * ((midi - 12) / 12) + WhitesBeforePitchClass[(midi - 12) % 12] - 5
  }

  /** Moving up one key adds one to the count exactly when that key is white. */
  lemma WhitesBelowStep(midi: int)
    requires midi >= 12
    ensures WhitesBelow(midi + 1) == WhitesBelow(midi) + (if IsBlackKey(midi) then 0 else 1)
  {
    var pc := (midi - 12) % 12;
    if pc == 11 {
      assert (midi + 1 - 12) / 12 == (midi - 12) / 12 + 1 && (midi + 1 - 12) % 12 == 0;
    } else {
      assert (midi + 1 - 12) / 12 == (midi - 12) / 12 && (midi + 1 - 12) % 12 == pc + 1;
    }
  }

  /** The keys `generateKeys` lays out, from A0 up. */
  function PianoKeys(): (keys: seq<Key>)
    ensures |keys| == TotalKeys
  {
    seq(TotalKeys, i requires 0 <= i < TotalKeys =>
      Key(LowestKey + i, IsBlackKey(LowestKey + i), WhitesBelow(LowestKey + i)))
  }

  class VirtualPiano {
    var keys: seq<Key>

    constructor ()
      ensures keys == []
    {
      keys := [];
    }

    /** Appends the 88 keys (the list is not cleared first) and returns the
        number of white keys, which sets the keyboard's width. */
    method GenerateKeys() returns (whiteKeyIndex: nat)
      modifies this
      ensures keys == old(keys) + PianoKeys()
      ensures whiteKeyIndex == 52
    {
      whiteKeyIndex := 0;
      ghost var before := keys;
      for i := 0 to TotalKeys
        invariant keys == before + PianoKeys()[..i]
        invariant whiteKeyIndex == WhitesBelow(LowestKey + i)
      {
        var midiNote := LowestKey + i;
        var isBlack := IsBlackKey(midiNote);
        assert PianoKeys()[i].midi == midiNote;
        assert PianoKeys()[i].isBlack == isBlack;
        assert PianoKeys()[i].whiteIndex == whiteKeyIndex;
        assert PianoKeys()[..i + 1] == PianoKeys()[..i] + [PianoKeys()[i]];
        keys := keys + [Key(midiNote, isBlack, whiteKeyIndex)];
        WhitesBelowStep(midiNote);
        if !isBlack {
          whiteKeyIndex := whiteKeyIndex + 1;
        }
      }
      assert PianoKeys()[..TotalKeys] == PianoKeys();
      assert WhitesBelow(LowestKey + TotalKeys) == 7 * 8 + WhitesBeforePitchClass[1] - 5;
    }
  }

  /** A key is black exactly when its name in the staff table carries a
      flat. */
  lemma BlackKeysAreFlats(midi: int)
    requires LowestKey <= midi <= HighestKey
    ensures IsBlackKey(midi) <==> |StaffPosition(midi).value.noteName| == 3
  {
    StaffEntry(midi);
    assert (midi - 12) % 12 == midi % 12;
  }

  /** White keys are numbered 0 to 51 from the bottom, each one more than the
      white key below it: a later key never has a smaller number, and a
      later white key has a larger one. */
  lemma {:induction false} WhiteKeysNumberedInOrder(i: nat, j: nat)
    requires i < j < TotalKeys
    ensures 0 <= PianoKeys()[i].whiteIndex <= PianoKeys()[j].whiteIndex
    ensures !PianoKeys()[j].isBlack ==> PianoKeys()[j].whiteIndex < 52
    ensures !PianoKeys()[i].isBlack ==> PianoKeys()[i].whiteIndex < PianoKeys()[j].whiteIndex
    decreases j - i
  {
    WhitesBelowStep(LowestKey + i);
    WhiteIndexBounds(LowestKey + i);
    WhiteIndexBounds(LowestKey + j);
    if j > i + 1 {
      WhiteKeysNumberedInOrder(i + 1, j);
    }
  }

  /** Key numbers run from 0 at A0 to 51 at C8. */
  lemma WhiteIndexBounds(midi: int)
    requires LowestKey <= midi <= HighestKey
    ensures 0 <= WhitesBelow(midi) <= 51
  {
    var octave := (midi - 12) / 12;
    var pc := (midi - 12) % 12;
    if midi < 24 {
      assert octave == 0 && pc >= 9;
    } else if midi == HighestKey {
      assert octave == 8 && pc == 0;
    } else {
      assert 1 <= octave <= 7;
    }
  }

  /* ---------------------------------------------------------------------
     StatsTracker.updateDisplay (the accuracy figure)
     --------------------------------------------------------------------- */

  /** The displayed accuracy: the percentage of hits among all notes played,
      rounded to the nearest whole number with a tie going up, and 100 before anything is
      played. Computed exactly, over the integers. */
  function Accuracy(hits: nat, misses: nat): (percent: int)
    ensures 0 <= percent <= 100
    ensures hits + misses == 0 || misses == 0 ==> percent == 100
    ensures hits == 0 && misses > 0 ==> percent == 0
  {
    var total := hits + misses;
    if total > 0 then AccuracyRounds(hits, total); (200 * hits + total) / (2 * total) else 100
  }

  /** The figure is the whole percentage nearest to the exact ratio (a tie
      going up): it is within half a point of 100 * hits / total. */
  lemma AccuracyRounds(hits: nat, total: nat)
    requires 0 < total && hits <= total
    ensures var q := (200 * hits + total) / (2 * total);
      && 0 <= q <= 100
      && 2 * q * total - total <= 200 * hits < 2 * q * total + total
      && (hits == total ==> q == 100)
      && (hits == 0 ==> q == 0)
  {
    var n := 200 * hits + total;
    var d := 2 * total;
    var q := n / d;
    DivBounds(n, d);
    assert 2 * q * total == q * d;
    if q > 100 {
      MulMonotone(101, q, d);
    }
    if hits == total {
      DivExact(100, total, d);
    }
    if hits == 0 {
      DivExact(0, total, d);
    }
  }

  lemma DivBounds(n: nat, d: nat)
    requires d > 0
    ensures n / d >= 0 && (n / d) * d <= n < (n / d) * d + d
  {
  }

  lemma MulMonotone(a: int, b: int, d: nat)
    requires a <= b
    ensures a * d <= b * d
  {
  }

  lemma DivExact(q: nat, r: nat, d: nat)
    requires r < d
    ensures (q * d + r) / d == q
  {
    var k := (q * d + r) / d;
    DivBounds(q * d + r, d);
    if k > q {
      MulMonotone(q + 1, k, d);
    } else if k < q {
      MulMonotone(k + 1, q, d);
    }
  }
}
