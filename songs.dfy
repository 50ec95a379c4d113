/*
 * The song library: a fixed, categorised list of pieces and the queries the
 * exercise picker runs over it (by id, by difficulty, by category, all of
 * them, and a random pick).
 *
 * Beats are counted in sixteenths, as everywhere in this model, so the
 * library's quarter-note beat values appear multiplied by four.
 */
module Songs {
  import opened Options
  import opened Generators

  datatype Song = Song(
    id: string,
    title: string,
    composer: string,
    difficulty: string,
    tempo: nat,
    keySignature: string,
    timeSignature: string,
    notes: seq<Event>)

  /** One named category of the library, in the order it is declared. */
  datatype Category = Category(name: string, songs: seq<Song>)

  type Library = seq<Category>

  /* ---------------------------------------------------------------------
   * Queries
   * ------------------------------------------------------------------- */

  /** Every song, category after category, each category in its own order. */
  function AllSongs(lib: Library): seq<Song>
    decreases |lib|
  {
    if lib == [] then [] else AllSongs(lib[..|lib| - 1]) + lib[|lib| - 1].songs
  }

  /** The number of songs, counted category by category from the front. */
  function SongCount(lib: Library): nat
    decreases |lib|
  {
    if lib == [] then 0 else |lib[0].songs| + SongCount(lib[1..])
  }

  /** Position of the first song carrying `id`, or `|songs|` when none does. */
  function FindIndex(songs: seq<Song>, id: string): (k: nat)
    ensures k <= |songs|
    ensures forall j :: 0 <= j < k ==> songs[j].id != id
    ensures k < |songs| ==> songs[k].id == id
    decreases |songs|
  {
    if songs == [] then 0
    else if songs[0].id == id then 0
    else 1 + FindIndex(songs[1..], id)
  }

  /** `Array.prototype.find` on the id. */
  function Find(songs: seq<Song>, id: string): (found: Option<Song>)
    ensures found.Some? ==> found.value.id == id && found.value in songs
    ensures found.Some? ==> exists k :: (0 <= k < |songs| && songs[k] == found.value
                                         && forall j :: 0 <= j < k ==> songs[j].id != id)
    ensures found.None? <==> forall s :: s in songs ==> s.id != id
  {
    var k := FindIndex(songs, id);
    if k < |songs| then Some(songs[k]) else None
  }

  /** `Array.prototype.filter` on the difficulty. */
  function WithDifficulty(songs: seq<Song>, difficulty: string): (picked: seq<Song>)
    ensures |picked| <= |songs|
    decreases |songs|
  {
    if songs == [] then []
    else
      var rest := WithDifficulty(songs[..|songs| - 1], difficulty);
      var last := songs[|songs| - 1];
      if last.difficulty == difficulty then rest + [last] else rest
  }

  /** The list stored under `name`, or the empty list for a name the library
      does not have. */
  function CategorySongs(lib: Library, name: string): (songs: seq<Song>)
    ensures (forall k :: 0 <= k < |lib| ==> lib[k].name != name) ==> songs == []
    ensures forall k :: (0 <= k < |lib| && lib[k].name == name &&
              (forall j :: 0 <= j < k ==> lib[j].name != name)) ==> songs == lib[k].songs
    decreases |lib|
  {
    if lib == [] then []
    else if lib[0].name == name then lib[0].songs
    else
      var songs := CategorySongs(lib[1..], name);
      assert forall k :: 1 <= k < |lib| ==> lib[k] == lib[1..][k - 1];
      songs
  }

  /** First song with that id, searching the categories in order. */
  method GetSongById(lib: Library, id: string) returns (song: Option<Song>)
    ensures song == Find(AllSongs(lib), id)
  {
    for i := 0 to |lib|
      invariant Find(AllSongs(lib[..i]), id) == None
    {
      assert lib[..i + 1][..i] == lib[..i];
      FindAppend(AllSongs(lib[..i]), lib[i].songs, id);
      var found := Find(lib[i].songs, id);
      if found.Some? {
        AllSongsSplit(lib, i + 1);
        FindAppend(AllSongs(lib[..i + 1]), AllSongs(lib[i + 1..]), id);
        return found;
      }
    }
    assert lib[..|lib|] == lib;
    return None;
  }

  /** The songs of one difficulty, in library order. */
  method GetSongsByDifficulty(lib: Library, difficulty: string) returns (songs: seq<Song>)
    ensures songs == WithDifficulty(AllSongs(lib), difficulty)
  {
    songs := [];
    for i := 0 to |lib|
      invariant songs == WithDifficulty(AllSongs(lib[..i]), difficulty)
    {
      assert lib[..i + 1][..i] == lib[..i];
      WithDifficultyAppend(AllSongs(lib[..i]), lib[i].songs, difficulty);
      songs := songs + WithDifficulty(lib[i].songs, difficulty);
    }
    assert lib[..|lib|] == lib;
  }

  /** Every song, in library order. */
  method GetAllSongs(lib: Library) returns (all: seq<Song>)
    ensures all == AllSongs(lib)
  {
    all := [];
    for i := 0 to |lib|
      invariant all == AllSongs(lib[..i])
    {
      assert lib[..i + 1][..i] == lib[..i];
      all := all + lib[i].songs;
    }
    assert lib[..|lib|] == lib;
  }

  /** The candidates of a random pick: one difficulty when a non-empty one is
      asked for, otherwise the whole library. */
  function Candidates(lib: Library, difficulty: Option<string>): seq<Song> {
    if difficulty.Some? && difficulty.value != "" then
      WithDifficulty(AllSongs(lib), difficulty.value)
    else
      AllSongs(lib)
  }

  /** A random song for the draw `r`; nothing when there is no candidate. */
  method GetRandomSong(lib: Library, difficulty: Option<string>, r: real)
    returns (song: Option<Song>)
    requires IsDraw(r)
    ensures song.Some? <==> |Candidates(lib, difficulty)| > 0
    ensures song.Some? ==>
      song.value == Candidates(lib, difficulty)[RandomIndex(|Candidates(lib, difficulty)|, r)]
    ensures song.Some? ==> song.value in AllSongs(lib)
    ensures song.Some? && difficulty.Some? && difficulty.value != "" ==>
      song.value.difficulty == difficulty.value
  {
    var songs;
    if difficulty.Some? && difficulty.value != "" {
      songs := GetSongsByDifficulty(lib, difficulty.value);
    } else {
      songs := GetAllSongs(lib);
    }
    WithDifficultyKeepsExactly(AllSongs(lib), if difficulty.Some? then difficulty.value else "");
    var index := RandomIndex(|songs|, r);
    if 0 <= index < |songs| {
      song := Some(songs[index]);
    } else {
      song := None;
    }
  }

  /* ---------------------------------------------------------------------
   * Properties of the queries
   * ------------------------------------------------------------------- */

  /** Gathering the categories in two runs gives the same songs. */
  lemma {:induction false} AllSongsSplit(lib: Library, n: nat)
    requires n <= |lib|
    ensures AllSongs(lib) == AllSongs(lib[..n]) + AllSongs(lib[n..])
    decreases |lib|
  {
    if n == |lib| {
      assert lib[..n] == lib;
      assert lib[n..] == [];
    } else {
      var init := lib[..|lib| - 1];
      AllSongsSplit(init, n);
      assert init[..n] == lib[..n];
      assert lib[n..][..|lib[n..]| - 1] == init[n..];
      assert lib[n..][|lib[n..]| - 1] == lib[|lib| - 1];
    }
  }

  /** Searching two lists back to back finds in the first one if it can. */
  lemma FindAppend(a: seq<Song>, b: seq<Song>, id: string)
    ensures Find(a + b, id) == if Find(a, id).Some? then Find(a, id) else Find(b, id)
  {
    var ka := FindIndex(a, id);
    var kab := FindIndex(a + b, id);
    if ka < |a| {
      assert (a + b)[ka] == a[ka];
      assert kab == ka;
    } else {
      var kb := FindIndex(b, id);
      forall j | 0 <= j < |a| + kb
        ensures (a + b)[j].id != id
      {
        if j < |a| { assert (a + b)[j] == a[j]; } else { assert (a + b)[j] == b[j - |a|]; }
      }
      if kb < |b| {
        assert (a + b)[|a| + kb] == b[kb];
      }
      assert kab == |a| + kb;
    }
  }

  /** The filter keeps exactly the songs of that difficulty. */
  lemma {:induction false} WithDifficultyKeepsExactly(songs: seq<Song>, difficulty: string)
    ensures forall s :: s in WithDifficulty(songs, difficulty) ==>
      s in songs && s.difficulty == difficulty
    ensures forall s :: s in songs && s.difficulty == difficulty ==>
      s in WithDifficulty(songs, difficulty)
    decreases |songs|
  {
    if songs != [] {
      var init := songs[..|songs| - 1];
      WithDifficultyKeepsExactly(init, difficulty);
      assert songs == init + [songs[|songs| - 1]];
    }
  }

  /** Filtering distributes over concatenation, so the filter keeps order. */
  lemma {:induction false} WithDifficultyAppend(a: seq<Song>, b: seq<Song>, difficulty: string)
    ensures WithDifficulty(a + b, difficulty) ==
            WithDifficulty(a, difficulty) + WithDifficulty(b, difficulty)
    decreases |b|
  {
    if b == [] {
      assert a + b == a;
    } else {
      var init := b[..|b| - 1];
      var last := b[|b| - 1];
      WithDifficultyAppend(a, init, difficulty);
      assert (a + b)[..|a + b| - 1] == a + init;
      assert (a + b)[|a + b| - 1] == last;
      var keep := if last.difficulty == difficulty then [last] else [];
      assert WithDifficulty(a + b, difficulty) == WithDifficulty(a + init, difficulty) + keep;
      assert WithDifficulty(b, difficulty) == WithDifficulty(init, difficulty) + keep;
    }
  }

  /** A song is in the whole library exactly when some category holds it. */
  lemma {:induction false} AllSongsMembership(lib: Library, s: Song)
    ensures s in AllSongs(lib) <==> exists k :: 0 <= k < |lib| && s in lib[k].songs
    decreases |lib|
  {
    if lib != [] {
      var init := lib[..|lib| - 1];
      AllSongsMembership(init, s);
      assert forall k :: 0 <= k < |init| ==> init[k] == lib[k];
      if s in lib[|lib| - 1].songs {
        assert s in AllSongs(lib);
      }
    }
  }

  /** The whole list is as long as all categories together. */
  lemma {:induction false} AllSongsCount(lib: Library)
    ensures |AllSongs(lib)| == SongCount(lib)
    decreases |lib|
  {
    if lib != [] {
      AllSongsSplit(lib, 1);
      AllSongsCount(lib[1..]);
      assert lib[..1][..0] == [];
      assert AllSongs(lib[..1]) == lib[0].songs;
    }
  }

  /** With distinct ids, looking a song up by its id returns that song. */
  lemma FindEachSong(songs: seq<Song>, k: nat)
    requires DistinctIds(songs)
    requires k < |songs|
    ensures Find(songs, songs[k].id) == Some(songs[k])
  {
    var i := FindIndex(songs, songs[k].id);
    assert i == k;
  }

  /** With distinct category names, a category's name brings back its list. */
  lemma CategoryByName(lib: Library, k: nat)
    requires DistinctNames(lib)
    requires k < |lib|
    ensures CategorySongs(lib, lib[k].name) == lib[k].songs
  {
  }

  predicate DistinctIds(songs: seq<Song>) {
    forall i, j :: 0 <= i < j < |songs| ==> songs[i].id != songs[j].id
  }

  predicate DistinctNames(lib: Library) {
    forall i, j :: 0 <= i < j < |lib| ==> lib[i].name != lib[j].name
  }

  /* ---------------------------------------------------------------------
   * The library
   * ------------------------------------------------------------------- */

  function Q(midi: int): Event { Note(midi, "quarter", 4) }
  function W(midi: int): Event { Note(midi, "whole", 16) }
  function E(midi: int): Event { Note(midi, "eighth", 2) }
  function WholeChord(notes: seq<int>): Event { Chord(notes, "whole", 16) }

  const Hanon1: Song := Song("hanon-1", "Hanon Exercise No. 1", "Charles-Louis Hanon",
    "beginner", 60, "C", "4/4", [Q(60), Q(62), Q(64), Q(65), Q(64), Q(62), Q(60), Q(62)])

  const Czerny1: Song := Song("czerny-100-1", "Czerny 100 - Exercise 1", "Carl Czerny",
    "beginner", 80, "C", "4/4", [Q(60), Q(64), Q(67), Q(72)])

  const OdeToJoy: Song := Song("ode-to-joy", "Ode to Joy (simplified)", "Ludwig van Beethoven",
    "beginner", 100, "C", "4/4",
    [Q(64), Q(64), Q(65), Q(67), Q(67), Q(65), Q(64), Q(62), Q(60), Q(60), Q(62), Q(64),
     Note(64, "dotted_quarter", 6), Note(62, "eighth", 2), Note(62, "half", 8)])

  const FurElise: Song := Song("fur-elise-intro", "Für Elise (intro)", "Ludwig van Beethoven",
    "intermediate", 120, "Am", "3/8",
    [E(64), E(63), E(64), E(63), E(64), E(59), E(62), E(60), E(57)])

  const PreludeInC: Song := Song("prelude-c-major", "Prelude in C Major (simplified)",
    "Johann Sebastian Bach", "intermediate", 80, "C", "4/4",
    [WholeChord([60, 64, 67]), WholeChord([62, 65, 69]), WholeChord([59, 62, 65]),
     WholeChord([60, 64, 67])])

  const AutumnLeaves: Song := Song("autumn-leaves-head", "Autumn Leaves (head)", "Joseph Kosma",
    "intermediate", 120, "Gm", "4/4", [Q(67), Q(70), Q(72), Q(75)])

  const LetItBe: Song := Song("let-it-be-chorus", "Let It Be (chorus)", "The Beatles",
    "beginner", 72, "C", "4/4",
    [WholeChord([60, 64, 67]), WholeChord([65, 69, 72]), WholeChord([57, 60, 64]),
     WholeChord([60, 64, 67])])

  const Imagine: Song := Song("imagine-intro", "Imagine (intro)", "John Lennon",
    "beginner", 76, "C", "4/4", [W(60), W(65), W(57), W(60)])

  const CMajorScale: Song := Song("c-major-scale", "C Major Scale", "Exercise",
    "beginner", 60, "C", "4/4", [Q(60), Q(62), Q(64), Q(65), Q(67), Q(69), Q(71), Q(72)])

  const CMajorArpeggio: Song := Song("c-major-arpeggio", "C Major Arpeggio", "Exercise",
    "beginner", 60, "C", "4/4",
    [Q(60), Q(64), Q(67), Q(72), Q(67), Q(64), Q(60), Rest("quarter", 4)])

  const SongLibrary: Library := [
    Category("exercises", [Hanon1, Czerny1]),
    Category("classical", [OdeToJoy, FurElise, PreludeInC]),
    Category("jazz", [AutumnLeaves]),
    Category("pop", [LetItBe, Imagine]),
    Category("scales", [CMajorScale, CMajorArpeggio])
  ]

  /** The library's songs in the order the queries visit them. */
  lemma LibraryOrder()
    ensures AllSongs(SongLibrary) == [Hanon1, Czerny1, OdeToJoy, FurElise, PreludeInC,
      AutumnLeaves, LetItBe, Imagine, CMajorScale, CMajorArpeggio]
  {
    var lib := SongLibrary;
    assert lib[..0] == [];
    assert lib[..1][..0] == lib[..0];
    assert lib[..2][..1] == lib[..1];
    assert lib[..3][..2] == lib[..2];
    assert lib[..4][..3] == lib[..3];
    assert lib[..5][..4] == lib[..4];
    assert lib[..5] == lib;
    assert AllSongs(lib[..1]) == [Hanon1, Czerny1];
    assert AllSongs(lib[..2]) == [Hanon1, Czerny1, OdeToJoy, FurElise, PreludeInC];
    assert AllSongs(lib[..3]) == [Hanon1, Czerny1, OdeToJoy, FurElise, PreludeInC,
      AutumnLeaves];
    assert AllSongs(lib[..4]) == [Hanon1, Czerny1, OdeToJoy, FurElise, PreludeInC,
      AutumnLeaves, LetItBe, Imagine];
  }

  /** Every id names one song only, so a lookup by id finds that song. */
  lemma LibraryIdsDistinct()
    ensures DistinctIds(AllSongs(SongLibrary))
    ensures DistinctNames(SongLibrary)
  {
    LibraryOrder();
  }

  /** Each event's beat count is the one its duration name stands for. */
  predicate WellTimed(song: Song) {
    forall k :: 0 <= k < |song.notes| ==>
      song.notes[k].beats == DurationToBeats(song.notes[k].duration)
  }

  lemma LibraryWellTimed()
    ensures forall s :: s in AllSongs(SongLibrary) ==> WellTimed(s)
  {
    LibraryOrder();
    DurationsUsed();
    FirstSongsWellTimed();
    LastSongsWellTimed();
  }

  /** The beat counts of the duration names the library uses. */
  lemma DurationsUsed()
    ensures DurationToBeats("whole") == 16 && DurationToBeats("half") == 8
    ensures DurationToBeats("dotted_quarter") == 6 && DurationToBeats("quarter") == 4
    ensures DurationToBeats("eighth") == 2
  {
  }

  lemma FirstSongsWellTimed()
    ensures WellTimed(Hanon1) && WellTimed(Czerny1) && WellTimed(OdeToJoy)
    ensures WellTimed(FurElise) && WellTimed(PreludeInC)
  {
    DurationsUsed();
    assert WellTimed(Hanon1);
    assert WellTimed(Czerny1);
    assert WellTimed(OdeToJoy);
    assert WellTimed(FurElise);
  }

  lemma LastSongsWellTimed()
    ensures WellTimed(AutumnLeaves) && WellTimed(LetItBe) && WellTimed(Imagine)
    ensures WellTimed(CMajorScale) && WellTimed(CMajorArpeggio)
  {
    DurationsUsed();
    assert WellTimed(AutumnLeaves);
    assert WellTimed(LetItBe);
    assert WellTimed(Imagine);
    assert WellTimed(CMajorScale);
  }

  /** A song in common time whose notes never cross a barline and that ends
      on one. */
  predicate FillsWholeBars(song: Song) {
    Scan(song.notes).Some? && Scan(song.notes).value.fill == 0
  }

  lemma CommonTimeSongsFillWholeBars()
    ensures forall s :: s in AllSongs(SongLibrary) && s.timeSignature == "4/4" ==>
      FillsWholeBars(s)
  {
    LibraryOrder();
    QuarterSongsFillWholeBars();
    WholeNoteSongsFillWholeBars();
    OdeToJoyBars();
  }

  lemma QuarterSongsFillWholeBars()
    ensures FillsWholeBars(Hanon1) && FillsWholeBars(Czerny1) && FillsWholeBars(AutumnLeaves)
    ensures FillsWholeBars(CMajorScale) && FillsWholeBars(CMajorArpeggio)
  {
    AllQuarters(Hanon1.notes);
    AllQuarters(Czerny1.notes);
    AllQuarters(AutumnLeaves.notes);
    AllQuarters(CMajorScale.notes);
    AllQuarters(CMajorArpeggio.notes);
  }

  lemma WholeNoteSongsFillWholeBars()
    ensures FillsWholeBars(PreludeInC) && FillsWholeBars(LetItBe) && FillsWholeBars(Imagine)
  {
    WholeMeasures(PreludeInC.notes);
    WholeMeasures(LetItBe.notes);
    WholeMeasures(Imagine.notes);
  }

  /** Twelve quarters, then a dotted quarter, an eighth and a half: four bars. */
  lemma OdeToJoyBars()
    ensures Scan(OdeToJoy.notes) == Some(Meter(4, 0))
  {
    var n := OdeToJoy.notes;
    AllQuarters(n[..12]);
    ScanSnoc(n[..12], n[12]);
    assert n[..13] == n[..12] + [n[12]];
    ScanSnoc(n[..13], n[13]);
    assert n[..14] == n[..13] + [n[13]];
    ScanSnoc(n[..14], n[14]);
    assert n == n[..14] + [n[14]];
  }

  /** Events of one length last their count times that length. */
  lemma {:induction false} UniformTotal(events: seq<Event>, b: nat)
    requires forall k :: 0 <= k < |events| ==> events[k].beats == b
    ensures TotalBeats(events) == |events| * b
    decreases |events|
  {
    if events != [] {
      UniformTotal(events[..|events| - 1], b);
    }
  }

  /** The 3/8 piece is nine eighths: three bars of three eighths each. */
  lemma FurEliseFillsThreeBars()
    ensures TotalBeats(FurElise.notes) == 3 * (3 * DurationToBeats("eighth"))
  {
    UniformTotal(FurElise.notes, 2);
  }
}
