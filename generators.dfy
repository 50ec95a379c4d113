/** The exercise generators of the sight-reading trainer: interval tables for
    scales and chords, the duration table, the random measure-filling
    generator, the scale generator and the roman-numeral chord generator.

    Beats are counted in sixteenth notes (a quarter note is 4), so every
    duration of the table is a whole number. `Math.random()` is replaced by a
    sequence of draws, each a real number in [0, 1). */
module Generators {
  import opened Options

  /** One event of an exercise. `beats` counts sixteenth notes. */
  datatype Event =
    | Note(midi: int, duration: string, beats: nat)
    | Chord(notes: seq<int>, duration: string, beats: nat)
    | Rest(duration: string, beats: nat)

  /** A quarter note, in sixteenths. */
  const Quarter: nat := 4
  /** A 4/4 measure, in sixteenths. */
  const MeasureLength: nat := 16

  /* ---------------------------------------------------------------------
     Interval tables (BaseGenerator.getScaleNotes / getChordNotes)
     --------------------------------------------------------------------- */

  const ScaleTable: map<string, seq<int>> := map[
    "major" := [0, 2, 4, 5, 7, 9, 11],
    "minor" := [0, 2, 3, 5, 7, 8, 10],
    "harmonic_minor" := [0, 2, 3, 5, 7, 8, 11],
    "melodic_minor" := [0, 2, 3, 5, 7, 9, 11]
  ]

  const ChordTable: map<string, seq<int>> := map[
    "major" := [0, 4, 7],
    "minor" := [0, 3, 7],
    "dim" := [0, 3, 6],
    "aug" := [0, 4, 8],
    "maj7" := [0, 4, 7, 11],
    "min7" := [0, 3, 7, 10],
    "dom7" := [0, 4, 7, 10]
  ]

  /** The chord types whose table entry holds a seventh. */
  const SeventhTypes: set<string> := {"maj7", "min7", "dom7"}

  /** A sequence whose elements strictly increase. */
  predicate Ascending(s: seq<int>) {
    forall i :: 0 < i < |s| ==> s[i - 1] < s[i]
  }

  /** Every element lies in the octave that starts at `root`. */
  predicate WithinOctave(s: seq<int>, root: int) {
    forall i :: 0 <= i < |s| ==> root <= s[i] < root + 12
  }

  /** `root` transposed by each interval, in order (JavaScript's `map`). */
  function Transpose(root: int, intervals: seq<int>): (r: seq<int>)
    ensures |r| == |intervals|
    ensures forall i :: 0 <= i < |r| ==> r[i] == root + intervals[i]
  {
    seq(|intervals|, i requires 0 <= i < |intervals| => root + intervals[i])
  }

  /** An interval pattern: starts on the root, rises, stays inside one octave. */
  predicate OctavePattern(intervals: seq<int>) {
    |intervals| > 0 && intervals[0] == 0 && Ascending(intervals) && WithinOctave(intervals, 0)
  }

  lemma TransposeKeepsShape(root: int, intervals: seq<int>)
    requires OctavePattern(intervals)
    ensures Ascending(Transpose(root, intervals)) && WithinOctave(Transpose(root, intervals), root)
  {
  }

  lemma ScaleTableShape(scaleType: string)
    ensures |ScaleIntervals(scaleType)| == 7 && OctavePattern(ScaleIntervals(scaleType))
  {
    var s := ScaleIntervals(scaleType);
    assert s == [0, 2, 4, 5, 7, 9, 11] || s == [0, 2, 3, 5, 7, 8, 10]
      || s == [0, 2, 3, 5, 7, 8, 11] || s == [0, 2, 3, 5, 7, 9, 11];
  }

  lemma ChordTableShape(chordType: string)
    ensures |ChordIntervals(chordType)| == if chordType in SeventhTypes then 4 else 3
    ensures OctavePattern(ChordIntervals(chordType))
  {
    var s := ChordIntervals(chordType);
    if chordType in SeventhTypes {
      assert s == [0, 4, 7, 11] || s == [0, 3, 7, 10] || s == [0, 4, 7, 10];
    } else {
      assert s == [0, 4, 7] || s == [0, 3, 7] || s == [0, 3, 6] || s == [0, 4, 8];
    }
  }

  /** The interval pattern used for `scaleType`; an unknown name falls back to major. */
  function ScaleIntervals(scaleType: string): seq<int> {
    if scaleType in ScaleTable then ScaleTable[scaleType] else ScaleTable["major"]
  }

  /** The seven pitches of the scale starting at `root`. */
  function ScaleNotes(root: int, scaleType: string): (r: seq<int>)
    ensures |r| == 7 && r[0] == root
    ensures Ascending(r) && WithinOctave(r, root)
    ensures forall i :: 0 <= i < 7 ==> r[i] == root + ScaleIntervals(scaleType)[i]
  {
    var intervals := ScaleIntervals(scaleType);
    ScaleTableShape(scaleType);
    TransposeKeepsShape(root, intervals);
    Transpose(root, intervals)
  }

  /** The interval pattern used for `chordType`; an unknown name falls back to major. */
  function ChordIntervals(chordType: string): seq<int> {
    if chordType in ChordTable then ChordTable[chordType] else ChordTable["major"]
  }

  /** The pitches of the chord built on `root`, lowest first. */
  function ChordNotes(root: int, chordType: string): (r: seq<int>)
    ensures |r| == if chordType in SeventhTypes then 4 else 3
    ensures r[0] == root
    ensures Ascending(r) && WithinOctave(r, root)
    ensures forall i :: 0 <= i < |r| ==> r[i] == root + ChordIntervals(chordType)[i]
  {
    var intervals := ChordIntervals(chordType);
    ChordTableShape(chordType);
    TransposeKeepsShape(root, intervals);
    Transpose(root, intervals)
  }

  /** An unknown scale or chord type is read as major; it is never an error. */
  lemma UnknownTypeIsMajor(root: int, name: string)
    ensures name !in ScaleTable ==> ScaleNotes(root, name) == ScaleNotes(root, "major")
    ensures name !in ChordTable ==> ChordNotes(root, name) == ChordNotes(root, "major")
  {
  }

  /* ---------------------------------------------------------------------
     Random draws (BaseGenerator.randomNote, RandomGenerator.getRandomDuration)
     --------------------------------------------------------------------- */

  /** A value `Math.random()` can return. */
  predicate IsDraw(r: real) {
    0.0 <= r < 1.0
  }

  predicate AllDraws(rand: seq<real>) {
    forall i :: 0 <= i < |rand| ==> IsDraw(rand[i])
  }

  /** `Math.floor(r * n)`: the index a draw selects among `n` options. */
  function RandomIndex(n: nat, r: real): (k: int)
    requires IsDraw(r)
    ensures n > 0 ==> 0 <= k < n
  {
    FloorBelow(n, r);
    (r * (n as real)).Floor
  }

  lemma FloorBelow(n: nat, r: real)
    requires IsDraw(r)
    ensures 0 <= (r * (n as real)).Floor
    ensures n > 0 ==> (r * (n as real)).Floor < n
  {
    var x := r * (n as real);
    assert 0.0 <= x;
    if n > 0 {
      assert x < n as real by {
        assert (1.0 - r) * (n as real) > 0.0;
      }
    }
  }

  /** `randomNote(min, max)`: a pitch between `min` and `max` inclusive. */
  function RandomNote(min: int, max: int, r: real): (midi: int)
    requires IsDraw(r)
    ensures min <= max ==> min <= midi <= max
  {
    if min <= max then RandomIndex(max - min + 1, r) + min
    else (r * ((max - min + 1) as real)).Floor + min
  }

  /* ---------------------------------------------------------------------
     Durations (RandomGenerator.durationToBeats)
     --------------------------------------------------------------------- */

  /** Beats per duration name, in sixteenths (whole = 4 beats = 16). */
  const DurationTable: map<string, nat> := map[
    "whole" := 16,
    "half" := 8,
    "dotted_half" := 12,
    "quarter" := 4,
    "dotted_quarter" := 6,
    "eighth" := 2,
    "dotted_eighth" := 3,
    "sixteenth" := 1
  ]

  /** The length of a duration name; an unknown name counts as one beat. */
  function DurationToBeats(duration: string): (b: nat)
    ensures 0 < b <= MeasureLength
    ensures duration !in DurationTable ==> b == Quarter
  {
    if duration in DurationTable then DurationTable[duration] else Quarter
  }

  /** Each plain value is half the one above it, and each dotted value is
      one and a half times its plain value. */
  lemma DurationTableIsMetric()
    ensures DurationToBeats("whole") == 2 * DurationToBeats("half")
    ensures DurationToBeats("half") == 2 * DurationToBeats("quarter")
    ensures DurationToBeats("quarter") == 2 * DurationToBeats("eighth")
    ensures DurationToBeats("eighth") == 2 * DurationToBeats("sixteenth")
    ensures 2 * DurationToBeats("dotted_half") == 3 * DurationToBeats("half")
    ensures 2 * DurationToBeats("dotted_quarter") == 3 * DurationToBeats("quarter")
    ensures 2 * DurationToBeats("dotted_eighth") == 3 * DurationToBeats("eighth")
  {
  }

  /* ---------------------------------------------------------------------
     Difficulty presets (RandomGenerator.getDifficultyConfig)
     --------------------------------------------------------------------- */

  datatype DifficultyConfig = DifficultyConfig(
    minNote: int, maxNote: int, durations: seq<string>, includeAccidentals: bool)

  const Configs: map<string, DifficultyConfig> := map[
    "beginner" := DifficultyConfig(60, 72, ["whole", "half", "quarter"], false),
    "intermediate" := DifficultyConfig(55, 79, ["half", "quarter", "eighth"], true),
    "advanced" := DifficultyConfig(48, 84, ["quarter", "eighth", "sixteenth"], true),
    "expert" := DifficultyConfig(36, 96, ["eighth", "sixteenth", "dotted_quarter"], true)
  ]

  /** The shortest duration of each preset: it divides every other duration
      of the preset and the measure. */
  function Grain(difficulty: string): nat {
    if difficulty == "intermediate" then 2
    else if difficulty == "advanced" || difficulty == "expert" then 1
    else 4
  }

  /** The preset for `difficulty`; an unknown name falls back to beginner. */
  function GetDifficultyConfig(difficulty: string): (c: DifficultyConfig)
    ensures c.minNote <= c.maxNote && |c.durations| == 3
    ensures forall i :: 0 <= i < |c.durations| ==> c.durations[i] in DurationTable
    ensures difficulty !in Configs ==> c == Configs["beginner"]
  {
    if difficulty in Configs then Configs[difficulty] else Configs["beginner"]
  }

  /** A fill the measure loop can reach: a multiple of the preset's grain. */
  ghost predicate OnGrain(difficulty: string, fill: nat) {
    fill % Grain(difficulty) == 0
  }

  /** Some duration of preset `c` fits in what is left after `fill`. */
  ghost predicate SomeDurationFits(c: DifficultyConfig, fill: nat)
    requires |c.durations| == 3
  {
    exists i :: 0 <= i < 3 && fill + DurationToBeats(c.durations[i]) <= MeasureLength
  }

  /** Whatever has been filled so far, some duration of the preset still fits
      the measure: a fill made of the preset's durations is a multiple of the
      grain, and the grain-sized duration always fits what is left. So the
      source's fill loop only fails to end if the draws avoid that duration
      for ever. */
  lemma PresetAlwaysFits(difficulty: string, fill: nat)
    requires fill < MeasureLength && OnGrain(difficulty, fill)
    ensures SomeDurationFits(GetDifficultyConfig(difficulty), fill)
  {
    var c := GetDifficultyConfig(difficulty);
    var i := if difficulty == "expert" then 1 else 2;
    assert fill + DurationToBeats(c.durations[i]) <= MeasureLength;
  }

  lemma PresetDurationsAreGrainMultiples(difficulty: string, i: nat)
    requires i < 3
    ensures DurationToBeats(GetDifficultyConfig(difficulty).durations[i]) % Grain(difficulty) == 0
    ensures MeasureLength % Grain(difficulty) == 0
  {
  }

  /** Adding any preset duration to a reachable fill gives a reachable fill. */
  lemma GrainStep(difficulty: string, fill: nat, i: nat)
    requires OnGrain(difficulty, fill) && i < 3
    ensures OnGrain(difficulty, fill + DurationToBeats(GetDifficultyConfig(difficulty).durations[i]))
  {
    PresetDurationsAreGrainMultiples(difficulty, i);
  }

  /* ---------------------------------------------------------------------
     Measure bookkeeping
     --------------------------------------------------------------------- */

  /** How far into the exercise we are: complete measures and the sixteenths
      filled in the current one. */
  datatype Meter = Meter(bars: nat, fill: nat)

  /** Places one more event of `b` sixteenths after position `m`. */
  function Advance(m: Meter, b: nat): (next: Option<Meter>)
    requires m.fill < MeasureLength
    ensures next.Some? ==> next.value.fill < MeasureLength
  {
    if b == 0 || m.fill + b > MeasureLength then None
    else if m.fill + b == MeasureLength then Some(Meter(m.bars + 1, 0))
    else Some(Meter(m.bars, m.fill + b))
  }

  /** Reads the events left to right. `None` when an event has no length or
      runs past the end of the measure it starts in; otherwise the measures
      completed and the sixteenths already in the open measure. */
  function Scan(events: seq<Event>): (m: Option<Meter>)
    ensures m.Some? ==> m.value.fill < MeasureLength
    decreases |events|
  {
    if events == [] then Some(Meter(0, 0))
    else
      match Scan(events[..|events| - 1])
      case None => None
      case Some(p) => Advance(p, events[|events| - 1].beats)
  }

  /** Sum of the lengths of all events, in sixteenths. */
  function TotalBeats(events: seq<Event>): nat
    decreases |events|
  {
    if events == [] then 0 else TotalBeats(events[..|events| - 1]) + events[|events| - 1].beats
  }

  /** Event `k` starts and ends in the same measure. */
  ghost predicate InsideOneBar(events: seq<Event>, k: nat)
    requires k < |events|
  {
    var start := TotalBeats(events[..k]);
    0 < events[k].beats && start / MeasureLength == (start + events[k].beats - 1) / MeasureLength
  }

  /** The exercise is `bars` full measures plus `fill` sixteenths, and no
      event crosses a barline. */
  ghost predicate Barred(events: seq<Event>, bars: nat, fill: nat) {
    && fill < MeasureLength
    && TotalBeats(events) == bars * MeasureLength + fill
    && AllInsideBars(events)
  }

  ghost predicate AllInsideBars(events: seq<Event>) {
    forall k :: 0 <= k < |events| ==> InsideOneBar(events, k)
  }

  /** `Scan` agrees with the definition by onsets: it returns `Meter(n, f)`
      exactly when the events fill `n` measures and `f` sixteenths and none
      crosses a barline. */
  lemma {:induction false} ScanMeansBarred(events: seq<Event>, bars: nat, fill: nat)
    ensures Scan(events) == Some(Meter(bars, fill)) <==> Barred(events, bars, fill)
    decreases |events|
  {
    if events == [] {
      return;
    }
    var p := events[..|events| - 1];
    match Scan(p)
    case None =>
      var total := TotalBeats(p);
      ScanMeansBarred(p, total / MeasureLength, total % MeasureLength);
      BrokenPrefixStaysBroken(events, bars, fill);
    case Some(m) =>
      ScanMeansBarred(p, m.bars, m.fill);
      BarredStep(events, m, bars, fill);
  }

  lemma BrokenPrefixStaysBroken(events: seq<Event>, bars: nat, fill: nat)
    requires events != []
    requires var p := events[..|events| - 1];
      !Barred(p, TotalBeats(p) / MeasureLength, TotalBeats(p) % MeasureLength)
    ensures !Barred(events, bars, fill)
  {
    EarlierEventsUnchanged(events);
  }

  lemma BarredStep(events: seq<Event>, m: Meter, bars: nat, fill: nat)
    requires events != [] && Scan(events[..|events| - 1]) == Some(m)
    requires Barred(events[..|events| - 1], m.bars, m.fill)
    ensures Scan(events) == Some(Meter(bars, fill)) <==> Barred(events, bars, fill)
  {
    EarlierEventsUnchanged(events);
    LastEventInsideBar(events, m.bars, m.fill);
    var b := events[|events| - 1].beats;
    assert Scan(events) == Advance(m, b);
    if 0 < b && m.fill + b <= MeasureLength {
      var next := Advance(m, b).value;
      assert TotalBeats(events) == next.bars * MeasureLength + next.fill;
      assert Barred(events, next.bars, next.fill);
      if Barred(events, bars, fill) {
        MeterUnique(bars, fill, next.bars, next.fill);
      }
    } else {
      assert !AllInsideBars(events);
    }
  }

  /** A length has one reading as full measures plus a partial one. */
  lemma MeterUnique(bars: nat, fill: nat, bars': nat, fill': nat)
    requires fill < MeasureLength && fill' < MeasureLength
    requires bars * MeasureLength + fill == bars' * MeasureLength + fill'
    ensures bars == bars' && fill == fill'
  {
    assert (bars * MeasureLength + fill) / MeasureLength == bars;
    assert (bars' * MeasureLength + fill') / MeasureLength == bars';
  }

  /** Appending an event leaves the placement of the earlier events alone. */
  lemma EarlierEventsUnchanged(events: seq<Event>)
    requires events != []
    ensures var n := |events| - 1;
      TotalBeats(events) == TotalBeats(events[..n]) + events[n].beats
      && (AllInsideBars(events) <==> AllInsideBars(events[..n]) && InsideOneBar(events, n))
  {
    var n := |events| - 1;
    if AllInsideBars(events[..n]) && InsideOneBar(events, n) {
      InsideBarsExtend(events);
    }
    if AllInsideBars(events) {
      InsideBarsShrink(events);
    }
  }

  lemma InsideBarsExtend(events: seq<Event>)
    requires events != []
    requires AllInsideBars(events[..|events| - 1]) && InsideOneBar(events, |events| - 1)
    ensures AllInsideBars(events)
  {
    var n := |events| - 1;
    forall k | 0 <= k < |events|
      ensures InsideOneBar(events, k)
    {
      if k < n {
        PrefixInsideOneBar(events, n, k);
      }
    }
  }

  lemma InsideBarsShrink(events: seq<Event>)
    requires events != [] && AllInsideBars(events)
    ensures AllInsideBars(events[..|events| - 1])
  {
    var n := |events| - 1;
    forall k | 0 <= k < n
      ensures InsideOneBar(events[..n], k)
    {
      PrefixInsideOneBar(events, n, k);
    }
  }

  lemma PrefixInsideOneBar(events: seq<Event>, n: nat, k: nat)
    requires k < n <= |events|
    ensures InsideOneBar(events, k) == InsideOneBar(events[..n], k)
  {
    assert events[..k] == events[..n][..k];
    assert events[k] == events[..n][k];
  }

  /** The last event stays inside its measure exactly when it has a length
      and fits what is left of the measure. */
  lemma LastEventInsideBar(events: seq<Event>, bars: nat, fill: nat)
    requires events != [] && fill < MeasureLength
    requires TotalBeats(events[..|events| - 1]) == bars * MeasureLength + fill
    ensures var b := events[|events| - 1].beats;
      InsideOneBar(events, |events| - 1) <==> 0 < b && fill + b <= MeasureLength
  {
    var b := events[|events| - 1].beats;
    var start := bars * MeasureLength + fill;
    assert start / MeasureLength == bars;
    if 0 < b {
      assert (start + b - 1) / MeasureLength == bars + (fill + b - 1) / MeasureLength;
    }
  }

  lemma {:induction false} ScanAfterFullBars(a: seq<Event>, b: seq<Event>, bars: nat)
    requires Scan(a) == Some(Meter(bars, 0))
    ensures Scan(a + b) == match Scan(b)
                           case None => None
                           case Some(m) => Some(Meter(bars + m.bars, m.fill))
    decreases |b|
  {
    if b == [] {
      assert a + b == a;
    } else {
      var n := |b| - 1;
      assert (a + b)[..|a + b| - 1] == a + b[..n];
      ScanAfterFullBars(a, b[..n], bars);
    }
  }

  lemma ScanSnoc(s: seq<Event>, e: Event)
    ensures Scan(s + [e]) == match Scan(s)
      case None => None
      case Some(p) => Advance(p, e.beats)
  {
    assert (s + [e])[..|s + [e]| - 1] == s;
  }

  /* ---------------------------------------------------------------------
     RandomGenerator.generate
     --------------------------------------------------------------------- */

  /** What every event of a random exercise looks like: a note within the
      preset's range or (when rests are enabled) a rest, of one of the
      preset's durations, with the matching beat count. */
  predicate RandomEventOk(e: Event, c: DifficultyConfig, includeRests: bool) {
    && (e.Note? ==> c.minNote <= e.midi <= c.maxNote)
    && (e.Rest? ==> includeRests)
    && !e.Chord?
    && e.duration in c.durations
    && e.beats == DurationToBeats(e.duration)
  }

  /** Draws that each pick the preset's first duration (`floor(3r)` is 0)
      and never a rest (none exceeds 0.9). */
  predicate LowDraws(rand: seq<real>) {
    forall i :: 0 <= i < |rand| ==> 0.0 <= rand[i] < 1.0 / 3.0
  }

  lemma LowDrawPicksFirst(r: real)
    requires 0.0 <= r < 1.0 / 3.0
    ensures RandomIndex(3, r) == 0
  {
    assert r * 3.0 < 1.0;
  }

  /** The length of the preset's first duration. */
  function FirstBeats(difficulty: string): nat {
    DurationToBeats(GetDifficultyConfig(difficulty).durations[0])
  }

  /** A fill made of the preset's first duration only. */
  ghost predicate OnFirstGrain(difficulty: string, fill: nat) {
    fill % FirstBeats(difficulty) == 0
  }

  /** Until the measure is full, a fill made of the preset's first duration
      leaves room for one more of it. */
  lemma FirstDurationFits(difficulty: string, fill: nat)
    requires fill < MeasureLength && OnFirstGrain(difficulty, fill)
    ensures 2 <= FirstBeats(difficulty) && fill + FirstBeats(difficulty) <= MeasureLength
    ensures OnFirstGrain(difficulty, fill + FirstBeats(difficulty))
  {
    var b := FirstBeats(difficulty);
    assert b == 16 || b == 8 || b == 4 || b == 2;
  }

  /** The rest-or-note draw for an event of `duration` that fits, then the
      pitch draw for a note; `None` when the draws run out. */
  method DrawEvent(config: DifficultyConfig, includeRests: bool, duration: string,
                   rand: seq<real>, next: nat)
    returns (event: Option<Event>, after: nat)
    requires AllDraws(rand) && next <= |rand|
    requires duration in config.durations && config.minNote <= config.maxNote
    ensures next <= after <= |rand|
    ensures event.None? ==> after == |rand|
    ensures LowDraws(rand) && next + 2 <= |rand| ==> event.Some? && event.value.Note? && after == next + 2
    ensures event.Some? ==> RandomEventOk(event.value, config, includeRests)
    ensures event.Some? ==> event.value.duration == duration
    ensures event.Some? ==> event.value.beats == DurationToBeats(duration)
  {
    after := next;
    if after == |rand| {
      return None, after;
    }
    var rest := rand[after] > 0.9 && includeRests;
    after := after + 1;
    if rest {
      event := Some(Rest(duration, DurationToBeats(duration)));
    } else {
      if after == |rand| {
        return None, after;
      }
      var midi := RandomNote(config.minNote, config.maxNote, rand[after]);
      after := after + 1;
      event := Some(Note(midi, duration, DurationToBeats(duration)));
    }
  }

  /** One pass of the source's measure loop: draws durations until the
      measure is exactly full, skipping any that would overrun it. `None`
      when the draws run out first; 24 low draws always fill a measure. */
  method FillMeasure(difficulty: string, includeRests: bool, rand: seq<real>, next: nat)
    returns (measure: Option<seq<Event>>, after: nat)
    requires AllDraws(rand) && next <= |rand|
    ensures next <= after <= |rand|
    ensures measure.None? ==> after == |rand|
    ensures LowDraws(rand) && next + 24 <= |rand| ==> measure.Some? && after <= next + 24
    ensures measure.Some? ==> Scan(measure.value) == Some(Meter(1, 0))
    ensures measure.Some? ==> forall e :: e in measure.value ==>
      RandomEventOk(e, GetDifficultyConfig(difficulty), includeRests)
  {
    var config := GetDifficultyConfig(difficulty);
    var beatsInMeasure: nat := 0;
    var measureNotes: seq<Event> := [];
    after := next;
    ghost var low := LowDraws(rand) && next + 24 <= |rand|;
    ghost var events: nat := 0;
    while beatsInMeasure < MeasureLength
      invariant beatsInMeasure <= MeasureLength && next <= after <= |rand|
      invariant Scan(measureNotes) ==
        if beatsInMeasure == MeasureLength then Some(Meter(1, 0)) else Some(Meter(0, beatsInMeasure))
      invariant forall e :: e in measureNotes ==> RandomEventOk(e, config, includeRests)
      // With low draws every event is a note of the first duration taking
      // three draws, and each one fits.
      invariant low ==> OnFirstGrain(difficulty, beatsInMeasure)
      invariant low ==> after == next + 3 * events && 2 * events <= beatsInMeasure
      decreases |rand| - after
    {
      if after == |rand| {
        return None, after;
      }
      var choice := RandomIndex(|config.durations|, rand[after]);
      var duration := config.durations[choice];
      if low {
        LowDrawPicksFirst(rand[after]);
        FirstDurationFits(difficulty, beatsInMeasure);
      }
      after := after + 1;
      var beats := DurationToBeats(duration);
      if beatsInMeasure + beats <= MeasureLength {
        var drawn;
        drawn, after := DrawEvent(config, includeRests, duration, rand, after);
        if drawn.None? {
          return None, after;
        }
        var event := drawn.value;
        ScanSnoc(measureNotes, event);
        measureNotes := measureNotes + [event];
        beatsInMeasure := beatsInMeasure + beats;
        events := events + 1;
      }
    }
    measure := Some(measureNotes);
  }

  /** `new RandomGenerator(difficulty).generate(numMeasures)`, drawing from
      `rand` wherever the source calls `Math.random()`. `None` when the draws
      run out before the last measure is full; `used` is how many draws
      were taken. */
  method RandomGenerate(difficulty: string, includeRests: bool, numMeasures: int, rand: seq<real>)
    returns (result: Option<seq<Event>>, used: nat)
    requires AllDraws(rand)
    ensures used <= |rand|
    ensures result.None? ==> used == |rand|
    ensures LowDraws(rand) && |rand| >= 24 * numMeasures ==> result.Some?
    ensures result.Some? ==>
      Scan(result.value) == Some(Meter(if numMeasures < 0 then 0 else numMeasures, 0))
    ensures result.Some? ==> forall e :: e in result.value ==>
      RandomEventOk(e, GetDifficultyConfig(difficulty), includeRests)
  {
    var notes: seq<Event> := [];
    var next: nat := 0;
    var measure: nat := 0;
    while measure < numMeasures
      invariant measure <= if numMeasures < 0 then 0 else numMeasures
      invariant next <= |rand|
      invariant LowDraws(rand) && |rand| >= 24 * numMeasures ==> next <= 24 * measure
      invariant Scan(notes) == Some(Meter(measure, 0))
      invariant forall e :: e in notes ==> RandomEventOk(e, GetDifficultyConfig(difficulty), includeRests)
    {
      var measureNotes;
      measureNotes, next := FillMeasure(difficulty, includeRests, rand, next);
      if measureNotes.None? {
        return None, next;
      }
      ScanAfterFullBars(notes, measureNotes.value, measure);
      notes := notes + measureNotes.value;
      measure := measure + 1;
    }
    result, used := Some(notes), next;
  }

  /* ---------------------------------------------------------------------
     ScaleGenerator.generate
     --------------------------------------------------------------------- */

  /** Where `count` quarter notes from the start of an exercise end. */
  function AfterQuarters(count: nat): Meter {
    Meter(count / 4, (count % 4) * Quarter)
  }

  /** Events that each last a quarter end `|events|` quarters in. */
  lemma {:induction false} AllQuarters(events: seq<Event>)
    requires forall k :: 0 <= k < |events| ==> events[k].beats == Quarter
    ensures Scan(events) == Some(AfterQuarters(|events|))
    decreases |events|
  {
    if events != [] {
      var n := |events| - 1;
      AllQuarters(events[..n]);
      assert Scan(events) == Advance(AfterQuarters(n), events[n].beats);
    }
  }

  /** The exercise the scale generator builds from a seven-note scale: up in
      quarters, then back down over the same pitches. */
  function ScaleRun(scale: seq<int>): (run: seq<Event>)
    requires |scale| == 7
    ensures |run| == 14
  {
    seq(14, k requires 0 <= k < 14 => Note(scale[if k < 7 then k else 13 - k], "quarter", Quarter))
  }

  /** The run is the scale going up and then mirrored; since the scale
      ascends, each half moves stepwise in one direction, and fourteen
      quarters fill three measures and half of a fourth. */
  lemma ScaleRunShape(root: int, scaleType: string)
    ensures var run := ScaleRun(ScaleNotes(root, scaleType));
      && (forall k :: 0 <= k < 14 ==>
            run[k].Note? && run[k].duration == "quarter" && run[k].beats == Quarter)
      && (forall k :: 0 <= k < 7 ==>
            run[k].midi == run[13 - k].midi == ScaleNotes(root, scaleType)[k])
      && (forall k :: 0 <= k < 6 ==> run[k].midi < run[k + 1].midi)
      && (forall k :: 7 <= k < 13 ==> run[k].midi > run[k + 1].midi)
      && Scan(run) == Some(Meter(3, 2 * Quarter))
  {
    var run := ScaleRun(ScaleNotes(root, scaleType));
    AllQuarters(run);
  }

  /** `new ScaleGenerator().generate(scaleType, root)`. */
  method ScaleGenerate(scaleType: string, root: int) returns (notes: seq<Event>)
    ensures notes == ScaleRun(ScaleNotes(root, scaleType))
  {
    var scale := ScaleNotes(root, scaleType);
    notes := [];
    for i := 0 to 7
      invariant notes == ScaleRun(scale)[..i]
    {
      notes := notes + [Note(scale[i], "quarter", Quarter)];
    }
    for i := 0 to 7
      invariant notes == ScaleRun(scale)[..7 + i]
    {
      notes := notes + [Note(scale[6 - i], "quarter", Quarter)];
    }
  }

  /* ---------------------------------------------------------------------
     ChordGenerator.generate / getRomanNumeralRoot / getRomanNumeralType
     --------------------------------------------------------------------- */

  const DegreeTable: map<string, int> := map[
    "I" := 0, "i" := 0,
    "II" := 2, "ii" := 2,
    "III" := 4, "iii" := 4,
    "IV" := 5, "iv" := 5,
    "V" := 7, "v" := 7,
    "VI" := 9, "vi" := 9,
    "VII" := 11, "vii" := 11
  ]

  /** The semitone offsets of the seven degrees of the major scale. */
  const MajorDegrees: set<int> := {0, 2, 4, 5, 7, 9, 11}

  /** The chord root for `romanNumeral` in the key of `tonic`; an unknown
      numeral gives the tonic itself. */
  function RomanNumeralRoot(tonic: int, romanNumeral: string): (r: int)
    ensures r - tonic in MajorDegrees
    ensures romanNumeral !in DegreeTable ==> r == tonic
  {
    tonic + (if romanNumeral in DegreeTable then DegreeTable[romanNumeral] else 0)
  }

  /** The upper-case numerals of the seven degrees, tonic first. */
  const Numerals: seq<string> := ["I", "II", "III", "IV", "V", "VI", "VII"]

  /** The k-th numeral is the k-th degree of the major scale on the tonic,
      whether it is written in upper or in lower case. */
  lemma NumeralsFollowMajorScale(tonic: int, k: nat)
    requires k < 7
    ensures RomanNumeralRoot(tonic, Numerals[k]) == ScaleNotes(tonic, "major")[k]
    ensures RomanNumeralRoot(tonic, ToLower(Numerals[k])) == RomanNumeralRoot(tonic, Numerals[k])
  {
    assert ToLower("I") == "i";
    assert ToLower("II") == "ii";
    assert ToLower("III") == "iii";
    assert ToLower("IV") == "iv";
    assert ToLower("V") == "v";
    assert ToLower("VI") == "vi";
    assert ToLower("VII") == "vii";
  }

  function LowerChar(c: char): char {
    if 'A' <= c <= 'Z' then (c as int + 32) as char else c
  }

  /** `String.prototype.toLowerCase`, on ASCII letters. */
  function ToLower(s: string): (l: string)
    ensures |l| == |s|
    ensures forall i :: 0 <= i < |s| ==> l[i] == LowerChar(s[i])
  {
    seq(|s|, i requires 0 <= i < |s| => LowerChar(s[i]))
  }

  function UpperChar(c: char): char {
    if 'a' <= c <= 'z' then (c as int - 32) as char else c
  }

  /** `String.prototype.toUpperCase`, on ASCII letters. */
  function ToUpper(s: string): (u: string)
    ensures |u| == |s|
    ensures forall i :: 0 <= i < |s| ==> u[i] == UpperChar(s[i])
  {
    seq(|s|, i requires 0 <= i < |s| => UpperChar(s[i]))
  }

  /** The chord quality for a numeral: major when it has no lower-case letter. */
  function RomanNumeralType(romanNumeral: string): (t: string)
    ensures t == "major" || t == "minor"
    ensures t == "major" <==> forall i :: 0 <= i < |romanNumeral| ==> !('a' <= romanNumeral[i] <= 'z')
  {
    if romanNumeral == ToUpper(romanNumeral) then "major" else "minor"
  }

  /** The chord one numeral of a progression stands for. */
  function ProgressionChord(tonic: int, romanNumeral: string): (e: Event)
    ensures e.Chord? && e.beats == MeasureLength && e.duration == "whole"
  {
    Chord(ChordNotes(RomanNumeralRoot(tonic, romanNumeral), RomanNumeralType(romanNumeral)), "whole", MeasureLength)
  }

  /** The chords of a whole progression, one per numeral, in order. */
  function ProgressionChords(tonic: int, progression: seq<string>): (chords: seq<Event>)
  {
    seq(|progression|, i requires 0 <= i < |progression| => ProgressionChord(tonic, progression[i]))
  }

  /** Each chord fills one whole measure, so a progression of n numerals is
      exactly n measures long. */
  lemma ProgressionFillsMeasures(tonic: int, progression: seq<string>)
    ensures Scan(ProgressionChords(tonic, progression)) == Some(Meter(|progression|, 0))
  {
    var chords := ProgressionChords(tonic, progression);
    assert forall k :: 0 <= k < |chords| ==> chords[k].beats == MeasureLength;
    WholeMeasures(chords);
  }

  /** Events that each last a whole measure fill one measure apiece. */
  lemma {:induction false} WholeMeasures(events: seq<Event>)
    requires forall k :: 0 <= k < |events| ==> events[k].beats == MeasureLength
    ensures Scan(events) == Some(Meter(|events|, 0))
    decreases |events|
  {
    if events != [] {
      var n := |events| - 1;
      WholeMeasures(events[..n]);
      assert Scan(events) == Advance(Meter(n, 0), events[n].beats);
    }
  }

  /** `new ChordGenerator().generate(progression, root)`: one whole-measure
      chord per numeral, in order. */
  method ChordGenerate(progression: seq<string>, root: int) returns (notes: seq<Event>)
    ensures notes == ProgressionChords(root, progression)
  {
    notes := [];
    for i := 0 to |progression|
      invariant notes == ProgressionChords(root, progression[..i])
    {
      var chordRoot := RomanNumeralRoot(root, progression[i]);
      var chordType := RomanNumeralType(progression[i]);
      var chordNotes := ChordNotes(chordRoot, chordType);
      notes := notes + [Chord(chordNotes, "whole", MeasureLength)];
      assert notes == ProgressionChords(root, progression[..i + 1]);
    }
    assert progression[..|progression|] == progression;
  }

  /** Every chord of a progression is a triad on a degree of the key, major
      for an upper-case numeral and minor otherwise. */
  lemma ProgressionChordShape(tonic: int, romanNumeral: string)
    ensures var c := ProgressionChord(tonic, romanNumeral);
      && |c.notes| == 3 && c.beats == MeasureLength
      && c.notes[0] - tonic in MajorDegrees
      && (c.notes[1] - c.notes[0] == 4 <==> RomanNumeralType(romanNumeral) == "major")
      && c.notes[2] - c.notes[0] == 7
  {
  }

  /** I-IV-V-I in C: major triads on C4, F4, G4 and C4. */
  lemma DefaultProgressionInC()
    ensures ProgressionChord(60, "I").notes == [60, 64, 67]
    ensures ProgressionChord(60, "IV").notes == [65, 69, 72]
    ensures ProgressionChord(60, "V").notes == [67, 71, 74]
  {
    assert RomanNumeralRoot(60, "I") == 60;
    assert RomanNumeralRoot(60, "IV") == 65;
    assert RomanNumeralRoot(60, "V") == 67;
    assert RomanNumeralType("I") == "major";
    assert RomanNumeralType("IV") == "major";
    assert RomanNumeralType("V") == "major";
    MajorTriad(60);
    MajorTriad(65);
    MajorTriad(67);
  }

  lemma MajorTriad(root: int)
    ensures ChordNotes(root, "major") == [root, root + 4, root + 7]
  {
    assert ChordIntervals("major") == [0, 4, 7];
  }
}
