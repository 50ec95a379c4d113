# Sight-reading trainer: a verified model of its core

This project models, in Dafny, the logic under the user interface of a
piano sight-reading trainer (a WordPress plugin with a browser front end):

- **Exercise generators** (`generators.dfy`, module `Generators`): the scale,
  chord and duration tables, random measure filling, scale runs and
  roman-numeral chord progressions.
- **Game engine** (`engine.dfy`, module `Engine`): the MIDI-note-to-staff
  table, the computer-keyboard layout, decoding of MIDI Note On / Note Off
  messages (the Channel Voice messages of the MIDI 1.0 Detailed
  Specification), wait-mode scoring, held-key suppression, the 88-key
  piano layout and the displayed accuracy.
- **Server-side statistics** (`userdata.dfy`, module `UserData`): saving a
  practice session, awarding achievements, and the per-user settings and
  statistics with their defaults.
- **Song library** (`songs.dfy`, module `Songs`): the built-in pieces and the
  lookups by id, difficulty and category, the full list and a random pick.
- `options.dfy` holds the `Option` type.

Conventions used throughout:

- Durations are counted in sixteenths, so a quarter is 4 and a 4/4 measure is
  16. The source counts in quarter notes (a quarter is 1 beat, an eighth 0.5);
  every beat value here is four times the source's.
- Staff lines are counted in half lines, so the source's line `-9.5` is `-19`.
- Each call to `Math.random()` is a value of the parameter `rand: seq<real>`,
  read in order. Each value lies in [0, 1).
- The WordPress user meta is modelled as the fields of a class `UserMeta`: a
  map from user id to statistics and a map from user id to settings. The
  handlers read these maps and replace entries.
- The engine's `stats` object and the wait mode's position are fields of the
  classes `SightReadingEngine` and `WaitMode`. Their methods update these
  fields in place. Each method is proved equal to a pure step function
  (`WaitStep`), and the lemmas are proved about that function.

Three behaviours of the code worth noting:

- A user id of 0 in `get_user_settings`, `get_user_stats`,
  `srt_save_user_setting` and `srt_get_user_setting` means "the current
  user". It does not mean "no user": the defaults come back only when the
  resolved id is not positive.
- `srt_get_user_setting` uses `isset`, so a stored `null` reads as the
  default. `get_user_settings` uses `array_merge`, which keeps the stored
  `null`. Both behaviours are modelled (`SaveThenGet`, `SaveThenMerge`).
- In wait mode, a rest or a chord in the exercise has no `midi`, so no input
  can match it. The player stays on it forever (`StuckOnRestOrChord`).

## Model

| member | source | states |
|---|---|---|
| Generators.ScaleNotes | static/sightreading-app/sightreading-chord-generators.js:26-36 | seven pitches, the first being the root and each `root + interval` from the scale table; strictly ascending and inside the octave above the root |
| Generators.ScaleTableShape | static/sightreading-app/sightreading-chord-generators.js:27-32 | every scale row (and the major fallback) has seven intervals starting at 0, ascending, below 12 |
| Generators.ChordNotes | static/sightreading-app/sightreading-chord-generators.js:38-51 | three notes for a triad type and four for a seventh type, root first, each `root + interval`, ascending and inside the octave |
| Generators.ChordTableShape | static/sightreading-app/sightreading-chord-generators.js:39-47 | triad rows have 3 intervals and seventh rows 4, each starting at 0, ascending, below 12 |
| Generators.UnknownTypeIsMajor | static/sightreading-app/sightreading-chord-generators.js:26-51 | an unknown scale or chord type gives exactly the major result |
| Generators.MajorTriad | static/sightreading-app/sightreading-chord-generators.js:38-51 | a major chord on any root is `[root, root+4, root+7]` |
| Generators.RandomIndex | static/sightreading-app/sightreading-chord-generators.js:143-145 | `floor(r * n)` for a draw in [0,1) selects a valid index of an n-element list |
| Generators.RandomNote | static/sightreading-app/sightreading-chord-generators.js:53-55 | a drawn pitch lies in `[min, max]` whenever `min <= max` |
| Generators.DurationToBeats | static/sightreading-app/sightreading-chord-generators.js:147-159 | a tabled duration is positive and at most a measure; an unknown name lasts one quarter |
| Generators.DurationTableIsMetric | static/sightreading-app/sightreading-chord-generators.js:148-157 | each plain value halves the one above, each dotted value is 1.5 times its plain value |
| Generators.GetDifficultyConfig | static/sightreading-app/sightreading-chord-generators.js:112-141 | every preset has `minNote <= maxNote` and three tabled durations; an unknown difficulty gives the beginner preset |
| Generators.PresetAlwaysFits | static/sightreading-app/sightreading-chord-generators.js:113-138 | at any fill the measure-filling loop can reach, some duration of the preset still fits, so the loop can always make progress |
| Generators.PresetDurationsAreGrainMultiples | static/sightreading-app/sightreading-chord-generators.js:113-138 | every preset duration, and the measure, is a multiple of the preset's smallest grain, so fills stay on that grain |
| Generators.GrainStep | static/sightreading-app/sightreading-chord-generators.js:84-102 | adding any preset duration to a fill on the grain keeps it on the grain |
| Generators.ScanMeansBarred | static/sightreading-app/sightreading-chord-generators.js:76-107 | the left-to-right bar count returns `n` measures and `f` sixteenths exactly when the events total `16n + f` and none crosses a barline |
| Generators.ScanAfterFullBars | static/sightreading-app/sightreading-chord-generators.js:104-106 | appending a run of events after whole measures shifts its bar count by those measures |
| Generators.DrawEvent | static/sightreading-app/sightreading-chord-generators.js:85-101 | a drawn event is a rest only when rests are on, a note otherwise with a pitch from the preset range, carrying the drawn duration and its tabled length; with draws below 1/3 and two of them left, it is a note made from exactly two draws |
| Generators.FillMeasure | static/sightreading-app/sightreading-chord-generators.js:77-103 | one measure is filled exactly, with every event a valid draw for the preset; with draws below 1/3, 24 of them always fill the measure |
| Generators.LowDrawPicksFirst | static/sightreading-app/sightreading-chord-generators.js:143-145 | a draw below 1/3 selects the first of three choices |
| Generators.FirstDurationFits | static/sightreading-app/sightreading-chord-generators.js:80-103 | a fill that is a multiple of the preset's first duration still has room for that duration, which lasts at least an eighth |
| Generators.RandomGenerate | static/sightreading-app/sightreading-chord-generators.js:72-110 | when it returns events, they fill exactly `numMeasures` measures (none for a non-positive count) and none crosses a barline; every event is a rest (only if rests are on) or a note in the preset's range, with a preset duration and its tabled length; with draws all below 1/3 and 24 per measure, it always returns events |
| Generators.ScaleRunShape | static/sightreading-app/sightreading-chord-generators.js:166-193 | the scale exercise is 14 quarter notes: the scale up, then the same pitches in reverse order, rising in the first half and falling in the second, ending two quarters into the fourth measure |
| Generators.ScaleGenerate | static/sightreading-app/sightreading-chord-generators.js:166-193 | the pushed events are exactly the scale run of `ScaleNotes(root, scaleType)` |
| Generators.RomanNumeralRoot | static/sightreading-app/sightreading-chord-generators.js:219-231 | the chord root is the tonic plus a major-scale degree; an unknown numeral gives the tonic |
| Generators.NumeralsFollowMajorScale | static/sightreading-app/sightreading-chord-generators.js:219-231 | numeral k (I to VII) lands on the k-th note of the tonic's major scale, in either case |
| Generators.RomanNumeralType | static/sightreading-app/sightreading-chord-generators.js:233-239 | major exactly when the numeral has no lower-case letter, minor otherwise |
| Generators.ProgressionChord | static/sightreading-app/sightreading-chord-generators.js:203-214 | each numeral gives one whole-note chord lasting a measure |
| Generators.ProgressionChordShape | static/sightreading-app/sightreading-chord-generators.js:200-239 | each progression chord is a triad on a major-scale degree of the tonic, with a major third exactly for an upper-case numeral and a perfect fifth always |
| Generators.ProgressionFillsMeasures | static/sightreading-app/sightreading-chord-generators.js:200-217 | a progression of k numerals fills exactly k measures |
| Generators.ChordGenerate | static/sightreading-app/sightreading-chord-generators.js:200-217 | the pushed events are the progression's chords, in order |
| Generators.DefaultProgressionInC | static/sightreading-app/sightreading-chord-generators.js:200-217 | the default progression's chords on C4 are C, F and G major |
| Generators.AllQuarters | static/sightreading-app/sightreading-chord-generators.js:166-193 | a run of quarters ends `n/4` measures and `n mod 4` quarters in |
| Generators.WholeMeasures | static/sightreading-app/sightreading-chord-generators.js:200-217 | a run of measure-long events ends exactly on its own count of barlines |
| Engine.StaffPosition | static/sightreading-app/sightreading-engine.js:66-174 | the table has an entry for exactly the keys 21 to 108 |
| Engine.StaffEntry | static/sightreading-app/sightreading-engine.js:66-174 | bass below middle C, treble above, both for middle C; half-line position `midi-60` from middle C up, `midi-42` for 24 to 59 and `midi-41` below 24; the name is the flat-spelt pitch name |
| Engine.LedgerLinesGrowOutward | static/sightreading-app/sightreading-engine.js:66-174 | ledger lines never decrease moving away from the staff, downward in the bass and upward in the treble |
| Engine.KeyboardMapsIntoRange | static/sightreading-app/sightreading-engine.js:177-184 | every mapped key plays a note from 48 to 79, and no two keys play the same note |
| Engine.KeyboardCoversRange | static/sightreading-app/sightreading-engine.js:177-184 | every note from 48 to 79 has a key |
| Engine.DecodeMidi | static/sightreading-app/sightreading-engine.js:859-871 | a Note On with positive velocity plays the note; a Note Off, or a Note On with velocity 0, releases its note; any other command does nothing |
| Engine.DecodeNoteMessages | static/sightreading-app/sightreading-engine.js:859-871 | Note On and Note Off messages on any channel decode to the note sent, velocity 0 counting as a release |
| Engine.OtherMessagesIgnored | static/sightreading-app/sightreading-engine.js:859-871 | status bytes from 0xA0 up are ignored |
| Engine.WaitStep | static/sightreading-app/sightreading-engine.js:951-984 | after the end nothing changes; the expected pitch adds a hit and a streak step and advances; any other input adds a miss, clears the streak and stays; the best streak becomes the larger of itself and the new streak on a hit and is unchanged otherwise |
| Engine.WaitRunKeepsValid | static/sightreading-app/sightreading-engine.js:956-971 | over any input sequence the streak stays at most the best streak and the position never passes the end |
| Engine.PerfectRun | static/sightreading-app/sightreading-engine.js:951-984 | playing exactly the remaining pitches finishes with one hit per note, no miss, and the streak grown by the number of notes |
| Engine.StuckOnRestOrChord | static/sightreading-app/sightreading-engine.js:955-958 | at a rest or chord every input is a miss and the position never moves |
| Engine.FinishedIgnoresInput | static/sightreading-app/sightreading-engine.js:952 | input after the last note changes nothing |
| Engine.SightReadingEngine.constructor | static/sightreading-app/sightreading-engine.js:219-226 | all counters start at 0 |
| Engine.WaitMode.SetExercise | static/sightreading-app/sightreading-engine.js:946-949 | loads the notes and restarts at the first one |
| Engine.WaitMode.HandleNoteInput | static/sightreading-app/sightreading-engine.js:951-984 | the engine's counters and the position change exactly as `WaitStep` says |
| Engine.KeyboardInput.HandleKeyDown | static/sightreading-app/sightreading-engine.js:891-914 | a held key or an unmapped key changes nothing; a mapped key is marked held, played and scored once |
| Engine.KeyboardInput.HandleKeyUp | static/sightreading-app/sightreading-engine.js:916-928 | the key is no longer held, and its note (if any) is released |
| Engine.MidiHandler.HandleMidiMessage | static/sightreading-app/sightreading-engine.js:859-871 | only a decoded Note On is scored; everything else leaves the score alone |
| Engine.WhitesBelowStep | static/sightreading-app/sightreading-engine.js:550-583 | moving up one key adds one to the white-key count exactly when that key is white |
| Engine.VirtualPiano.GenerateKeys | static/sightreading-app/sightreading-engine.js:537-597 | appends the 88 keys from A0 in order, each classed black by pitch class and given the count of white keys below it; returns 52 white keys |
| Engine.BlackKeysAreFlats | static/sightreading-app/sightreading-engine.js:555-562 | a key is black exactly when its staff-table name carries a flat |
| Engine.WhiteKeysNumberedInOrder | static/sightreading-app/sightreading-engine.js:565-583 | white-key numbers never decrease along the keyboard and a white key's number exceeds every earlier white key's; all lie in 0 to 51 |
| Engine.WhiteIndexBounds | static/sightreading-app/sightreading-engine.js:590-592 | the white-key count below any key lies between 0 and 51 |
| Engine.Accuracy | static/sightreading-app/sightreading-engine.js:1105-1106 | the shown accuracy lies in 0 to 100; it is 100 before any note and with no misses, 0 with misses and no hits (computed over exact rationals) |
| Engine.AccuracyRounds | static/sightreading-app/sightreading-engine.js:1105-1106 | the shown accuracy is the hit percentage rounded to the nearest integer, halves up |
| UserData.UserStatsCases | static/sightreading-app/sightreading-main.php:841-869 | when the resolved id (0 meaning the current user) is not positive, the defaults; when it has no stored record, the defaults; a positive id with a stored record gets that record |
| UserData.StatsReadBack | static/sightreading-app/sightreading-main.php:841-869 | statistics stored for a logged-in user read back as stored, by id or as the current user (id 0); other users are unaffected; with nobody logged in the defaults come back |
| UserData.KeepLast | static/sightreading-app/sightreading-main.php:929-932 | at most 50 entries, exactly the last ones of the history in order |
| UserData.KeepLastAppend | static/sightreading-app/sightreading-main.php:918-932 | capping after each append keeps the same entries as capping once |
| UserData.LevelFor | static/sightreading-app/sightreading-main.php:937 | the level is one more than the completed thousands of experience, so at least 1 for non-negative experience |
| UserData.Percent | static/sightreading-app/sightreading-main.php:908-910 | the average accuracy times the notes played equals 100 times the correct notes |
| UserData.RecordSession | static/sightreading-app/sightreading-main.php:900-937 | one more session; the four totals grow by the session's figures; accuracy recomputed only when notes were played; best streak the larger; the entry appended and the history capped; experience grows by ten per correct note plus five per streak note, and the level follows |
| UserData.HistoryKeepsMostRecent | static/sightreading-app/sightreading-main.php:918-932 | after any series of sessions the history is the last 50 of the old history followed by the new entries, in order |
| UserData.BestStreakIsMaximum | static/sightreading-app/sightreading-main.php:913-915 | after any series of sessions the best streak is the maximum of the stored one and every session's |
| UserData.BestStreakStep | static/sightreading-app/sightreading-main.php:913-915 | saving one more session whose best streak is taken as the larger keeps the best streak the maximum over all sessions |
| UserData.UpdateStats | static/sightreading-app/sightreading-main.php:900-937 | the in-place field updates produce exactly `RecordSession` |
| UserData.Award | static/sightreading-app/sightreading-main.php:973-976 | an achievement already earned changes nothing; otherwise it is appended, its points added and the level recomputed, and every other statistic is unchanged |
| UserData.AwardOnce | static/sightreading-app/sightreading-main.php:970-988 | awarding keeps the list free of repeats, and awarding twice is awarding once |
| UserData.UserSettings | static/sightreading-app/sightreading-main.php:804-838 | the keys are exactly the defaults' plus, for a logged-in user, the stored ones; a stored value overrides its default, and every other key keeps its default |
| UserData.GetSetting | static/sightreading-app/sightreading-main.php:1044-1055 | nobody logged in reads the default; a result other than the default is the logged-in user's stored, non-null value; a stored, non-null value is always what is read |
| UserData.SaveSetting | static/sightreading-app/sightreading-main.php:1029-1042 | the save reports true exactly for a logged-in user; the saved key then holds the new value, the user's other keys and every other user's settings are unchanged; with nobody logged in nothing changes |
| UserData.SaveThenGet | static/sightreading-app/sightreading-main.php:1029-1055 | a saved setting reads back (null reading as the default); other users and other keys are unaffected |
| UserData.SaveThenMerge | static/sightreading-app/sightreading-main.php:1029-1042 | after a save, the merged settings show the saved value, null included |
| UserData.UserMeta.AjaxSaveSession | static/sightreading-app/sightreading-main.php:889-951 | a logged-in user with a decoded session gets `RecordSession` stored and a success with the experience gained, new level and statistics; otherwise nothing changes and the answer is an error |
| UserData.UserMeta.AjaxUpdateAchievement | static/sightreading-app/sightreading-main.php:963-989 | a logged-in user with a known, unearned achievement gets it awarded and stored, with its points and the new level; every other case changes nothing and is an error |
| UserData.UserMeta.SaveUserSetting | static/sightreading-app/sightreading-main.php:1029-1042 | the settings table and the result are exactly `SaveSetting`'s; statistics untouched |
| Songs.FindIndex | static/sightreading-app/sightreading-songs.js:220 | the position of the first song with the id, or the length when none has it |
| Songs.Find | static/sightreading-app/sightreading-songs.js:220 | a found song has the id, is in the list and no earlier song has the id; nothing is found exactly when no song has the id |
| Songs.WithDifficulty | static/sightreading-app/sightreading-songs.js:229 | the filtered list is no longer than the list |
| Songs.CategorySongs | static/sightreading-app/sightreading-songs.js:234-236 | the list of the first category with that name, or the empty list for an unknown name |
| Songs.GetSongById | static/sightreading-app/sightreading-songs.js:218-224 | the category-by-category search returns the first song with the id across the whole library, or nothing |
| Songs.GetSongsByDifficulty | static/sightreading-app/sightreading-songs.js:226-232 | the result is the whole library, in order, filtered on the difficulty |
| Songs.GetAllSongs | static/sightreading-app/sightreading-songs.js:238-244 | the result is the categories' lists concatenated in order |
| Songs.GetRandomSong | static/sightreading-app/sightreading-songs.js:246-249 | a song comes back exactly when there is a candidate; it is the candidate the draw selects, from the library, and of the asked difficulty when one is given |
| Songs.AllSongsSplit | static/sightreading-app/sightreading-songs.js:238-244 | gathering the categories in two runs gives the same list |
| Songs.FindAppend | static/sightreading-app/sightreading-songs.js:218-224 | searching two lists back to back finds in the first when it can, else in the second |
| Songs.WithDifficultyKeepsExactly | static/sightreading-app/sightreading-songs.js:226-232 | the filter keeps exactly the songs of that difficulty |
| Songs.WithDifficultyAppend | static/sightreading-app/sightreading-songs.js:226-232 | the filter distributes over concatenation, so it keeps library order |
| Songs.AllSongsMembership | static/sightreading-app/sightreading-songs.js:238-244 | a song is in the full list exactly when some category holds it |
| Songs.AllSongsCount | static/sightreading-app/sightreading-songs.js:238-244 | the full list's length is the sum of the category lengths |
| Songs.FindEachSong | static/sightreading-app/sightreading-songs.js:218-224 | with distinct ids, looking a song up by its id returns that song |
| Songs.CategoryByName | static/sightreading-app/sightreading-songs.js:234-236 | with distinct names, a category's name returns its list |
| Songs.LibraryOrder | static/sightreading-app/sightreading-songs.js:12-215 | the full list is the ten pieces in declaration order |
| Songs.LibraryIdsDistinct | static/sightreading-app/sightreading-songs.js:12-215 | song ids and category names are all distinct |
| Songs.LibraryWellTimed | static/sightreading-app/sightreading-songs.js:12-215 | every event's length equals the tabled length of its duration name |
| Songs.FirstSongsWellTimed | static/sightreading-app/sightreading-songs.js:14-119 | the exercise and classical pieces are well timed |
| Songs.LastSongsWellTimed | static/sightreading-app/sightreading-songs.js:121-213 | the jazz, pop and scale pieces are well timed |
| Songs.DurationsUsed | static/sightreading-app/sightreading-chord-generators.js:147-159 | the tabled lengths of the five duration names the library uses |
| Songs.CommonTimeSongsFillWholeBars | static/sightreading-app/sightreading-songs.js:12-215 | every 4/4 piece ends on a barline, and none of its events crosses one |
| Songs.QuarterSongsFillWholeBars | static/sightreading-app/sightreading-songs.js:14-213 | the all-quarter pieces end on a barline |
| Songs.WholeNoteSongsFillWholeBars | static/sightreading-app/sightreading-songs.js:101-170 | the whole-note pieces end on a barline |
| Songs.OdeToJoyBars | static/sightreading-app/sightreading-songs.js:54-79 | the Ode to Joy excerpt fills exactly four measures |
| Songs.UniformTotal | static/sightreading-app/sightreading-songs.js:81-99 | events of one length last their count times that length |
| Songs.FurEliseFillsThreeBars | static/sightreading-app/sightreading-songs.js:81-99 | the 3/8 excerpt lasts exactly three measures of three eighths |

## Left out

- Rendering, audio and I/O are not modelled. This covers the staff canvas, the Tone.js sampler, Web MIDI device discovery, jQuery and DOM updates, `localStorage`, the pixel offsets in `generateKeys`, key highlighting, logging and timers.
- `ScrollMode` and `FreeMode` are not modelled: one is an animation loop with an empty input handler, the other records timestamps. The engine is modelled with wait mode as its current mode.
- The engine's placeholder note generator is not modelled. The real generators are in the chord-generators file.
- The sustain pedal (the Alt key) is not modelled: it only sets a display flag.
- The engine's `stats.accuracy` and `sessionStart` fields are not modelled, since wait mode never reads or writes them. Nor is the achievement `icon`.
- `Generators.ToLower`/`ToUpper` handle ASCII letters only. JavaScript case mapping of other characters is not modelled.
- Engine.KeyboardInput.HandleKeyDown: every key of the layout is one character, so a key name of any other length is treated as unmapped.
- Generators.RandomGenerate: returns `None` when the supplied draws run out. The source keeps calling `Math.random()` instead. The model guarantees a result only for draws all below 1/3 with 24 per measure; other draw sequences may need more draws than they are given.
- Generators.RandomGenerate: `numMeasures` is taken as given. The source's default of 4 is the caller's choice.
- UserData.RecordSession: `average_accuracy` is an exact rational, not a PHP float. Integers are unbounded, so PHP's overflow to float on huge totals is not modelled.
- UserData.UserStats: stored statistics are taken as a complete record. Only these handlers write that meta, and they always write the merged full array, so `array_merge` with a partial array is not modelled.
- UserData.UserSettings: `array_merge` renumbers numeric keys; setting keys are strings here, so that renumbering is not modelled.
- UserData.SessionData: holds the session after `json_decode`, `intval` and `sanitize_text_field`. Those PHP functions themselves are not modelled, and neither is the nonce check.
- `current_time('mysql')` is the parameter `now`, and `get_current_user_id()` is the parameter `user` or `currentUser`.
- Songs.CategorySongs: JavaScript property lookup would also find inherited object members such as `constructor`. The model treats only the five categories as names.
- Generators.ScaleNotes, Generators.ChordNotes, Generators.DurationToBeats, Generators.GetDifficultyConfig, Generators.RomanNumeralRoot: the same holds for their table lookups. A name such as `constructor` or `toString` finds an inherited member in JavaScript; the model treats it as an unknown name and uses the fallback.
- Engine.Accuracy: computed over exact rationals. The source's float product can fall just under a .5 tie: 23 hits of 40 shows 57 in the source and 58 in the model.
- Songs.GetRandomSong: the optional difficulty is `Option<string>`, and an empty string counts as no difficulty (it is falsy in JavaScript). A missing song (`undefined`) is `None`.
