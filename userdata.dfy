/** The server side of the trainer: per-user statistics and settings kept in
    WordPress user meta, the session-saving and achievement handlers, and the
    settings helpers.

    The user-meta table is a `UserMeta` object whose two fields map a user id
    to the stored statistics and to the stored settings; `get_user_meta`
    reads them and `update_user_meta` replaces an entry. The logged-in user
    (`get_current_user_id()`, 0 when nobody is logged in) and the server
    clock are parameters. */
module UserData {
  import opened Options

  /** A PHP value as the settings array holds it. */
  datatype Value = Null | Bool(b: bool) | Int(i: int) | Real(r: real) | Str(s: string)

  /* ---------------------------------------------------------------------
     Statistics (get_user_stats)
     --------------------------------------------------------------------- */

  /** One entry of the session history. */
  datatype SessionEntry = SessionEntry(
    date: string,
    duration: int,
    correctNotes: int,
    incorrectNotes: int,
    accuracy: Value,
    bestStreak: int,
    difficulty: string,
    mode: string)

  /** The `srt_user_stats` array. `averageAccuracy` is a percentage. */
  datatype Stats = Stats(
    totalSessions: int,
    totalNotesPlayed: int,
    totalCorrectNotes: int,
    totalIncorrectNotes: int,
    totalPracticeTime: int,
    averageAccuracy: real,
    bestStreak: int,
    level: int,
    experiencePoints: int,
    achievements: seq<string>,
    sessionHistory: seq<SessionEntry>)

  const DefaultStats: Stats := Stats(0, 0, 0, 0, 0, 0.0, 0, 1, 0, [], [])

  /** `get_user_stats`: the stored statistics of a logged-in user who has
      some, otherwise the defaults. A user id of 0 means the current user. */
  function UserStats(stored: map<int, Stats>, userId: int, currentUser: int): Stats {
    var uid := if userId == 0 then currentUser else userId;
    if uid > 0 && uid in stored then stored[uid] else DefaultStats
  }

  /** The three outcomes of `get_user_stats`: nobody logged in or a
      non-positive id gives the defaults, an id with nothing stored gives
      the defaults, and a logged-in user with stored statistics gets them
      unchanged. */
  lemma UserStatsCases(stored: map<int, Stats>, userId: int, currentUser: int)
    ensures var uid := if userId == 0 then currentUser else userId;
      uid <= 0 ==> UserStats(stored, userId, currentUser) == DefaultStats
    ensures var uid := if userId == 0 then currentUser else userId;
      uid !in stored ==> UserStats(stored, userId, currentUser) == DefaultStats
    ensures var uid := if userId == 0 then currentUser else userId;
      uid > 0 && uid in stored ==> UserStats(stored, userId, currentUser) == stored[uid]
  {
  }

  /** Statistics stored for a logged-in user read back as stored, asked for
      by id or as the current user; other users read as before; with nobody
      logged in the defaults come back. */
  lemma StatsReadBack(stored: map<int, Stats>, user: int, s: Stats, other: int)
    requires user > 0 && other != user && other != 0
    ensures UserStats(stored[user := s], user, 0) == s
    ensures UserStats(stored[user := s], 0, user) == s
    ensures UserStats(stored[user := s], other, user) == UserStats(stored, other, user)
    ensures UserStats(stored, 0, 0) == DefaultStats
  {
  }

  /* ---------------------------------------------------------------------
     ajax_save_session
     --------------------------------------------------------------------- */

  /** The fields of the posted session, each numeric one already passed
      through `intval` (a missing one reads as 0). */
  datatype SessionData = SessionData(
    totalNotes: int,
    correctNotes: int,
    incorrectNotes: int,
    duration: int,
    bestStreak: int,
    accuracy: Value,
    difficulty: string,
    mode: string)

  /** The most sessions the history keeps. */
  const HistoryLimit: nat := 50

  /** The last `HistoryLimit` entries of `h`, in order (`array_slice($h, -50)`
      when there are more than that). */
  function KeepLast<T>(h: seq<T>): (r: seq<T>)
    ensures |r| <= HistoryLimit && |r| == if |h| > HistoryLimit then HistoryLimit else |h|
    ensures r == h[|h| - |r|..]
  {
    if |h| > HistoryLimit then h[|h| - HistoryLimit..] else h
  }

  /** Capping after every session keeps the same entries as capping the
      whole history once: the most recent fifty, oldest first. */
  lemma KeepLastAppend<T>(h: seq<T>, e: T)
    ensures KeepLast(KeepLast(h) + [e]) == KeepLast(h + [e])
  {
    var k := KeepLast(h);
    assert k + [e] == (h + [e])[|h| - |k|..];
  }

  /** The level reached with `xp` experience points: one more than the
      number of whole thousands (rounding down). */
  function LevelFor(xp: int): (level: int)
    ensures xp >= 0 ==> level >= 1
    ensures (level - 1) * 1000 <= xp < level * 1000
  {
    xp / 1000 + 1
  }

  /** Experience for a session: ten per correct note and five per note of
      the best streak. */
  function SessionXp(d: SessionData): int {
    d.correctNotes * 10 + d.bestStreak * 5
  }

  /** `part / whole * 100`, computed exactly. */
  function Percent(part: int, whole: int): (p: real)
    requires whole > 0
    ensures p * (whole as real) == (part as real) * 100.0
  {
    (part as real) / (whole as real) * 100.0
  }

  /** The statistics after one saved session, `now` being the server time. */
  function RecordSession(s: Stats, d: SessionData, now: string): (r: Stats)
    ensures r.totalSessions == s.totalSessions + 1
    ensures r.totalNotesPlayed == s.totalNotesPlayed + d.totalNotes
    ensures r.totalCorrectNotes == s.totalCorrectNotes + d.correctNotes
    ensures r.totalIncorrectNotes == s.totalIncorrectNotes + d.incorrectNotes
    ensures r.totalPracticeTime == s.totalPracticeTime + d.duration
    ensures r.totalNotesPlayed > 0 ==>
      r.averageAccuracy * (r.totalNotesPlayed as real) == (r.totalCorrectNotes as real) * 100.0
    ensures r.totalNotesPlayed <= 0 ==> r.averageAccuracy == s.averageAccuracy
    ensures r.bestStreak >= s.bestStreak && r.bestStreak >= d.bestStreak
    ensures r.bestStreak == s.bestStreak || r.bestStreak == d.bestStreak
    ensures r.sessionHistory == KeepLast(s.sessionHistory + [Entry(d, now)])
    ensures r.experiencePoints == s.experiencePoints + SessionXp(d)
    ensures r.level == LevelFor(r.experiencePoints)
    ensures r.achievements == s.achievements
  {
    var played := s.totalNotesPlayed + d.totalNotes;
    var correct := s.totalCorrectNotes + d.correctNotes;
    var xp := s.experiencePoints + SessionXp(d);
    s.(totalSessions := s.totalSessions + 1,
       totalNotesPlayed := played,
       totalCorrectNotes := correct,
       totalIncorrectNotes := s.totalIncorrectNotes + d.incorrectNotes,
       totalPracticeTime := s.totalPracticeTime + d.duration,
       averageAccuracy := if played > 0 then Percent(correct, played) else s.averageAccuracy,
       bestStreak := if d.bestStreak > s.bestStreak then d.bestStreak else s.bestStreak,
       sessionHistory := KeepLast(s.sessionHistory + [Entry(d, now)]),
       experiencePoints := xp,
       level := LevelFor(xp))
  }

  /** The history after a series of sessions is the last fifty entries of
      the old history followed by the new sessions, in order: once fifty
      sessions have been saved it holds exactly the fifty most recent. */
  lemma {:induction false} HistoryKeepsMostRecent(s: Stats, ds: seq<SessionData>, now: string)
    requires |s.sessionHistory| <= HistoryLimit
    ensures RecordAll(s, ds, now).sessionHistory == KeepLast(s.sessionHistory + Entries(ds, now))
    decreases |ds|
  {
    if ds == [] {
      assert s.sessionHistory + Entries(ds, now) == s.sessionHistory;
    } else {
      var n := |ds| - 1;
      var e := Entry(ds[n], now);
      var h := s.sessionHistory + Entries(ds[..n], now);
      HistoryKeepsMostRecent(s, ds[..n], now);
      KeepLastAppend(h, e);
      EntriesSnoc(s.sessionHistory, ds, now);
    }
  }

  lemma EntriesSnoc(h: seq<SessionEntry>, ds: seq<SessionData>, now: string)
    requires ds != []
    ensures var n := |ds| - 1;
      h + Entries(ds, now) == (h + Entries(ds[..n], now)) + [Entry(ds[n], now)]
  {
    var n := |ds| - 1;
    assert Entries(ds, now) == Entries(ds[..n], now) + [Entry(ds[n], now)];
  }

  /** The history entry a session produces. */
  function Entry(d: SessionData, now: string): SessionEntry {
    SessionEntry(now, d.duration, d.correctNotes, d.incorrectNotes, d.accuracy, d.bestStreak, d.difficulty, d.mode)
  }

  function Entries(ds: seq<SessionData>, now: string): (es: seq<SessionEntry>)
    ensures |es| == |ds|
  {
    seq(|ds|, i requires 0 <= i < |ds| => Entry(ds[i], now))
  }

  /** Sessions saved one after another, in order. */
  function RecordAll(s: Stats, ds: seq<SessionData>, now: string): Stats
    decreases |ds|
  {
    if ds == [] then s else RecordSession(RecordAll(s, ds[..|ds| - 1], now), ds[|ds| - 1], now)
  }

  /** `b` is the largest of the stored best streak and every session's. */
  ghost predicate IsBestStreak(b: int, s: Stats, ds: seq<SessionData>) {
    && b >= s.bestStreak
    && (forall i :: 0 <= i < |ds| ==> b >= ds[i].bestStreak)
    && (b == s.bestStreak || exists i :: 0 <= i < |ds| && b == ds[i].bestStreak)
  }

  /** The best streak over a series of sessions is the largest of the
      stored one and every session's. */
  lemma {:induction false} BestStreakIsMaximum(s: Stats, ds: seq<SessionData>, now: string)
    ensures IsBestStreak(RecordAll(s, ds, now).bestStreak, s, ds)
    decreases |ds|
  {
    if ds != [] {
      var n := |ds| - 1;
      var before := RecordAll(s, ds[..n], now);
      BestStreakIsMaximum(s, ds[..n], now);
      BestStreakStep(before.bestStreak, RecordSession(before, ds[n], now).bestStreak, s, ds);
    }
  }

  /** Saving one more session `ds[n]` takes the larger of the best streak so
      far and that session's. */
  lemma BestStreakStep(b0: int, b: int, s: Stats, ds: seq<SessionData>)
    requires ds != []
    requires IsBestStreak(b0, s, ds[..|ds| - 1])
    requires var d := ds[|ds| - 1]; b >= b0 && b >= d.bestStreak && (b == b0 || b == d.bestStreak)
    ensures IsBestStreak(b, s, ds)
  {
    var n := |ds| - 1;
    assert forall i :: 0 <= i < n ==> ds[..n][i] == ds[i];
    if b != s.bestStreak && b != ds[n].bestStreak {
      var i :| 0 <= i < n && b0 == ds[..n][i].bestStreak;
      assert b == ds[i].bestStreak;
    }
  }

  /** What a handler sends back with `wp_send_json_success` or
      `wp_send_json_error` (either ends the request). */
  datatype SaveResponse =
    | Saved(xpGained: int, newLevel: int, stats: Stats)
    | InvalidSession

  /* ---------------------------------------------------------------------
     ajax_update_achievement
     --------------------------------------------------------------------- */

  datatype Achievement = Achievement(name: string, description: string, points: int)

  /** The achievements a user can earn, by id. */
  const Achievements: map<string, Achievement> := map[
    "first_note" := Achievement("First Steps", "Play your first note correctly", 10),
    "perfect_streak" := Achievement("Perfect Streak", "Play 10 notes correctly in a row", 50),
    "sight_reader" := Achievement("Sight Reader", "Complete 100 notes in sight reading mode", 100),
    "speed_demon" := Achievement("Speed Demon", "Complete a session at 140+ BPM", 150),
    "grand_master" := Achievement("Grand Master", "Reach expert level", 500)
  ]

  datatype AchievementResponse =
    | Awarded(achievement: Achievement, xpGained: int, newLevel: int)
    | InvalidAchievement

  /** The statistics after earning achievement `id`: recorded once, with
      its points; earning it again changes nothing. */
  function Award(s: Stats, id: string): (r: Stats)
    requires id in Achievements
    ensures id in s.achievements ==> r == s
    ensures id !in s.achievements ==>
      && r.achievements == s.achievements + [id]
      && r.experiencePoints == s.experiencePoints + Achievements[id].points
      && r.level == LevelFor(r.experiencePoints)
    ensures r.(achievements := s.achievements, experiencePoints := s.experiencePoints, level := s.level) == s
    ensures id in r.achievements
  {
    if id in s.achievements then s
    else
      var xp := s.experiencePoints + Achievements[id].points;
      s.(achievements := s.achievements + [id], experiencePoints := xp, level := LevelFor(xp))
  }

  predicate NoDuplicates(ids: seq<string>) {
    forall i, j :: 0 <= i < j < |ids| ==> ids[i] != ids[j]
  }

  /** Awarding keeps the list free of repeats, and awarding twice is
      awarding once. */
  lemma AwardOnce(s: Stats, id: string)
    requires id in Achievements
    ensures NoDuplicates(s.achievements) ==> NoDuplicates(Award(s, id).achievements)
    ensures Award(Award(s, id), id) == Award(s, id)
  {
    if NoDuplicates(s.achievements) && id !in s.achievements {
      var a := Award(s, id).achievements;
      forall i, j | 0 <= i < j < |a|
        ensures a[i] != a[j]
      {
        if j == |a| - 1 {
          assert a[i] in s.achievements;
        }
      }
    }
  }

  /* ---------------------------------------------------------------------
     Settings (get_user_settings, srt_save_user_setting, srt_get_user_setting)
     --------------------------------------------------------------------- */

  const DefaultSettings: map<string, Value> := map[
    "staff_type" := Str("grand"),
    "difficulty" := Str("elementary"),
    "tempo" := Int(100),
    "volume" := Int(75),
    "metronome_enabled" := Bool(false),
    "sound_pack" := Str("salamander"),
    "notation_system" := Str("international"),
    "display_notes" := Bool(true),
    "octave_count" := Int(7),
    "key_signature" := Str("C"),
    "note_range_min" := Str("C3"),
    "note_range_max" := Str("C6"),
    "notes_count" := Int(2),
    "hands_count" := Int(2),
    "generator_type" := Str("random"),
    "midi_device" := Str(""),
    "midi_through" := Bool(false),
    "mode" := Str("wait")
  ]

  /** The settings stored for `uid`, or none (`get_user_meta(...) ?: array()`). */
  function StoredSettings(stored: map<int, map<string, Value>>, uid: int): map<string, Value> {
    if uid in stored then stored[uid] else map[]
  }

  /** `get_user_settings`: every default, overridden by what a logged-in
      user has stored (`array_merge`, which keeps a stored null). */
  function UserSettings(stored: map<int, map<string, Value>>, userId: int, currentUser: int): (s: map<string, Value>)
    ensures var uid := if userId == 0 then currentUser else userId;
      s.Keys == DefaultSettings.Keys + (if uid > 0 then StoredSettings(stored, uid).Keys else {})
    ensures var uid := if userId == 0 then currentUser else userId;
      forall k :: k in s ==>
        if uid > 0 && k in StoredSettings(stored, uid) then s[k] == StoredSettings(stored, uid)[k]
        else k in DefaultSettings && s[k] == DefaultSettings[k]
  {
    var uid := if userId == 0 then currentUser else userId;
    if uid > 0 then DefaultSettings + StoredSettings(stored, uid) else DefaultSettings
  }

  /** `srt_get_user_setting`: the stored value when it is set and not null
      (`isset`), else `default`. */
  function GetSetting(stored: map<int, map<string, Value>>, key: string, default: Value, userId: int, currentUser: int): (v: Value)
    ensures var uid := if userId == 0 then currentUser else userId;
      uid <= 0 ==> v == default
    ensures var uid := if userId == 0 then currentUser else userId;
      var mine := StoredSettings(stored, uid);
      v != default ==> uid > 0 && key in mine && v == mine[key] && v != Null
    ensures var uid := if userId == 0 then currentUser else userId;
      var mine := StoredSettings(stored, uid);
      uid > 0 && key in mine && mine[key] != Null ==> v == mine[key]
  {
    var uid := if userId == 0 then currentUser else userId;
    if uid > 0 then
      var settings := StoredSettings(stored, uid);
      if key in settings && settings[key] != Null then settings[key] else default
    else default
  }

  /** `srt_save_user_setting`: the new settings table, and whether the save
      happened (only for a logged-in user). */
  function SaveSetting(stored: map<int, map<string, Value>>, key: string, value: Value, userId: int, currentUser: int)
    : (r: (map<int, map<string, Value>>, bool))
    ensures var uid := if userId == 0 then currentUser else userId;
      r.1 <==> uid > 0
    ensures var uid := if userId == 0 then currentUser else userId;
      uid > 0 ==> uid in r.0 && key in r.0[uid] && r.0[uid][key] == value
    ensures var uid := if userId == 0 then currentUser else userId;
      forall k :: k != key ==>
        (k in StoredSettings(r.0, uid) <==> k in StoredSettings(stored, uid))
        && (k in StoredSettings(stored, uid) ==> StoredSettings(r.0, uid)[k] == StoredSettings(stored, uid)[k])
    ensures var uid := if userId == 0 then currentUser else userId;
      forall other :: other != uid ==>
        (other in r.0 <==> other in stored) && (other in stored ==> r.0[other] == stored[other])
    ensures var uid := if userId == 0 then currentUser else userId;
      uid <= 0 ==> r.0 == stored
  {
    var uid := if userId == 0 then currentUser else userId;
    if uid > 0 then (stored[uid := StoredSettings(stored, uid)[key := value]], true)
    else (stored, false)
  }

  /** Saving then reading a setting gives back the saved value, unless it is
      null, which reads as the default; without a user the save does
      nothing and the read gives the default. Other users' settings and
      other keys are untouched. */
  lemma SaveThenGet(stored: map<int, map<string, Value>>, key: string, value: Value, default: Value,
                    userId: int, currentUser: int)
    ensures var uid := if userId == 0 then currentUser else userId;
      var saved := SaveSetting(stored, key, value, userId, currentUser).0;
      && GetSetting(saved, key, default, userId, currentUser) ==
           (if uid > 0 && value != Null then value else default)
      && (forall other :: other != uid ==> StoredSettings(saved, other) == StoredSettings(stored, other))
      && (forall k :: k != key ==>
            GetSetting(saved, k, default, userId, currentUser) == GetSetting(stored, k, default, userId, currentUser))
  {
  }

  /** After a save, the merged settings show the saved value, a null
      included. */
  lemma SaveThenMerge(stored: map<int, map<string, Value>>, key: string, value: Value, userId: int, currentUser: int)
    requires (if userId == 0 then currentUser else userId) > 0
    ensures var saved := SaveSetting(stored, key, value, userId, currentUser).0;
      UserSettings(saved, userId, currentUser)[key] == value
  {
  }

  /** The in-place updates `ajax_save_session` makes to the loaded
      statistics array, one field at a time. */
  method UpdateStats(loaded: Stats, d: SessionData, now: string) returns (s: Stats)
    ensures s == RecordSession(loaded, d, now)
  {
    s := loaded;
    s := s.(totalSessions := s.totalSessions + 1);
    s := s.(totalNotesPlayed := s.totalNotesPlayed + d.totalNotes);
    s := s.(totalCorrectNotes := s.totalCorrectNotes + d.correctNotes);
    s := s.(totalIncorrectNotes := s.totalIncorrectNotes + d.incorrectNotes);
    s := s.(totalPracticeTime := s.totalPracticeTime + d.duration);
    if s.totalNotesPlayed > 0 {
      s := s.(averageAccuracy := Percent(s.totalCorrectNotes, s.totalNotesPlayed));
    }
    if d.bestStreak > s.bestStreak {
      s := s.(bestStreak := d.bestStreak);
    }
    ghost var counted := s;
    s := s.(sessionHistory := s.sessionHistory + [Entry(d, now)]);
    if |s.sessionHistory| > HistoryLimit {
      s := s.(sessionHistory := s.sessionHistory[|s.sessionHistory| - HistoryLimit..]);
    }
    assert s == counted.(sessionHistory := KeepLast(loaded.sessionHistory + [Entry(d, now)]));
    var xpGained := d.correctNotes * 10 + d.bestStreak * 5;
    s := s.(experiencePoints := s.experiencePoints + xpGained);
    s := s.(level := s.experiencePoints / 1000 + 1);
    assert s == RecordSession(loaded, d, now);
  }

  /* ---------------------------------------------------------------------
     The user-meta table and the two AJAX handlers
     --------------------------------------------------------------------- */

  /** WordPress user meta, the two keys this plugin uses. */
  class UserMeta {
    var stats: map<int, Stats>
    var settings: map<int, map<string, Value>>

    constructor (stats: map<int, Stats>, settings: map<int, map<string, Value>>)
      ensures this.stats == stats && this.settings == settings
    {
      this.stats := stats;
      this.settings := settings;
    }

    /** `ajax_save_session` for the logged-in user `user`. `session` is the
        decoded post, `None` when it does not decode to a PHP array. */
    method AjaxSaveSession(user: int, session: Option<SessionData>, now: string) returns (response: SaveResponse)
      modifies this
      ensures settings == old(settings)
      ensures if user > 0 && session.Some? then
          var s := RecordSession(UserStats(old(stats), user, user), session.value, now);
          && stats == old(stats)[user := s]
          && response == Saved(SessionXp(session.value), s.level, s)
        else stats == old(stats) && response == InvalidSession
    {
      if user > 0 && session.Some? {
        var d := session.value;
        var loaded := UserStats(stats, user, user);
        var s := UpdateStats(loaded, d, now);
        stats := stats[user := s];
        return Saved(SessionXp(d), s.level, s);
      }
      return InvalidSession;
    }

    /** `ajax_update_achievement` for the logged-in user `user`: an unknown
        id, no user, or an achievement already earned is an error and
        changes nothing. */
    method AjaxUpdateAchievement(user: int, id: string) returns (response: AchievementResponse)
      modifies this
      ensures settings == old(settings)
      ensures if user > 0 && id in Achievements && id !in UserStats(old(stats), user, user).achievements then
          var s := Award(UserStats(old(stats), user, user), id);
          && stats == old(stats)[user := s]
          && response == Awarded(Achievements[id], Achievements[id].points, s.level)
        else stats == old(stats) && response == InvalidAchievement
    {
      if user > 0 && id in Achievements {
        var s := UserStats(stats, user, user);
        if id !in s.achievements {
          s := s.(achievements := s.achievements + [id]);
          s := s.(experiencePoints := s.experiencePoints + Achievements[id].points);
          s := s.(level := s.experiencePoints / 1000 + 1);
          stats := stats[user := s];
          return Awarded(Achievements[id], Achievements[id].points, s.level);
        }
      }
      return InvalidAchievement;
    }

    /** `srt_save_user_setting`. */
    method SaveUserSetting(key: string, value: Value, userId: int, currentUser: int) returns (saved: bool)
      modifies this
      ensures stats == old(stats)
      ensures (settings, saved) == SaveSetting(old(settings), key, value, userId, currentUser)
    {
      var uid := if userId == 0 then currentUser else userId;
      if uid > 0 {
        var mine := if uid in settings then settings[uid] else map[];
        mine := mine[key := value];
        settings := settings[uid := mine];
        return true;
      }
      return false;
    }
  }
}
