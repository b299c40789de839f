/** Restoring a file of records (cpersona/admin_handlers.py, the `_import_*_record`
    handlers): memories and episodes through the dedup gate, profiles by their stamps, and a
    preview that reports what the restore would do. */
module ImportRun {
  import opened Common
  import opened AgentRows
  import opened EpisodeIndex
  import opened AgentCopy
  import opened AgentMerge

  /** A stored profile, by its (agent, user) key. */
  datatype Stored = Stored(content: Value, project: Value, updatedAt: Value)

  type ProfileKey = (Agent, Value)

  /** What became of a profile line. */
  datatype Outcome = Restored | NoContent | Unstorable | Emptied | AlreadyFromThisFile | StoredIsNewer

  /** A record of the file under its agent. `storable` is false when a value of it cannot be
      bound; a profile's stamp may be absent. */
  datatype Line =
    | MemoryLine(row: Row, storable: bool)
    | EpisodeLine(row: Row, storable: bool)
    | ProfileLine(agent: Agent, user: Value, content: Value, project: Value, stamp: Option<Value>, storable: bool)

  /** What the run is given: the sanitisers, how a stamp reads as a time, and the clock. */
  datatype Reader = Reader(clean: Value -> Value, cleanProfile: Value -> Value, time: Value -> Option<int>, now: Value)

  datatype Importing = Importing(memories: Copying, episodes: Copying,
                                 profiles: map<ProfileKey, Stored>, restored: set<ProfileKey>, outcomes: seq<Outcome>)

  predicate Fits(line: Line) {
    match line
    case MemoryLine(row, _) => row.Memory?
    case EpisodeLine(row, _) => row.Episode?
    case ProfileLine(_, _, _, _, _, _) => true
  }

  function Skip(st: Copying): Copying {
    st.(skipped := st.skipped + 1)
  }

  function MemoryImported(st: Copying, row: Row, storable: bool, rd: Reader, run: Run): Copying
    requires row.Memory?
  {
    if Empty(row.content) || !storable || Empty(rd.clean(row.content)) then Skip(st)
    else Offer(st, 0, row.(content := rd.clean(row.content)), run)
  }

  function EpisodeImported(st: Copying, row: Row, storable: bool, rd: Reader, run: Run): Copying
    requires row.Episode?
  {
    if Empty(row.summary) then st
    else if !storable || Empty(rd.clean(row.summary)) then Skip(st)
    else Offer(st, 0, row.(summary := rd.clean(row.summary)), run)
  }

  /** The stored profile is newer than the file's: both stamps read as times, the stored one
      later. A stamp that does not read makes no claim to be older. */
  predicate StaysNewer(profiles: map<ProfileKey, Stored>, key: ProfileKey, stamp: Option<Value>, rd: Reader) {
    && stamp.Some? && rd.time(stamp.value).Some? && key in profiles && rd.time(profiles[key].updatedAt).Some?
    && rd.time(profiles[key].updatedAt).value > rd.time(stamp.value).value
  }

  function OutcomeOf(st: Importing, line: Line, rd: Reader): Outcome
    requires line.ProfileLine?
  {
    if Empty(line.content) then NoContent
    else if !line.storable then Unstorable
    else if Empty(rd.cleanProfile(line.content)) then Emptied
    else if (line.agent, line.user) in st.restored then AlreadyFromThisFile
    else if StaysNewer(st.profiles, (line.agent, line.user), line.stamp, rd) then StoredIsNewer
    else Restored
  }

  /** The upsert keeps the project a stored profile already has. */
  function Upserted(profiles: map<ProfileKey, Stored>, line: Line, rd: Reader): map<ProfileKey, Stored>
    requires line.ProfileLine?
  {
    var key := (line.agent, line.user);
    profiles[key := Stored(rd.cleanProfile(line.content),
                           if key in profiles then profiles[key].project else line.project,
                           if line.stamp.Some? then line.stamp.value else rd.now)]
  }

  function ProfileImported(st: Importing, line: Line, rd: Reader, dry: bool): Importing
    requires line.ProfileLine?
  {
    var outcome := OutcomeOf(st, line, rd);
    st.(
      outcomes := st.outcomes + [outcome],
      restored := if outcome.Restored? then st.restored + {(line.agent, line.user)} else st.restored,
      profiles := if outcome.Restored? && !dry then Upserted(st.profiles, line, rd) else st.profiles)
  }

  function LineImported(st: Importing, line: Line, rd: Reader, run: Run): Importing
    requires Fits(line)
  {
    match line
    case MemoryLine(row, storable) => st.(memories := MemoryImported(st.memories, row, storable, rd, run))
    case EpisodeLine(row, storable) => st.(episodes := EpisodeImported(st.episodes, row, storable, rd, run))
    case ProfileLine(_, _, _, _, _, _) => ProfileImported(st, line, rd, run.dry)
  }

  function Imported(st: Importing, lines: seq<Line>, n: nat, rd: Reader, run: Run): Importing
    requires n <= |lines| && forall i | 0 <= i < |lines| :: Fits(lines[i])
  {
    if n == 0 then st else LineImported(Imported(st, lines, n - 1, rd, run), lines[n-1], rd, run)
  }

  function Begin(memories: Table, lastMemory: nat, episodes: Table, lastEpisode: nat, profiles: map<ProfileKey, Stored>): Importing {
    Importing(Start(memories, lastMemory), Start(episodes, lastEpisode), profiles, {}, [])
  }

  // ---- the preview --------------------------------------------------------------------------

  /** Whether the insert a line comes to, if it comes to one, is taken. */
  predicate Taken(st: Importing, line: Line, rd: Reader, run: Run)
    requires Fits(line)
  {
    match line
    case MemoryLine(row, storable) =>
      var clean := row.(content := rd.clean(row.content));
      Empty(row.content) || !storable || Hollow(clean) || Duplicate(st.memories, clean, false) || run.takes(clean)
    case EpisodeLine(row, storable) =>
      var clean := row.(summary := rd.clean(row.summary));
      Empty(row.summary) || !storable || Hollow(clean) || Duplicate(st.episodes, clean, false) || run.takes(clean)
    case ProfileLine(_, _, _, _, _, _) => true
  }

  ghost predicate AllTaken(st: Importing, lines: seq<Line>, rd: Reader, run: Run)
    requires forall i | 0 <= i < |lines| :: Fits(lines[i])
  {
    forall i | 0 <= i < |lines| :: Taken(Imported(st, lines, i, rd, run), lines[i], rd, run)
  }

  /** One table on both arms. */
  ghost predicate Tracks(done: Copying, dry: Copying, start: Copying, run: Run) {
    Mirrors(done, dry, start, [], 0, run)
  }

  /** The profiles on both arms: the same outcomes and the same keys restored, and no stored
      profile changed but under those. */
  ghost predicate TracksProfiles(done: Importing, dry: Importing, start: Importing) {
    && done.outcomes == dry.outcomes && done.restored == dry.restored && dry.profiles == start.profiles
    && (forall k | k !in done.restored :: (k in done.profiles <==> k in start.profiles)
          && (k in start.profiles ==> done.profiles[k] == start.profiles[k]))
  }

  lemma {:induction false} OfferTracks(done: Copying, dry: Copying, start: Copying, row: Row, run: Run)
    requires Tracks(done, dry, start, run) && run.remembers
    requires !Hollow(row) && !Duplicate(done, row, false) ==> run.takes(row)
    ensures Tracks(Offer(done, 0, row, run.(dry := false)), Offer(dry, 0, row, run.(dry := true)), start, run)
  {
    var offers := [Offered(0, row)];
    assert Mirrors(done, dry, start, offers, 0, run);
    MirrorsNext(done, dry, start, offers, 0, run);
  }

  lemma {:induction false} SkipTracks(done: Copying, dry: Copying, start: Copying, run: Run)
    requires Tracks(done, dry, start, run) && run.remembers
    ensures Tracks(Skip(done), Skip(dry), start, run)
  {
  }

  lemma {:induction false} ProfileTracks(done: Importing, dry: Importing, start: Importing, line: Line, rd: Reader)
    requires line.ProfileLine? && TracksProfiles(done, dry, start)
    ensures TracksProfiles(ProfileImported(done, line, rd, false), ProfileImported(dry, line, rd, true), start)
  {
    assert OutcomeOf(done, line, rd) == OutcomeOf(dry, line, rd);
  }

  ghost predicate TracksAll(done: Importing, dry: Importing, start: Importing, run: Run) {
    && Tracks(done.memories, dry.memories, start.memories, run)
    && Tracks(done.episodes, dry.episodes, start.episodes, run)
    && TracksProfiles(done, dry, start)
  }

  lemma {:induction false} LineTracks(done: Importing, dry: Importing, start: Importing, line: Line, rd: Reader, run: Run)
    requires TracksAll(done, dry, start, run) && run.remembers && Fits(line) && Taken(done, line, rd, run)
    ensures TracksAll(LineImported(done, line, rd, run.(dry := false)), LineImported(dry, line, rd, run.(dry := true)), start, run)
  {
    match line {
      case MemoryLine(row, storable) =>
        SkipTracks(done.memories, dry.memories, start.memories, run);
        if !(Empty(row.content) || !storable || Empty(rd.clean(row.content))) {
          OfferTracks(done.memories, dry.memories, start.memories, row.(content := rd.clean(row.content)), run);
        }
      case EpisodeLine(row, storable) =>
        SkipTracks(done.episodes, dry.episodes, start.episodes, run);
        if !(Empty(row.summary) || !storable || Empty(rd.clean(row.summary))) {
          OfferTracks(done.episodes, dry.episodes, start.episodes, row.(summary := rd.clean(row.summary)), run);
        }
      case ProfileLine(_, _, _, _, _, _) => ProfileTracks(done, dry, start, line, rd);
    }
  }

  lemma {:induction false} ImportTracks(start: Importing, lines: seq<Line>, n: nat, rd: Reader, run: Run)
    requires n <= |lines| && run.remembers && forall i | 0 <= i < |lines| :: Fits(lines[i])
    requires TracksAll(start, start, start, run) && AllTaken(start, lines, rd, run.(dry := false))
    ensures TracksAll(Imported(start, lines, n, rd, run.(dry := false)), Imported(start, lines, n, rd, run.(dry := true)), start, run)
  {
    if n > 0 {
      ImportTracks(start, lines, n - 1, rd, run);
      var done, dry := Imported(start, lines, n - 1, rd, run.(dry := false)), Imported(start, lines, n - 1, rd, run.(dry := true));
      assert Taken(done, lines[n-1], rd, run.(dry := false));
      LineTracks(done, dry, start, lines[n-1], rd, run);
    }
  }

  /** An import's dry run tells the truth: for any file whose probed inserts succeed, the
      same memories and episodes imported and skipped and the same fate of every profile
      line, repeats within the file included; and it writes and queues nothing. */
  lemma {:induction false} ImportPreviewTellsTheTruth(memories: Table, lastMemory: nat, episodes: Table, lastEpisode: nat,
                                                      profiles: map<ProfileKey, Stored>, lines: seq<Line>, rd: Reader, run: Run)
    requires Numbered(memories, lastMemory) && Numbered(episodes, lastEpisode) && run.remembers
    requires forall i | 0 <= i < |lines| :: Fits(lines[i])
    requires var start := Begin(memories, lastMemory, episodes, lastEpisode, profiles);
      AllTaken(start, lines, rd, run.(dry := false))
    ensures var start := Begin(memories, lastMemory, episodes, lastEpisode, profiles);
      var done, dry := Imported(start, lines, |lines|, rd, run.(dry := false)), Imported(start, lines, |lines|, rd, run.(dry := true));
      && dry.memories.merged == done.memories.merged && dry.memories.skipped == done.memories.skipped
      && dry.episodes.merged == done.episodes.merged && dry.episodes.skipped == done.episodes.skipped
      && dry.outcomes == done.outcomes
      && dry.memories.rows == memories && dry.episodes.rows == episodes && dry.profiles == profiles
      && dry.memories.landed == [] && dry.episodes.landed == []
  {
    var start := Begin(memories, lastMemory, episodes, lastEpisode, profiles);
    StartTracks(start.memories, run);
    StartTracks(start.episodes, run);
    ImportTracks(start, lines, |lines|, rd, run);
  }

  lemma {:induction false} StartTracks(start: Copying, run: Run)
    requires Numbered(start.rows, start.last) && run.remembers && start.seen == {}
    ensures Tracks(start, start, start, run)
  {
  }

  // ---- what a restore does to profiles ----------------------------------------------------------

  /** The stored profile says it is newer: its stamp and the line's both read as times, and its
      own is later. */
  predicate Outdated(line: Line, profiles: map<ProfileKey, Stored>, rd: Reader)
    requires line.ProfileLine?
  {
    && (line.agent, line.user) in profiles && line.stamp.Some?
    && rd.time(line.stamp.value).Some? && rd.time(profiles[(line.agent, line.user)].updatedAt).Some?
    && rd.time(line.stamp.value).value < rd.time(profiles[(line.agent, line.user)].updatedAt).value
  }

  /** A line has content that can be stored and is something once cleaned. */
  predicate Readable(line: Line, rd: Reader)
    requires line.ProfileLine?
  {
    && line.content != NoText && line.content != NoBytes && line.storable
    && rd.cleanProfile(line.content) != NoText && rd.cleanProfile(line.content) != NoBytes
  }

  /** A line for a profile that would replace the one stored before the run. */
  predicate Restores(line: Line, key: ProfileKey, profiles: map<ProfileKey, Stored>, rd: Reader) {
    line.ProfileLine? && (line.agent, line.user) == key && Readable(line, rd) && !Outdated(line, profiles, rd)
  }

  /** What a line leaves stored: the project a stored profile already has is kept. */
  predicate StoredAs(now: Stored, line: Line, profiles: map<ProfileKey, Stored>, rd: Reader)
    requires line.ProfileLine?
  {
    && now.content == rd.cleanProfile(line.content)
    && now.project == (if (line.agent, line.user) in profiles then profiles[(line.agent, line.user)].project else line.project)
    && now.updatedAt == (if line.stamp.Some? then line.stamp.value else rd.now)
  }

  /** What the run reports of a line. */
  predicate Reports(o: Outcome, line: Line, profiles: map<ProfileKey, Stored>, restored: set<ProfileKey>, rd: Reader)
    requires line.ProfileLine?
  {
    && (o.NoContent? <==> line.content == NoText || line.content == NoBytes)
    && (o.Unstorable? <==> line.content != NoText && line.content != NoBytes && !line.storable)
    && (o.AlreadyFromThisFile? <==> Readable(line, rd) && (line.agent, line.user) in restored)
    && (o.StoredIsNewer? <==> Readable(line, rd) && (line.agent, line.user) !in restored && Outdated(line, profiles, rd))
    && (o.Restored? <==> Readable(line, rd) && (line.agent, line.user) !in restored && !Outdated(line, profiles, rd))
  }

  ghost predicate FirstToRestore(lines: seq<Line>, n: nat, i: nat, key: ProfileKey, profiles: map<ProfileKey, Stored>, rd: Reader) {
    i < n <= |lines| && Restores(lines[i], key, profiles, rd) && forall j | 0 <= j < i :: !Restores(lines[j], key, profiles, rd)
  }

  /** A restore never moves a profile backwards, and the first line of a key that does not is
      the one that stands: its text cleaned, its stamp or the clock, in the project stored
      before. A profile no line restores is as it was. */
  lemma {:induction false} FirstLineStands(start: Importing, lines: seq<Line>, n: nat, rd: Reader, run: Run, key: ProfileKey)
    requires n <= |lines| && !run.dry && start.restored == {} && forall i | 0 <= i < |lines| :: Fits(lines[i])
    ensures var now := Imported(start, lines, n, rd, run);
      if key in now.restored then
        exists i: nat :: FirstToRestore(lines, n, i, key, start.profiles, rd)
          && key in now.profiles && StoredAs(now.profiles[key], lines[i], start.profiles, rd)
      else
        && (forall i | 0 <= i < n :: !Restores(lines[i], key, start.profiles, rd))
        && (key in now.profiles <==> key in start.profiles) && (key in start.profiles ==> now.profiles[key] == start.profiles[key])
  {
    if n > 0 {
      FirstLineStands(start, lines, n - 1, rd, run, key);
      var before, now := Imported(start, lines, n - 1, rd, run), Imported(start, lines, n, rd, run);
      if key in before.restored {
        var i: nat :| FirstToRestore(lines, n - 1, i, key, start.profiles, rd) && StoredAs(before.profiles[key], lines[i], start.profiles, rd);
        assert FirstToRestore(lines, n, i, key, start.profiles, rd);
      } else if key in now.restored {
        assert FirstToRestore(lines, n, n - 1, key, start.profiles, rd);
      }
    }
  }

  // ---- what a restore does to memories and episodes -----------------------------------------------

  /** A row is a line's, its text cleaned and nothing else changed. */
  predicate Cleans(line: Line, row: Row, rd: Reader)
    requires Fits(line)
  {
    Speaks(row) &&
    match line
    case MemoryLine(src, storable) =>
      && storable && src.content != NoText && src.content != NoBytes
      && row.Memory? && row.agent == src.agent && row.project == src.project && row.channel == src.channel
      && row.msgId == src.msgId && row.rest == src.rest && row.content == rd.clean(src.content)
    case EpisodeLine(src, storable) =>
      && storable && src.summary != NoText && src.summary != NoBytes
      && row.Episode? && row.agent == src.agent && row.project == src.project && row.channel == src.channel
      && row.rest == src.rest && row.summary == rd.clean(src.summary)
    case ProfileLine(_, _, _, _, _, _) => false
  }

  ghost predicate FromLine(lines: seq<Line>, n: nat, row: Row, rd: Reader)
    requires n <= |lines| && forall i | 0 <= i < |lines| :: Fits(lines[i])
  {
    exists i :: 0 <= i < n && Cleans(lines[i], row, rd)
  }

  /** The database takes no such row, or the table has one like it. */
  ghost predicate Known(rows: Table, row: Row, run: Run) {
    !run.takes(row) || exists id :: id in rows && Alike(row, rows[id])
  }

  /** Whether a table's tally counts a line: an episode without a summary is passed over. */
  predicate Counts(line: Line, ofMemories: bool) {
    if ofMemories then line.MemoryLine? else line.EpisodeLine? && line.row.Episode? && line.row.summary != NoText && line.row.summary != NoBytes
  }

  function Counted(lines: seq<Line>, n: nat, ofMemories: bool): set<nat>
    requires n <= |lines|
  {
    set i: nat | i < n && Counts(lines[i], ofMemories)
  }

  /** A table after the first `n` lines: every new row is a line's and was let through, and
      every line of its kind is answered. */
  ghost predicate TableRestored(start: Copying, now: Copying, lines: seq<Line>, n: nat, rd: Reader, run: Run, ofMemories: bool)
    requires n <= |lines| && forall i | 0 <= i < |lines| :: Fits(lines[i])
  {
    && Gated(start, now, run)
    && (forall id | id in now.rows && id !in start.rows :: now.rows[id].Memory? == ofMemories && FromLine(lines, n, now.rows[id], rd))
    && (forall i, row | 0 <= i < n && Cleans(lines[i], row, rd) && row.Memory? == ofMemories :: Known(now.rows, row, run))
  }

  lemma {:induction false} KnownStays(now: Copying, src: nat, row: Row, run: Run, other: Row)
    requires Numbered(now.rows, now.last) && Known(now.rows, other, run)
    ensures Known(Offer(now, src, row, run).rows, other, run)
  {
    var next := Offer(now, src, row, run);
    if run.takes(other) {
      var id :| id in now.rows && Alike(other, now.rows[id]);
      assert id in next.rows && next.rows[id] == now.rows[id];
    }
  }

  /** One row offered: at most that row is new, and it is answered. */
  lemma {:induction false} OfferRestores(start: Copying, now: Copying, row: Row, run: Run)
    requires !run.dry && Numbered(start.rows, start.last) && Gated(start, now, run) && Speaks(row)
    ensures var next := Offer(now, 0, row, run);
      && Gated(start, next, run) && Known(next.rows, row, run)
      && (forall id | id in next.rows && id !in now.rows :: next.rows[id] == row)
      && (forall id | id in now.rows :: id in next.rows && next.rows[id] == now.rows[id])
  {
    GatedNext(start, now, 0, row, run);
    OfferAnswers(now, 0, row, run);
    AnsweredIsKnown(Offer(now, 0, row, run).rows, row, run);
  }

  /** A line that is offered. */
  lemma {:induction false} LineOffered(start: Copying, now: Copying, lines: seq<Line>, n: nat, m: nat, rd: Reader, run: Run, ofMemories: bool, row: Row)
    requires m == n + 1 && m <= |lines| && (forall i | 0 <= i < |lines| :: Fits(lines[i])) && !run.dry
    requires Numbered(start.rows, start.last) && TableRestored(start, now, lines, n, rd, run, ofMemories)
    requires Cleans(lines[n], row, rd) && row.Memory? == ofMemories
    ensures TableRestored(start, Offer(now, 0, row, run), lines, m, rd, run, ofMemories)
  {
    var next := Offer(now, 0, row, run);
    OfferRestores(start, now, row, run);
    forall id | id in next.rows && id !in start.rows ensures next.rows[id].Memory? == ofMemories && FromLine(lines, m, next.rows[id], rd) {
      if id in now.rows {
        assert FromLine(lines, n, now.rows[id], rd);
      } else {
        assert Cleans(lines[n], next.rows[id], rd);
      }
    }
    forall i, other | 0 <= i < m && Cleans(lines[i], other, rd) && other.Memory? == ofMemories ensures Known(next.rows, other, run) {
      if i < n {
        KnownStays(now, 0, row, run, other);
      } else {
        assert other == row;
      }
    }
  }

  /** A line that is not. */
  lemma {:induction false} LinePassed(start: Copying, now: Copying, next: Copying, lines: seq<Line>, n: nat, m: nat, rd: Reader, run: Run, ofMemories: bool)
    requires m == n + 1 && m <= |lines| && forall i | 0 <= i < |lines| :: Fits(lines[i])
    requires TableRestored(start, now, lines, n, rd, run, ofMemories)
    requires forall row | Cleans(lines[n], row, rd) :: row.Memory? != ofMemories
    requires next == now || next == Skip(now)
    ensures TableRestored(start, next, lines, m, rd, run, ofMemories)
  {
    forall id | id in next.rows && id !in start.rows ensures FromLine(lines, m, next.rows[id], rd) {
      assert FromLine(lines, n, now.rows[id], rd);
    }
  }

  lemma {:induction false} LineRestores(start: Importing, now: Importing, next: Importing, lines: seq<Line>, n: nat, m: nat, rd: Reader, run: Run)
    requires m == n + 1 && m <= |lines| && (forall i | 0 <= i < |lines| :: Fits(lines[i])) && !run.dry
    requires Numbered(start.memories.rows, start.memories.last) && Numbered(start.episodes.rows, start.episodes.last)
    requires TableRestored(start.memories, now.memories, lines, n, rd, run, true)
    requires TableRestored(start.episodes, now.episodes, lines, n, rd, run, false)
    requires next == LineImported(now, lines[n], rd, run)
    ensures TableRestored(start.memories, next.memories, lines, m, rd, run, true)
    ensures TableRestored(start.episodes, next.episodes, lines, m, rd, run, false)
  {
    match lines[n] {
      case MemoryLine(row, storable) =>
        LinePassed(start.episodes, now.episodes, next.episodes, lines, n, m, rd, run, false);
        var clean := row.(content := rd.clean(row.content));
        if Empty(row.content) || !storable || Empty(rd.clean(row.content)) {
          LinePassed(start.memories, now.memories, next.memories, lines, n, m, rd, run, true);
        } else {
          LineOffered(start.memories, now.memories, lines, n, m, rd, run, true, clean);
        }
      case EpisodeLine(row, storable) =>
        LinePassed(start.memories, now.memories, next.memories, lines, n, m, rd, run, true);
        var clean := row.(summary := rd.clean(row.summary));
        if Empty(row.summary) || !storable || Empty(rd.clean(row.summary)) {
          LinePassed(start.episodes, now.episodes, next.episodes, lines, n, m, rd, run, false);
        } else {
          LineOffered(start.episodes, now.episodes, lines, n, m, rd, run, false, clean);
        }
      case ProfileLine(_, _, _, _, _, _) =>
        LinePassed(start.memories, now.memories, next.memories, lines, n, m, rd, run, true);
        LinePassed(start.episodes, now.episodes, next.episodes, lines, n, m, rd, run, false);
    }
  }

  /** A restore brings back exactly the memories and episodes of the file that are not there
      already: every new row is a line's with its text cleaned, no two are alike nor like one
      that was there, and every readable line is answered. */
  lemma {:induction false} FileIsRestored(start: Importing, lines: seq<Line>, n: nat, rd: Reader, run: Run)
    requires n <= |lines| && (forall i | 0 <= i < |lines| :: Fits(lines[i])) && !run.dry
    requires Numbered(start.memories.rows, start.memories.last) && Numbered(start.episodes.rows, start.episodes.last)
    ensures TableRestored(start.memories, Imported(start, lines, n, rd, run).memories, lines, n, rd, run, true)
    ensures TableRestored(start.episodes, Imported(start, lines, n, rd, run).episodes, lines, n, rd, run, false)
  {
    if n > 0 {
      var m := n - 1;
      FileIsRestored(start, lines, m, rd, run);
      LineRestores(start, Imported(start, lines, m, rd, run), Imported(start, lines, n, rd, run), lines, m, n, rd, run);
    }
  }

  /** What a line adds to a table's counts. */
  ghost predicate CountsOne(st: Copying, next: Copying, counts: bool) {
    && next.merged + next.skipped == st.merged + st.skipped + (if counts then 1 else 0)
    && |next.rows.Keys| - next.merged == |st.rows.Keys| - st.merged && Numbered(next.rows, next.last)
  }

  lemma {:induction false} OfferCounts(st: Copying, row: Row, run: Run)
    requires Numbered(st.rows, st.last) && !run.dry && !Hollow(row)
    ensures CountsOne(st, Offer(st, 0, row, run), true)
  {
    assert st.rows[st.last + 1 := row].Keys == st.rows.Keys + {st.last + 1};
  }

  lemma {:induction false} LineCounts(st: Importing, line: Line, rd: Reader, run: Run)
    requires Fits(line) && Numbered(st.memories.rows, st.memories.last) && Numbered(st.episodes.rows, st.episodes.last) && !run.dry
    ensures CountsOne(st.memories, LineImported(st, line, rd, run).memories, Counts(line, true))
    ensures CountsOne(st.episodes, LineImported(st, line, rd, run).episodes, Counts(line, false))
  {
    match line {
      case MemoryLine(row, storable) =>
        if !Empty(rd.clean(row.content)) {
          OfferCounts(st.memories, row.(content := rd.clean(row.content)), run);
        }
      case EpisodeLine(row, storable) =>
        if !Empty(rd.clean(row.summary)) {
          OfferCounts(st.episodes, row.(summary := rd.clean(row.summary)), run);
        }
      case ProfileLine(_, _, _, _, _, _) =>
    }
  }

  lemma {:induction false} OneMoreCounted(lines: seq<Line>, n: nat, m: nat, ofMemories: bool)
    requires m == n + 1 && m <= |lines|
    ensures |Counted(lines, m, ofMemories)| == |Counted(lines, n, ofMemories)| + if Counts(lines[n], ofMemories) then 1 else 0
  {
    var before, after := Counted(lines, n, ofMemories), Counted(lines, m, ofMemories);
    forall i ensures i in after <==> i in before || (i == n && Counts(lines[n], ofMemories)) {
    }
    OneMoreIn(before, after, n, Counts(lines[n], ofMemories));
  }

  /** A restore counts each line once, as merged or skipped, but for episodes without a
      summary, and what it counts as merged is what the tables have gained. */
  lemma {:induction false} LinesAreCounted(start: Importing, lines: seq<Line>, n: nat, rd: Reader, run: Run)
    requires n <= |lines| && (forall i | 0 <= i < |lines| :: Fits(lines[i])) && !run.dry
    requires Numbered(start.memories.rows, start.memories.last) && Numbered(start.episodes.rows, start.episodes.last)
    ensures var m, now := start.memories, Imported(start, lines, n, rd, run).memories;
      && now.merged + now.skipped == m.merged + m.skipped + |Counted(lines, n, true)|
      && |now.rows.Keys| - now.merged == |m.rows.Keys| - m.merged && Numbered(now.rows, now.last)
    ensures var e, now := start.episodes, Imported(start, lines, n, rd, run).episodes;
      && now.merged + now.skipped == e.merged + e.skipped + |Counted(lines, n, false)|
      && |now.rows.Keys| - now.merged == |e.rows.Keys| - e.merged && Numbered(now.rows, now.last)
  {
    if n > 0 {
      var m := n - 1;
      LinesAreCounted(start, lines, m, rd, run);
      LineCounts(Imported(start, lines, m, rd, run), lines[m], rd, run);
      OneMoreCounted(lines, m, n, true);
      OneMoreCounted(lines, m, n, false);
    }
  }

  // ---- the code ---------------------------------------------------------------------------------

  /** One import run: the tables it writes and its tally. */
  class Restore {
    const memories: TablePass
    const episodes: TablePass
    var profiles: map<ProfileKey, Stored>
    var restored: set<ProfileKey>
    var outcomes: seq<Outcome>

    function State(): Importing
      reads this, memories, episodes
    {
      Importing(memories.State(), episodes.State(), profiles, restored, outcomes)
    }

    ghost predicate Valid()
      reads this, memories, episodes, memories.index, episodes.index
    {
      && memories.Valid() && episodes.Valid() && !memories.episodes && episodes.episodes
      && memories != episodes && memories.index != episodes.index
    }

    constructor (m: TablePass, e: TablePass, stored: map<ProfileKey, Stored>)
      requires m.Valid() && e.Valid() && !m.episodes && e.episodes && m != e && m.index != e.index
      ensures Valid() && memories == m && episodes == e
      ensures State() == Importing(m.State(), e.State(), stored, {}, [])
    {
      memories, episodes := m, e;
      profiles, restored, outcomes := stored, {}, [];
    }

    method ImportMemory(row: Row, storable: bool, rd: Reader, run: Run, limit: nat)
      requires Valid() && row.Memory? && limit > 0
      modifies memories, memories.index
      ensures Valid() && memories.State() == MemoryImported(old(memories.State()), row, storable, rd, run)
    {
      if Empty(row.content) || !storable {
        memories.CountSkip();
        return;
      }
      var content := rd.clean(row.content);
      if Empty(content) {
        memories.CountSkip();
        return;
      }
      memories.OfferRow(0, row.(content := content), run, limit);
    }

    method ImportEpisode(row: Row, storable: bool, rd: Reader, run: Run, limit: nat)
      requires Valid() && row.Episode? && limit > 0
      modifies episodes, episodes.index
      ensures Valid() && episodes.State() == EpisodeImported(old(episodes.State()), row, storable, rd, run)
    {
      if Empty(row.summary) {
        return;
      }
      if !storable {
        episodes.CountSkip();
        return;
      }
      var summary := rd.clean(row.summary);
      if Empty(summary) {
        episodes.CountSkip();
        return;
      }
      episodes.OfferRow(0, row.(summary := summary), run, limit);
    }

    method ImportProfile(line: Line, rd: Reader, dry: bool)
      requires line.ProfileLine?
      modifies this
      ensures State() == ProfileImported(old(State()), line, rd, dry)
      ensures |outcomes| == |old(outcomes)| + 1 && Reports(outcomes[|old(outcomes)|], line, old(profiles), old(restored), rd)
    {
      var key := (line.agent, line.user);
      var outcome := Restored;
      if Empty(line.content) {
        outcome := NoContent;
      } else if !line.storable {
        outcome := Unstorable;
      } else if Empty(rd.cleanProfile(line.content)) {
        outcome := Emptied;
      } else if key in restored {
        outcome := AlreadyFromThisFile;
      } else if StaysNewer(profiles, key, line.stamp, rd) {
        outcome := StoredIsNewer;
      } else {
        restored := restored + {key};
        if !dry {
          profiles := Upserted(profiles, line, rd);
        }
      }
      outcomes := outcomes + [outcome];
    }

    /** Restore a file, line by line. */
    method ImportFile(lines: seq<Line>, rd: Reader, run: Run, limit: nat)
      requires Valid() && limit > 0 && forall i | 0 <= i < |lines| :: Fits(lines[i])
      modifies this, memories, episodes, memories.index, episodes.index
      ensures Valid() && State() == Imported(old(State()), lines, |lines|, rd, run)
    {
      var i := 0;
      while i < |lines|
        invariant 0 <= i <= |lines| && Valid() && State() == Imported(old(State()), lines, i, rd, run)
      {
        match lines[i] {
          case MemoryLine(row, storable) => ImportMemory(row, storable, rd, run, limit);
          case EpisodeLine(row, storable) => ImportEpisode(row, storable, rd, run, limit);
          case ProfileLine(_, _, _, _, _, _) => ImportProfile(lines[i], rd, run.dry);
        }
        i := i + 1;
      }
    }
  }
}
