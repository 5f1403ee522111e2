/** The job itself: the two transformers, which issue their statements on the
    cursor step by step, the driver that runs one of them per discovered file and
    commits after each, and the entry point that runs the song directory and then
    the log directory. Each method is proved against the trace functions of
    Transform and Pipeline. */
module Etl {
  import opened Values
  import opened Records
  import opened Transform
  import opened Pipeline
  import opened Session

  /** process_song_file: the song insert, then the artist insert. */
  method ProcessSongFile(cur: Cursor, rec: SongRecord)
    modifies cur
    ensures cur.trace == old(cur.trace) + SongFileTrace(rec)
  {
    var songData := [rec.songId, rec.title, rec.artistId, rec.year, rec.duration];
    if IsZero(songData[3]) {
      songData := songData[3 := None];
    }
    assert songData == SongRow(rec);
    cur.Execute(SongInsert, songData);

    var artistData := NullBlanks(ArtistColumns(rec));
    cur.Execute(ArtistInsert, artistData);
  }

  /** The time loop of process_log_file: one time insert per kept event, in order. */
  method InsertTimeRows(cur: Cursor, kept: seq<LogEvent>, cal: Calendar)
    modifies cur
    ensures cur.trace == old(cur.trace) + TimePhase(kept, cal)
  {
    ghost var start := cur.trace;
    for i := 0 to |kept|
      invariant cur.trace == start + TimePhase(kept[..i], cal)
    {
      cur.Execute(TimeInsert, TimeRow(kept[i], cal));
      TimePhaseSnoc(kept, i, cal);
      AppendAssoc(start, TimePhase(kept[..i], cal), [TimeOp(kept[i], cal)]);
    }
    assert kept[..|kept|] == kept;
  }

  /** The user loop of process_log_file: one user insert per kept event, in order. */
  method InsertUserRows(cur: Cursor, kept: seq<LogEvent>)
    modifies cur
    ensures cur.trace == old(cur.trace) + UserPhase(kept)
  {
    ghost var start := cur.trace;
    for i := 0 to |kept|
      invariant cur.trace == start + UserPhase(kept[..i])
    {
      cur.Execute(UserInsert, UserRow(kept[i]));
      UserPhaseSnoc(kept, i);
      AppendAssoc(start, UserPhase(kept[..i]), [UserOp(kept[i])]);
    }
    assert kept[..|kept|] == kept;
  }

  /** The songplay loop of process_log_file: per kept event, the lookup select,
      the fetch of its result, and the songplay insert with the resolved ids. */
  method InsertSongplays(cur: Cursor, kept: seq<LogEvent>)
    modifies cur
    ensures cur.trace == old(cur.trace) + PlayPhase(kept, cur.lookup)
  {
    ghost var start := cur.trace;
    for i := 0 to |kept|
      invariant cur.trace == start + PlayPhase(kept[..i], cur.lookup)
    {
      var e := kept[i];
      cur.Execute(SongSelect, LookupKey(e));
      var results := cur.FetchOne();
      var songId, artistId;
      if results.Some? {
        songId, artistId := Some(Text(results.value.songId)), Some(Text(results.value.artistId));
      } else {
        songId, artistId := None, None;
      }
      assert (songId, artistId) == ResolvedIds(cur.lookup(LookupKey(e)));
      cur.Execute(SongplayInsert, SongplayRow(e, songId, artistId));
      PlayPhaseSnoc(kept, i, cur.lookup);
      AppendAssoc(start, PlayPhase(kept[..i], cur.lookup), [SelectOp(e), SongplayOp(e, cur.lookup)]);
    }
    assert kept[..|kept|] == kept;
  }

  /** process_log_file: over the 'NextSong' events, the time inserts, then the user
      inserts, then per event the lookup and the songplay insert. */
  method ProcessLogFile(cur: Cursor, events: seq<LogEvent>, cal: Calendar)
    modifies cur
    ensures cur.trace == old(cur.trace) + LogFileTrace(events, cal, cur.lookup)
  {
    var kept := Kept(events);
    ghost var start := cur.trace;
    InsertTimeRows(cur, kept, cal);
    InsertUserRows(cur, kept);
    InsertSongplays(cur, kept);
    AppendAssoc(start, TimePhase(kept, cal), UserPhase(kept));
    AppendAssoc(start + TimePhase(kept, cal), UserPhase(kept), PlayPhase(kept, cur.lookup));
    AppendAssoc(start, TimePhase(kept, cal) + UserPhase(kept), PlayPhase(kept, cur.lookup));
  }

  /** `func(cur, datafile)`: the transformer the file is read by. */
  method ProcessFile(cur: Cursor, f: DataFile, cal: Calendar)
    modifies cur
    ensures cur.trace == old(cur.trace) + FileTrace(f, cal, cur.lookup)
  {
    match f
    case SongFile(rec) => ProcessSongFile(cur, rec);
    case LogFile(events) => ProcessLogFile(cur, events, cal);
  }

  /** A progress line: `done` of `total` files processed. */
  datatype Progress = Progress(done: nat, total: nat)

  /** process_data over the discovered files `allFiles`, in discovery order: each
      file is transformed and then committed, and a progress report follows each
      commit. */
  method ProcessData(cur: Cursor, conn: Connection, allFiles: seq<DataFile>, cal: Calendar)
    returns (reports: seq<Progress>)
    requires conn.cursor == cur
    modifies cur
    ensures cur.trace == old(cur.trace) + DataTrace(allFiles, cal, cur.lookup)
    ensures cur.Commits() == old(cur.Commits()) + |allFiles|
    ensures |reports| == |allFiles|
    ensures forall k | 0 <= k < |reports| :: reports[k] == Progress(k + 1, |allFiles|)
  {
    var numFiles := |allFiles|;
    ghost var start := cur.trace;
    reports := [];
    for i := 0 to numFiles
      invariant cur.trace == start + DataTrace(allFiles[..i], cal, cur.lookup)
      invariant |reports| == i
      invariant forall k | 0 <= k < i :: reports[k] == Progress(k + 1, numFiles)
    {
      ghost var before := cur.trace;
      ProcessFile(cur, allFiles[i], cal);
      conn.Commit();
      reports := reports + [Progress(i + 1, numFiles)];
      DataTraceSnoc(allFiles, i, cal, cur.lookup);
      AppendAssoc(start, DataTrace(allFiles[..i], cal, cur.lookup), FileTrace(allFiles[i], cal, cur.lookup));
      AppendAssoc(start, DataTrace(allFiles[..i], cal, cur.lookup) + FileTrace(allFiles[i], cal, cur.lookup), [Committed]);
    }
    assert allFiles[..numFiles] == allFiles;
    DataTraceCommits(allFiles, cal, cur.lookup);
    CountAppend(start, DataTrace(allFiles, cal, cur.lookup), CommitKind);
  }

  /** main: the song directory first, then the log directory, then a last commit. */
  method RunEtl(conn: Connection, songFiles: seq<SongRecord>, logFiles: seq<seq<LogEvent>>, cal: Calendar)
    modifies conn.cursor
    ensures conn.cursor.trace == old(conn.cursor.trace) + RunTrace(songFiles, logFiles, cal, conn.cursor.lookup)
  {
    var cur := conn.cursor;
    ghost var start := cur.trace;
    var songReports := ProcessData(cur, conn, SongDirectory(songFiles), cal);
    var logReports := ProcessData(cur, conn, LogDirectory(logFiles), cal);
    conn.Commit();
    ghost var a, b := DataTrace(SongDirectory(songFiles), cal, cur.lookup), DataTrace(LogDirectory(logFiles), cal, cur.lookup);
    AppendAssoc(start, a, b);
    AppendAssoc(start, a + b, [Committed]);
  }
}
