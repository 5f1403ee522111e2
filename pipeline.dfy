/** What the driver does with the discovered files, as a function of the files:
    each file's statements followed by a commit, file after file, and in a whole
    run the song directory before the log directory, with one closing commit. */
module Pipeline {
  import opened Values
  import opened Records
  import opened Transform

  /** A discovered file as its transformer reads it: a song file for
      process_song_file, a log file for process_log_file. */
  datatype DataFile = SongFile(record: SongRecord) | LogFile(events: seq<LogEvent>)

  /** What the transformer issues for one file. */
  function FileTrace(f: DataFile, cal: Calendar, lookup: Lookup): (t: seq<Op>)
  {
    match f
    case SongFile(rec) => SongFileTrace(rec)
    case LogFile(events) => LogFileTrace(events, cal, lookup)
  }

  /** What the driver issues for a list of files: per file, its statements and
      then a commit. */
  function DataTrace(files: seq<DataFile>, cal: Calendar, lookup: Lookup): (t: seq<Op>)
  {
    if files == [] then []
    else DataTrace(files[..|files| - 1], cal, lookup) + FileTrace(files[|files| - 1], cal, lookup) + [Committed]
  }

  function SongDirectory(songs: seq<SongRecord>): (files: seq<DataFile>)
    ensures |files| == |songs| && forall i | 0 <= i < |files| :: files[i] == SongFile(songs[i])
  {
    seq(|songs|, i requires 0 <= i < |songs| => SongFile(songs[i]))
  }

  function LogDirectory(logs: seq<seq<LogEvent>>): (files: seq<DataFile>)
    ensures |files| == |logs| && forall i | 0 <= i < |files| :: files[i] == LogFile(logs[i])
  {
    seq(|logs|, i requires 0 <= i < |logs| => LogFile(logs[i]))
  }

  /** A whole run: the song directory, then the log directory, then the final commit. */
  function RunTrace(songs: seq<SongRecord>, logs: seq<seq<LogEvent>>, cal: Calendar, lookup: Lookup): (t: seq<Op>)
  {
    DataTrace(SongDirectory(songs), cal, lookup) + DataTrace(LogDirectory(logs), cal, lookup) + [Committed]
  }

  // ------------------------------------------------------------------- commits

  /** Processing one more file extends the trace by its statements and a commit:
      the definition of DataTrace read at the prefix `files[..i + 1]`. */
  lemma {:induction false} DataTraceSnoc(files: seq<DataFile>, i: nat, cal: Calendar, lookup: Lookup)
    requires i < |files|
    ensures DataTrace(files[..i + 1], cal, lookup) == DataTrace(files[..i], cal, lookup) + FileTrace(files[i], cal, lookup) + [Committed]
  {
    assert files[..i + 1][..i] == files[..i];
  }

  lemma {:induction false} FileTraceNoCommit(f: DataFile, cal: Calendar, lookup: Lookup)
    ensures Count(FileTrace(f, cal, lookup), CommitKind) == 0
  {
    if f.LogFile? {
      LogFileCounts(f.events, cal, lookup);
    }
  }

  /** The prefix of the trace covering the first i files. */
  lemma {:induction false} DataTracePrefix(files: seq<DataFile>, i: nat, cal: Calendar, lookup: Lookup)
    requires i <= |files|
    ensures DataTrace(files[..i], cal, lookup) <= DataTrace(files, cal, lookup)
    decreases |files|
  {
    if i < |files| {
      var init := files[..|files| - 1];
      assert files[..i] == init[..i];
      DataTracePrefix(init, i, cal, lookup);
    } else {
      assert files[..i] == files;
    }
  }

  lemma {:induction false} DataTraceCommits(files: seq<DataFile>, cal: Calendar, lookup: Lookup)
    ensures Count(DataTrace(files, cal, lookup), CommitKind) == |files|
  {
    if files != [] {
      var init, last := files[..|files| - 1], files[|files| - 1];
      DataTraceCommits(init, cal, lookup);
      FileTraceNoCommit(last, cal, lookup);
      CountAppend(DataTrace(init, cal, lookup), FileTrace(last, cal, lookup), CommitKind);
      CountAppend(DataTrace(init, cal, lookup) + FileTrace(last, cal, lookup), [Committed], CommitKind);
      assert [Committed][..0] == [];
    }
  }

  /** After the i-th file (1 <= i <= n) the driver's trace so far holds exactly
      i commits and ends with one. DataTraceSnoc says that what lies between the
      (i-1)-th and the i-th commit is what the i-th file issues, and DataTracePrefix
      that this trace so far is a prefix of the whole. */
  lemma {:induction false} CommitAfterEachFile(files: seq<DataFile>, i: nat, cal: Calendar, lookup: Lookup)
    requires 1 <= i <= |files|
    ensures Count(DataTrace(files[..i], cal, lookup), CommitKind) == i
    ensures var t := DataTrace(files[..i], cal, lookup); t != [] && t[|t| - 1] == Committed
  {
    DataTraceCommits(files[..i], cal, lookup);
    DataTraceSnoc(files, i - 1, cal, lookup);
  }

  // ------------------------------------------------------------------ ordering

  /** The side of the run an entry belongs to: commits belong to both. */
  predicate OnSide(op: Op, song: bool)
  {
    op.Committed? || op.stmt.tag.FromSongFile() == song
  }

  lemma {:induction false} CountPositive(ops: seq<Op>, k: Kind, i: nat)
    requires i < |ops| && KindOf(ops[i]) == k
    ensures Count(ops, k) > 0
  {
    if i < |ops| - 1 {
      CountPositive(ops[..|ops| - 1], k, i);
    }
  }

  lemma {:induction false} FileTraceSide(f: DataFile, cal: Calendar, lookup: Lookup)
    ensures forall j | 0 <= j < |FileTrace(f, cal, lookup)| :: OnSide(FileTrace(f, cal, lookup)[j], f.SongFile?)
  {
    if f.LogFile? {
      var t := FileTrace(f, cal, lookup);
      LogFileCounts(f.events, cal, lookup);
      forall j | 0 <= j < |t| ensures OnSide(t[j], false) {
        if !OnSide(t[j], false) {
          CountPositive(t, KindOf(t[j]), j);
          assert false;
        }
      }
    }
  }

  lemma {:induction false} DataTraceSide(files: seq<DataFile>, song: bool, cal: Calendar, lookup: Lookup)
    requires forall i | 0 <= i < |files| :: files[i].SongFile? == song
    ensures forall j | 0 <= j < |DataTrace(files, cal, lookup)| :: OnSide(DataTrace(files, cal, lookup)[j], song)
  {
    if files != [] {
      var init, last := files[..|files| - 1], files[|files| - 1];
      DataTraceSide(init, song, cal, lookup);
      FileTraceSide(last, cal, lookup);
    }
  }

  /** A song-side trace followed by a log-side trace (and a commit) puts every song
      or artist insert before every log-file statement. */
  lemma {:induction false} SidesInOrder(a: seq<Op>, b: seq<Op>)
    requires forall j | 0 <= j < |a| :: OnSide(a[j], true)
    requires forall j | 0 <= j < |b| :: OnSide(b[j], false)
    ensures var t := a + b + [Committed];
      forall i, j | 0 <= i < |t| && 0 <= j < |t| ::
        t[i].Executed? && t[i].stmt.tag.FromSongFile() && t[j].Executed? && !t[j].stmt.tag.FromSongFile() ==> i < j
  {
  }

  /** In a run every song or artist insert comes before every statement a log file
      issues. */
  lemma {:induction false} SongsBeforeLogs(songs: seq<SongRecord>, logs: seq<seq<LogEvent>>, cal: Calendar, lookup: Lookup)
    ensures var t := RunTrace(songs, logs, cal, lookup);
      forall i, j | 0 <= i < |t| && 0 <= j < |t| ::
        t[i].Executed? && t[i].stmt.tag.FromSongFile() && t[j].Executed? && !t[j].stmt.tag.FromSongFile() ==> i < j
  {
    var a := DataTrace(SongDirectory(songs), cal, lookup);
    var b := DataTrace(LogDirectory(logs), cal, lookup);
    DataTraceSide(SongDirectory(songs), true, cal, lookup);
    DataTraceSide(LogDirectory(logs), false, cal, lookup);
    SidesInOrder(a, b);
  }

  // -------------------------------------------------------------------- counts

  /** The number of kept events over all log files. */
  function KeptTotal(logs: seq<seq<LogEvent>>): (n: nat)
  {
    if logs == [] then 0 else KeptTotal(logs[..|logs| - 1]) + |Kept(logs[|logs| - 1])|
  }

  /** How many entries of kind `k` one file issues. */
  function FileCount(f: DataFile, k: Kind): (n: nat)
  {
    if k == CommitKind then 0
    else if f.SongFile? then (if k.tag.FromSongFile() then 1 else 0)
    else if k.tag.FromSongFile() then 0
    else |Kept(f.events)|
  }

  lemma {:induction false} FileTraceCount(f: DataFile, k: Kind, cal: Calendar, lookup: Lookup)
    ensures Count(FileTrace(f, cal, lookup), k) == FileCount(f, k)
  {
    match f
    case SongFile(rec) =>
      var pair := SongFileTrace(rec);
      assert pair[..1] == [pair[0]] && [pair[0]][..0] == [];
    case LogFile(events) =>
      LogFileCounts(events, cal, lookup);
  }

  /** The entries of kind `k` in what the driver issues for `files` and the commit
      after each of them. */
  lemma {:induction false} DataTraceCount(files: seq<DataFile>, k: Kind, cal: Calendar, lookup: Lookup)
    ensures Count(DataTrace(files, cal, lookup), k) ==
      FileCountTotal(files, k) + (if k == CommitKind then |files| else 0)
  {
    if files != [] {
      var init, last := files[..|files| - 1], files[|files| - 1];
      DataTraceCount(init, k, cal, lookup);
      FileTraceCount(last, k, cal, lookup);
      var d, ft := DataTrace(init, cal, lookup), FileTrace(last, cal, lookup);
      assert DataTrace(files, cal, lookup) == d + ft + [Committed];
      assert [Committed][..0] == [];
      CountAppend(d, ft, k);
      CountAppend(d + ft, [Committed], k);
    }
  }

  function FileCountTotal(files: seq<DataFile>, k: Kind): (n: nat)
  {
    if files == [] then 0 else FileCountTotal(files[..|files| - 1], k) + FileCount(files[|files| - 1], k)
  }

  lemma {:induction false} SongDirectoryCount(songs: seq<SongRecord>, k: Kind)
    ensures FileCountTotal(SongDirectory(songs), k) == (if k != CommitKind && k.tag.FromSongFile() then |songs| else 0)
  {
    if songs != [] {
      var init := songs[..|songs| - 1];
      SongDirectoryCount(init, k);
      var dir := SongDirectory(songs);
      assert dir[..|dir| - 1] == SongDirectory(init);
    }
  }

  lemma {:induction false} LogDirectoryCount(logs: seq<seq<LogEvent>>, k: Kind)
    ensures FileCountTotal(LogDirectory(logs), k) ==
      (if k == CommitKind || k.tag.FromSongFile() then 0 else KeptTotal(logs))
  {
    if logs != [] {
      var init := logs[..|logs| - 1];
      LogDirectoryCount(init, k);
      var dir := LogDirectory(logs);
      assert dir[..|dir| - 1] == LogDirectory(init);
    }
  }

  lemma {:induction false} RunCount(songs: seq<SongRecord>, logs: seq<seq<LogEvent>>, k: Kind, cal: Calendar, lookup: Lookup)
    ensures Count(RunTrace(songs, logs, cal, lookup), k) ==
      if k == CommitKind then |songs| + |logs| + 1
      else if k.tag.FromSongFile() then |songs|
      else KeptTotal(logs)
  {
    var a := DataTrace(SongDirectory(songs), cal, lookup);
    var b := DataTrace(LogDirectory(logs), cal, lookup);
    DataTraceCount(SongDirectory(songs), k, cal, lookup);
    DataTraceCount(LogDirectory(logs), k, cal, lookup);
    SongDirectoryCount(songs, k);
    LogDirectoryCount(logs, k);
    assert [Committed][..0] == [];
    CountAppend(a, b, k);
    CountAppend(a + b, [Committed], k);
  }

  /** Row counts of a whole run: one song row and one artist row per song file,
      one time row, user row, lookup and songplay row per kept log event, and a
      commit per file plus the final one. */
  lemma {:induction false} RunCounts(songs: seq<SongRecord>, logs: seq<seq<LogEvent>>, cal: Calendar, lookup: Lookup)
    ensures var t, n := RunTrace(songs, logs, cal, lookup), KeptTotal(logs);
      && Count(t, StmtKind(SongInsert)) == |songs|
      && Count(t, StmtKind(ArtistInsert)) == |songs|
      && Count(t, StmtKind(TimeInsert)) == n
      && Count(t, StmtKind(UserInsert)) == n
      && Count(t, StmtKind(SongSelect)) == n
      && Count(t, StmtKind(SongplayInsert)) == n
      && Count(t, CommitKind) == |songs| + |logs| + 1
  {
    RunCount(songs, logs, StmtKind(SongInsert), cal, lookup);
    RunCount(songs, logs, StmtKind(ArtistInsert), cal, lookup);
    RunCount(songs, logs, StmtKind(TimeInsert), cal, lookup);
    RunCount(songs, logs, StmtKind(UserInsert), cal, lookup);
    RunCount(songs, logs, StmtKind(SongSelect), cal, lookup);
    RunCount(songs, logs, StmtKind(SongplayInsert), cal, lookup);
    RunCount(songs, logs, CommitKind, cal, lookup);
  }

  /** Two song files and one log file of five events, three of them 'NextSong':
      two song and two artist rows, three time, user and songplay rows, and four
      commits (one per file and the closing one). */
  lemma {:induction false} TwoSongsOneLog(s1: SongRecord, s2: SongRecord, events: seq<LogEvent>, cal: Calendar, lookup: Lookup)
    requires |events| == 5
    requires IsNextSong(events[0]) && !IsNextSong(events[1]) && IsNextSong(events[2])
    requires !IsNextSong(events[3]) && IsNextSong(events[4])
    ensures var t := RunTrace([s1, s2], [events], cal, lookup);
      && Count(t, StmtKind(SongInsert)) == 2 && Count(t, StmtKind(ArtistInsert)) == 2
      && Count(t, StmtKind(TimeInsert)) == 3 && Count(t, StmtKind(UserInsert)) == 3
      && Count(t, StmtKind(SongplayInsert)) == 3
      && Count(t, CommitKind) == 4
  {
    RunCounts([s1, s2], [events], cal, lookup);
    assert [events][..0] == [];
    assert Kept(events[..1]) == [events[0]] by { assert events[..1][..0] == []; }
    assert Kept(events[..2]) == [events[0]] by { assert events[..2][..1] == events[..1]; }
    assert Kept(events[..3]) == [events[0], events[2]] by { assert events[..3][..2] == events[..2]; }
    assert Kept(events[..4]) == [events[0], events[2]] by { assert events[..4][..3] == events[..3]; }
    assert Kept(events) == [events[0], events[2], events[4]];
  }
}
