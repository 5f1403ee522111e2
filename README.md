# Sparkify ETL core, modelled in Dafny

This project models `etl.py`. That is the batch job that loads a song/play data warehouse
from two directories of JSON files. Song files feed the `songs` and `artists` dimension
tables. Activity-log files feed the `time` and `users` dimensions and the `songplays`
fact table. The model covers the row shaping and the load order. The database is an
abstract session: one connection and its one cursor, which keeps an append-only trace
of every executed `(statement, parameters)` pair and every commit.

Modules:

- `Values` (values.dfy): nullable cells. `Field = Option<Cell>`, where `None` stands for
  both Python `None` and pandas `NaN`. Also Python's `x == 0` on a cell (`IsZero`).
- `Records` (records.dfy): the parsed song record and log event, the six statements
  (five inserts and the lookup select, as tags), the session trace `seq<Op>`, and `Count` of entries of one kind.
- `Transform` (transform.dfy): the pure row shaping of `process_song_file` and
  `process_log_file`. It also gives the statement sequence each file issues
  (`SongFileTrace`, `LogFileTrace`) and the lemmas about them.
- `Session` (session.dfy): the `Cursor` class (`Execute`, `FetchOne`, `Commits`) and the
  `Connection` class (`Commit`).
- `Pipeline` (pipeline.dfy): the driver's trace (`DataTrace`: each file's statements and
  then a commit) and a whole run (`RunTrace`: song directory, log directory, final
  commit). Lemmas about commits, ordering and row counts.
- `Etl` (etl.dfy): the imperative job. `ProcessSongFile`, `ProcessLogFile` (its three
  loops, one method each: `InsertTimeRows`, `InsertUserRows`, `InsertSongplays`), `ProcessFile` (the `func(cur, datafile)` call), `ProcessData` (the per-file
  loop with a commit after each file) and `RunEtl` (`main`). Each is proved to extend
  the cursor trace by exactly the matching trace function.

Two things are parameters because the real code gets them from outside. The lookup
select's answer is the cursor's `lookup` oracle, `seq<Field> -> Option<SongMatch>`. The
date library's breakdown of a timestamp is `cal: int -> CalendarParts`.

Three consequences of the code are worth stating:

- `main` commits once more after both directories (etl.py:127). So s song files and
  l log files give s + l + 1 commits. Two song files and one log file give 4
  (`Pipeline.TwoSongsOneLog`).
- User rows come from the events already filtered to `NextSong` (etl.py:51, etl.py:66).
  Events with other pages contribute no user row.
- A non-zero year is passed through unchanged, including a negative one. Only 0 becomes
  null.

## Model

| member | source | states |
|---|---|---|
| `Transform.SongRow` | etl.py:21-25 | The song row is (song_id, title, artist_id, year, duration) in that order. Its year is null exactly when the input year is null or zero; otherwise it is the input year. It is never zero. |
| `Transform.NullBlanks` | etl.py:32-34 | Blank-to-null clean-up, position by position. The length is kept and no output is the empty string. An output is null exactly when its input was null/NaN or empty. Every other value passes through unchanged. |
| `Transform.ArtistRowShape` | etl.py:30-34 | The artist row has five fields (artist_id, name, location, latitude, longitude), each the cleaned-up column of the same name. None of them is the empty string. |
| `Transform.Kept` | etl.py:50-51 | The `page == 'NextSong'` selection never has more events than its input. |
| `Transform.KeptMembers` | etl.py:51 | An event is kept exactly when it occurs in the file and its page is 'NextSong'. |
| `Transform.KeptAppend` | etl.py:51 | The selection keeps the original order: the kept events of `a + b` are those of `a` followed by those of `b`. |
| `Transform.KeptSkipsOtherPages` | etl.py:51 | Removing an event whose page is not 'NextSong' does not change the kept events. |
| `Transform.OtherPagesIgnored` | etl.py:51-86 | An event whose page is not 'NextSong' contributes no time, user, lookup or songplay statement, wherever it stands in the file. |
| `Transform.TimeRow` | etl.py:53-63 | The time row has seven fields in column order: timestamp, hour, day, week of year, month, year, weekday. The first is the event's own instant. The other six are the calendar breakdown of that instant. |
| `Transform.UserRow` | etl.py:66-70 | The user row has five fields: the event's userId, firstName, lastName, gender and level, in that order. |
| `Transform.LookupKey` | etl.py:76 | The lookup select's parameters are the event's song, artist and length, in that order. |
| `Transform.ResolvedIds` | etl.py:76-82 | song_id and artist_id are both set, from the one result row, or both null when no row comes back. A missing match is not an error. |
| `Transform.SongplayRow` | etl.py:85 | The songplay tuple is (start_time, user_id, level, song_id, artist_id, session_id, location, user_agent). The event's own fields are unchanged, around the resolved ids. |
| `Transform.SongplayJoin` | etl.py:57-85 | A songplay's start_time equals its event's time-row instant, and its user_id and level equal its user row's. Its two ids are set together, from the lookup on the event's own (song, artist, length) key, or are both null. |
| `Transform.PlayPhaseAt` | etl.py:73-86 | The last loop issues two statements per kept event: the k-th select at position 2k, the k-th songplay insert at 2k+1. |
| `Transform.LogFileInserts` | etl.py:62-70 | With n kept events a log file issues 4n statements. The first n are the time inserts and the next n the user inserts, each in event order with no dedup. |
| `Transform.LogFileLookups` | etl.py:73-86 | After those, the k-th kept event's lookup select is directly followed by its songplay insert, in event order. |
| `Transform.LogFileCounts` | etl.py:62-86 | A log file issues n time, n user, n select and n songplay statements for n kept events. It issues no song insert, no artist insert and no commit. |
| `Session.Cursor.Execute` | etl.py:27 | `cur.execute` appends exactly one statement with its parameters to the session trace. Nothing else changes. The same call issues every statement, at etl.py:36, 63, 70, 76 and 86. |
| `Session.Cursor.FetchOne` | etl.py:76-77 | Right after the lookup select, `fetchone` returns the lookup's answer for that select's parameters. |
| `Session.Connection.Commit` | etl.py:113 | A commit appends one commit to the trace and raises the commit count by one. |
| `Etl.ProcessSongFile` | etl.py:9-36 | The trace grows by exactly the song insert with the song row, then the artist insert with the cleaned-up artist row. |
| `Etl.InsertTimeRows` | etl.py:62-63 | The time loop grows the trace by exactly one time insert per kept event, in event order. |
| `Etl.InsertUserRows` | etl.py:69-70 | The user loop grows the trace by exactly one user insert per kept event, in event order, duplicates included. |
| `Etl.InsertSongplays` | etl.py:73-86 | Per kept event, in order, the songplay loop grows the trace by exactly the lookup select and then the songplay insert, whose ids are resolved from what `fetchone` returns. |
| `Etl.ProcessLogFile` | etl.py:39-86 | The trace grows by exactly the log file's statements: time inserts, then user inserts, then (select, songplay insert) pairs. |
| `Etl.ProcessFile` | etl.py:112 | The file's transformer runs once and the trace grows by exactly that file's statements. |
| `Etl.ProcessData` | etl.py:89-114 | Files are processed in the given order, each followed by a commit. The commit count grows by the number of files. The k-th progress report is (k+1, number of files). |
| `Etl.RunEtl` | etl.py:117-127 | A run issues the song directory's trace, then the log directory's trace, then a final commit. |
| `Pipeline.FileTraceCount` | etl.py:9-86 | A song file issues one song insert and one artist insert. A log file issues one time, user, select and songplay statement per kept event. Neither commits. |
| `Pipeline.DataTracePrefix` | etl.py:111-114 | The trace after the first i files is a prefix of the trace after all of them. |
| `Pipeline.DataTraceCommits` | etl.py:111-113 | The driver commits exactly once per file. |
| `Pipeline.CommitAfterEachFile` | etl.py:111-114 | After the i-th file the trace so far holds exactly i commits, and its last entry is a commit. |
| `Pipeline.SongsBeforeLogs` | etl.py:124-125 | In a run, every song or artist insert comes before every statement issued for a log file. |
| `Pipeline.RunCounts` | etl.py:117-127 | A run has one song row and one artist row per song file. It has one time row, user row, lookup and songplay row per kept log event. It has one commit per file plus the final one. |
| `Pipeline.TwoSongsOneLog` | etl.py:117-127 | Two song files and one log file of five events, three of them 'NextSong', give 2 song, 2 artist, 3 time, 3 user and 3 songplay rows and 4 commits. |

## Left out

- Parsing (`pd.read_json`, DataFrame column selection, etl.py:18, etl.py:48): records arrive already parsed. The `func` argument of `process_data` appears as the file's variant (`SongFile` or `LogFile`), i.e. as which transformer reads it.
- File discovery (`os.walk`, `glob`, `abspath`, etl.py:100-104) is filesystem I/O. The discovered files are an input sequence in discovery order. The "files found" line is only their count.
- The calendar breakdown (`pd.to_datetime` and the `.dt` accessors, etl.py:54-59) comes from the date library. It is the `cal` parameter, and the model fixes no calendar values. Timestamps are kept as epoch milliseconds.
- The SQL text and the lookup's matching rules live in the SQL definitions module, which is not part of this model. The lookup is a fixed oracle over the key, so it does not see rows inserted earlier in the run. The insert-then-lookup round trip, and upsert or conflict handling, are the database's part.
- Session.Cursor.FetchOne: gives exactly one row or none. When several rows match it stands for the first. A result row of a different width, which Python's unpacking would reject, is not modelled.
- Connection set-up and `close` (etl.py:121-122, etl.py:129) are a foreign library. `RunEtl` takes an open connection, and its cursor is the connection's one cursor.
- Progress output (`print`, etl.py:108, etl.py:114) is I/O. `ProcessData` returns the progress reports as values instead of printing them.
- Exceptions from parsing or the database are not modelled. The source does not handle any, so the model is the straight-line run.
- Transform.NullBlanks: pandas NaN and Python None are one value here (`None`). The pandas `where(notnull, None)` step (etl.py:33) is therefore the identity on the model's cells. Whether a float column really holds None after it depends on the pandas version. The model takes the intended reading: NaN becomes null.
- Transform.SongRow: a NaN year in the source stays NaN, not null. The model has no separate NaN, so it shows null.
- Transform.ResolvedIds: the lookup's two result columns are taken to be non-null keys, because `SongMatch` holds two strings. So "both ids set or both null" rests on that assumption. The source unpacks whatever the row holds (etl.py:79-80). A matched row with one NULL column would give a songplay with one id set.
- A song file is one record. The source reads only its first line (`.values[0]`, etl.py:21 and etl.py:33). Any further lines of a song file are ignored, and the model has no such lines.
- `ts` is taken to be always present: `LogEvent.ts` is a plain integer. A missing timestamp, which `pd.to_datetime` would turn into NaT (etl.py:54, etl.py:85), is not modelled.
