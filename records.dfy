/** The records the job reads, the statements it issues and the trace of a
    database session: every executed (statement, parameters) pair and every commit,
    in the order they happened. */
module Records {
  import opened Values

  /** The single JSON object of one song file, already parsed. */
  datatype SongRecord = SongRecord(
    songId: Field, title: Field, artistId: Field, year: Field, duration: Field,
    artistName: Field, artistLocation: Field, artistLatitude: Field, artistLongitude: Field)

  /** One line of an activity log file, already parsed; `ts` is epoch milliseconds. */
  datatype LogEvent = LogEvent(
    page: Field, ts: int, userId: Field, firstName: Field, lastName: Field,
    gender: Field, level: Field, song: Field, artist: Field, length: Field,
    sessionId: Field, location: Field, userAgent: Field)

  /** The calendar breakdown of an instant that the date library supplies. */
  datatype CalendarParts = CalendarParts(hour: int, day: int, week: int, month: int, year: int, weekday: int)

  /** The date library's breakdown of an epoch-millisecond timestamp, left abstract. */
  type Calendar = int -> CalendarParts

  /** The one row the song/artist lookup returns on a match: (song_id, artist_id). */
  datatype SongMatch = SongMatch(songId: string, artistId: string)

  /** The database's answer to the lookup select for given (song, artist, length)
      parameters, left abstract. */
  type Lookup = seq<Field> -> Option<SongMatch>

  /** The six statements of the SQL definitions module (five inserts and the lookup
      select), by name. */
  datatype Tag = SongInsert | ArtistInsert | TimeInsert | UserInsert | SongSelect | SongplayInsert
  {
    /** Statements that only a song file issues. */
    predicate FromSongFile()
    {
      this == SongInsert || this == ArtistInsert
    }
  }

  datatype Stmt = Stmt(tag: Tag, params: seq<Field>)

  /** What happens on the session: a statement run on the cursor, or a commit on
      the connection. */
  datatype Op = Executed(stmt: Stmt) | Committed

  /** The kinds of entries that are counted: commits and statements of one tag. */
  datatype Kind = CommitKind | StmtKind(tag: Tag)

  function KindOf(op: Op): (kind: Kind)
  {
    match op
    case Executed(s) => StmtKind(s.tag)
    case Committed => CommitKind
  }

  /** The number of entries of kind `k` in a trace. */
  function Count(ops: seq<Op>, k: Kind): (n: nat)
    ensures n <= |ops|
  {
    if ops == [] then 0
    else Count(ops[..|ops| - 1], k) + (if KindOf(ops[|ops| - 1]) == k then 1 else 0)
  }

  lemma {:induction false} CountAppend(a: seq<Op>, b: seq<Op>, k: Kind)
    ensures Count(a + b, k) == Count(a, k) + Count(b, k)
    decreases |b|
  {
    if b == [] {
      assert a + b == a;
    } else {
      var b' := b[..|b| - 1];
      assert (a + b)[..|a + b| - 1] == a + b';
      assert (a + b)[|a + b| - 1] == b[|b| - 1];
      CountAppend(a, b', k);
    }
  }

  /** A trace made only of entries of kind `k` has |ops| of them. */
  lemma {:induction false} CountAll(ops: seq<Op>, k: Kind)
    requires forall i | 0 <= i < |ops| :: KindOf(ops[i]) == k
    ensures Count(ops, k) == |ops|
  {
    if ops != [] {
      CountAll(ops[..|ops| - 1], k);
    }
  }

  /** A trace without entries of kind `k` counts none of them. */
  lemma {:induction false} CountNone(ops: seq<Op>, k: Kind)
    requires forall i | 0 <= i < |ops| :: KindOf(ops[i]) != k
    ensures Count(ops, k) == 0
  {
    if ops != [] {
      CountNone(ops[..|ops| - 1], k);
    }
  }

  lemma {:induction false} AppendAssoc(a: seq<Op>, b: seq<Op>, c: seq<Op>)
    ensures a + (b + c) == (a + b) + c
  {
  }
}
