/** The row shaping of the two transformers: which parameter lists a song file and
    a log file turn into, and the statement sequence each file issues. */
module Transform {
  import opened Values
  import opened Records

  // ---------------------------------------------------------------- song files

  /** The song row (song_id, title, artist_id, year, duration), a zero year
      replaced by null. */
  function SongRow(rec: SongRecord): (r: seq<Field>)
    ensures |r| == 5
    ensures r[0] == rec.songId && r[1] == rec.title && r[2] == rec.artistId && r[4] == rec.duration
    ensures r[3] == None <==> rec.year == None || IsZero(rec.year)
    ensures !IsZero(rec.year) ==> r[3] == rec.year
    ensures !IsZero(r[3])
  {
    [rec.songId, rec.title, rec.artistId, if IsZero(rec.year) then None else rec.year, rec.duration]
  }

  /** The artist columns as selected, before clean-up; null and NaN are already `None`. */
  function ArtistColumns(rec: SongRecord): (r: seq<Field>)
  {
    [rec.artistId, rec.artistName, rec.artistLocation, rec.artistLatitude, rec.artistLongitude]
  }

  /** The blank-to-null list comprehension: empty strings become null, everything
      else is kept, position by position. */
  function NullBlanks(xs: seq<Field>): (r: seq<Field>)
    ensures |r| == |xs|
    ensures forall i | 0 <= i < |r| :: r[i] != Blank
    ensures forall i | 0 <= i < |r| :: r[i] == None <==> xs[i] == None || xs[i] == Blank
    ensures forall i | 0 <= i < |r| :: xs[i] != Blank ==> r[i] == xs[i]
  {
    seq(|xs|, i requires 0 <= i < |xs| => if xs[i] == Blank then None else xs[i])
  }

  /** The artist row (artist_id, name, location, latitude, longitude) after clean-up. */
  function ArtistRow(rec: SongRecord): (r: seq<Field>)
  {
    NullBlanks(ArtistColumns(rec))
  }

  lemma {:induction false} ArtistRowShape(rec: SongRecord)
    ensures |ArtistRow(rec)| == 5
    ensures forall i | 0 <= i < 5 :: ArtistRow(rec)[i] != Blank
    ensures forall i | 0 <= i < 5 ::
      (ArtistRow(rec)[i] == None <==> ArtistColumns(rec)[i] == None || ArtistColumns(rec)[i] == Blank)
    ensures ArtistRow(rec)[0] == (if rec.artistId == Blank then None else rec.artistId)
    ensures ArtistRow(rec)[1] == (if rec.artistName == Blank then None else rec.artistName)
    ensures ArtistRow(rec)[2] == (if rec.artistLocation == Blank then None else rec.artistLocation)
    ensures ArtistRow(rec)[3] == (if rec.artistLatitude == Blank then None else rec.artistLatitude)
    ensures ArtistRow(rec)[4] == (if rec.artistLongitude == Blank then None else rec.artistLongitude)
  {
  }

  /** What one song file issues: the song insert, then the artist insert. */
  function SongFileTrace(rec: SongRecord): (t: seq<Op>)
  {
    [Executed(Stmt(SongInsert, SongRow(rec))), Executed(Stmt(ArtistInsert, ArtistRow(rec)))]
  }

  // ----------------------------------------------------------------- log files

  predicate IsNextSong(e: LogEvent)
  {
    e.page == Some(Text("NextSong"))
  }

  /** The events whose page is 'NextSong', in their original order. */
  function Kept(events: seq<LogEvent>): (r: seq<LogEvent>)
    ensures |r| <= |events|
  {
    if events == [] then []
    else
      var last := events[|events| - 1];
      Kept(events[..|events| - 1]) + (if IsNextSong(last) then [last] else [])
  }

  /** An event is kept exactly when it occurs in the file with page 'NextSong'. */
  lemma {:induction false} KeptMembers(events: seq<LogEvent>)
    ensures forall e :: e in Kept(events) <==> e in events && IsNextSong(e)
  {
    if events != [] {
      var init, last := events[..|events| - 1], events[|events| - 1];
      assert events == init + [last];
      KeptMembers(init);
    }
  }

  /** Dropping an event whose page is not 'NextSong' leaves the kept events as they were. */
  lemma {:induction false} KeptSkipsOtherPages(before: seq<LogEvent>, e: LogEvent, after: seq<LogEvent>)
    requires !IsNextSong(e)
    ensures Kept(before + [e] + after) == Kept(before + after)
  {
    KeptAppend(before + [e], after);
    KeptAppend(before, [e]);
    KeptAppend(before, after);
    assert Kept([e]) == [] by {
      assert [e][..0] == [];
    }
  }

  /** Filtering distributes over concatenation: the kept events of a file are the
      kept events of its first part followed by those of its second part. */
  lemma {:induction false} KeptAppend(a: seq<LogEvent>, b: seq<LogEvent>)
    ensures Kept(a + b) == Kept(a) + Kept(b)
    decreases |b|
  {
    if b == [] {
      assert a + b == a;
    } else {
      var b' := b[..|b| - 1];
      assert (a + b)[..|a + b| - 1] == a + b';
      KeptAppend(a, b');
    }
  }

  /** The time row: the instant, then hour, day, week of year, month, year, weekday. */
  function TimeRow(e: LogEvent, cal: Calendar): (r: seq<Field>)
    ensures |r| == 7 && r[0] == Some(Instant(e.ts))
    ensures r[1] == Some(Int(cal(e.ts).hour)) && r[2] == Some(Int(cal(e.ts).day))
    ensures r[3] == Some(Int(cal(e.ts).week)) && r[4] == Some(Int(cal(e.ts).month))
    ensures r[5] == Some(Int(cal(e.ts).year)) && r[6] == Some(Int(cal(e.ts).weekday))
  {
    var p := cal(e.ts);
    [Some(Instant(e.ts)), Some(Int(p.hour)), Some(Int(p.day)), Some(Int(p.week)),
     Some(Int(p.month)), Some(Int(p.year)), Some(Int(p.weekday))]
  }

  /** The user row (userId, firstName, lastName, gender, level). */
  function UserRow(e: LogEvent): (r: seq<Field>)
    ensures |r| == 5
    ensures r[0] == e.userId && r[1] == e.firstName && r[2] == e.lastName
    ensures r[3] == e.gender && r[4] == e.level
  {
    [e.userId, e.firstName, e.lastName, e.gender, e.level]
  }

  /** The parameters of the lookup select: (song, artist, length). */
  function LookupKey(e: LogEvent): (r: seq<Field>)
    ensures |r| == 3 && r[0] == e.song && r[1] == e.artist && r[2] == e.length
  {
    [e.song, e.artist, e.length]
  }

  /** The (songid, artistid) pair taken from the lookup: both from the one result
      row, or both null when no row comes back. */
  function ResolvedIds(m: Option<SongMatch>): (ids: (Field, Field))
    ensures ids.0.Some? <==> m.Some?
    ensures ids.1.Some? <==> m.Some?
    ensures m.Some? ==> ids == (Some(Text(m.value.songId)), Some(Text(m.value.artistId)))
  {
    match m
    case Some(row) => (Some(Text(row.songId)), Some(Text(row.artistId)))
    case None => (None, None)
  }

  /** The songplay row (start_time, user_id, level, song_id, artist_id, session_id,
      location, user_agent): the event's own fields around the resolved ids. */
  function SongplayRow(e: LogEvent, songId: Field, artistId: Field): (r: seq<Field>)
    ensures |r| == 8
    ensures r[3] == songId && r[4] == artistId
    ensures r[0] == Some(Instant(e.ts)) && r[1] == e.userId && r[2] == e.level
    ensures r[5] == e.sessionId && r[6] == e.location && r[7] == e.userAgent
  {
    [Some(Instant(e.ts)), e.userId, e.level, songId, artistId, e.sessionId, e.location, e.userAgent]
  }

  function TimeOp(e: LogEvent, cal: Calendar): (op: Op)
  {
    Executed(Stmt(TimeInsert, TimeRow(e, cal)))
  }

  function UserOp(e: LogEvent): (op: Op)
  {
    Executed(Stmt(UserInsert, UserRow(e)))
  }

  function SelectOp(e: LogEvent): (op: Op)
  {
    Executed(Stmt(SongSelect, LookupKey(e)))
  }

  function SongplayOp(e: LogEvent, lookup: Lookup): (op: Op)
  {
    var ids := ResolvedIds(lookup(LookupKey(e)));
    Executed(Stmt(SongplayInsert, SongplayRow(e, ids.0, ids.1)))
  }

  /** One time insert per kept event. */
  function TimePhase(kept: seq<LogEvent>, cal: Calendar): (t: seq<Op>)
  {
    seq(|kept|, k requires 0 <= k < |kept| => TimeOp(kept[k], cal))
  }

  /** One user insert per kept event, duplicates included. */
  function UserPhase(kept: seq<LogEvent>): (t: seq<Op>)
  {
    seq(|kept|, k requires 0 <= k < |kept| => UserOp(kept[k]))
  }

  /** A lookup select and a songplay insert per kept event. */
  function PlayPhase(kept: seq<LogEvent>, lookup: Lookup): (t: seq<Op>)
  {
    if kept == [] then []
    else
      var last := kept[|kept| - 1];
      PlayPhase(kept[..|kept| - 1], lookup) + [SelectOp(last), SongplayOp(last, lookup)]
  }

  /** Each phase grows by one event's entries per loop step. */
  lemma {:induction false} TimePhaseSnoc(kept: seq<LogEvent>, i: nat, cal: Calendar)
    requires i < |kept|
    ensures TimePhase(kept[..i + 1], cal) == TimePhase(kept[..i], cal) + [TimeOp(kept[i], cal)]
  {
  }

  lemma {:induction false} UserPhaseSnoc(kept: seq<LogEvent>, i: nat)
    requires i < |kept|
    ensures UserPhase(kept[..i + 1]) == UserPhase(kept[..i]) + [UserOp(kept[i])]
  {
  }

  lemma {:induction false} PlayPhaseSnoc(kept: seq<LogEvent>, i: nat, lookup: Lookup)
    requires i < |kept|
    ensures PlayPhase(kept[..i + 1], lookup) == PlayPhase(kept[..i], lookup) + [SelectOp(kept[i]), SongplayOp(kept[i], lookup)]
  {
    assert kept[..i + 1][..i] == kept[..i];
  }

  lemma {:induction false} PlayPhaseLength(kept: seq<LogEvent>, lookup: Lookup)
    ensures |PlayPhase(kept, lookup)| == 2 * |kept|
  {
    if kept != [] {
      PlayPhaseLength(kept[..|kept| - 1], lookup);
    }
  }

  lemma {:induction false} PlayPhaseAt(kept: seq<LogEvent>, lookup: Lookup)
    ensures |PlayPhase(kept, lookup)| == 2 * |kept|
    ensures forall k | 0 <= k < |kept| ::
      PlayPhase(kept, lookup)[2 * k] == SelectOp(kept[k]) &&
      PlayPhase(kept, lookup)[2 * k + 1] == SongplayOp(kept[k], lookup)
  {
    if kept != [] {
      var init := kept[..|kept| - 1];
      PlayPhaseAt(init, lookup);
      var p := PlayPhase(kept, lookup);
      assert p == PlayPhase(init, lookup) + [SelectOp(kept[|kept| - 1]), SongplayOp(kept[|kept| - 1], lookup)];
      forall k | 0 <= k < |kept|
        ensures p[2 * k] == SelectOp(kept[k]) && p[2 * k + 1] == SongplayOp(kept[k], lookup)
      {
        if k < |init| {
          assert init[k] == kept[k];
        }
      }
    }
  }

  /** What one log file issues: all time inserts, then all user inserts, then the
      (select, songplay insert) pairs, each phase over the kept events in order. */
  function LogFileTrace(events: seq<LogEvent>, cal: Calendar, lookup: Lookup): (t: seq<Op>)
  {
    var kept := Kept(events);
    TimePhase(kept, cal) + UserPhase(kept) + PlayPhase(kept, lookup)
  }

  /** With n kept events a log file issues 4n statements, and its first two
      phases are the n time inserts and then the n user inserts, each following
      the order of the events. */
  lemma {:induction false} LogFileInserts(events: seq<LogEvent>, cal: Calendar, lookup: Lookup)
    ensures var kept, t := Kept(events), LogFileTrace(events, cal, lookup);
      && |t| == 4 * |kept|
      && (forall k | 0 <= k < |kept| :: t[k] == TimeOp(kept[k], cal))
      && (forall k | 0 <= k < |kept| :: t[|kept| + k] == UserOp(kept[k]))
  {
    var kept := Kept(events);
    var n := |kept|;
    var tp, up, pp := TimePhase(kept, cal), UserPhase(kept), PlayPhase(kept, lookup);
    PlayPhaseLength(kept, lookup);
    ConcatAt(tp, up, pp);
  }

  /** Where the parts of `a + b + c` sit. */
  lemma {:induction false} ConcatAt(a: seq<Op>, b: seq<Op>, c: seq<Op>)
    ensures |a + b + c| == |a| + |b| + |c|
    ensures forall k | 0 <= k < |a| :: (a + b + c)[k] == a[k]
    ensures forall k | 0 <= k < |b| :: (a + b + c)[|a| + k] == b[k]
    ensures forall k | 0 <= k < |c| :: (a + b + c)[|a| + |b| + k] == c[k]
  {
  }

  /** The last phase of a log file: for the k-th kept event, the lookup select with
      its key followed by its songplay insert. */
  lemma {:induction false} LogFileLookups(events: seq<LogEvent>, cal: Calendar, lookup: Lookup)
    ensures var kept, t := Kept(events), LogFileTrace(events, cal, lookup);
      && |t| == 4 * |kept|
      && (forall k | 0 <= k < |kept| ::
            t[2 * |kept| + 2 * k] == SelectOp(kept[k]) &&
            t[2 * |kept| + 2 * k + 1] == SongplayOp(kept[k], lookup))
  {
    var kept := Kept(events);
    var n := |kept|;
    var pp := PlayPhase(kept, lookup);
    var t := LogFileTrace(events, cal, lookup);
    PlayPhaseAt(kept, lookup);
    assert t == TimePhase(kept, cal) + UserPhase(kept) + pp;
    forall k | 0 <= k < n
      ensures t[2 * n + 2 * k] == pp[2 * k] && t[2 * n + 2 * k + 1] == pp[2 * k + 1]
    {
    }
  }

  /** The songplay insert of an event joins the rows of that same event: its
      start_time is the time row's instant, its user_id and level are the user row's,
      and its two ids come from the one lookup row for the event's key, or are both
      null when the lookup returns no row. */
  lemma {:induction false} SongplayJoin(e: LogEvent, cal: Calendar, lookup: Lookup)
    ensures var p, m := SongplayOp(e, lookup).stmt.params, lookup(SelectOp(e).stmt.params);
      && p[0] == TimeOp(e, cal).stmt.params[0]
      && p[1] == UserOp(e).stmt.params[0] && p[2] == UserOp(e).stmt.params[4]
      && (p[3].Some? <==> p[4].Some?)
      && (m == None ==> p[3] == None && p[4] == None)
      && (m.Some? ==> p[3] == Some(Text(m.value.songId)) && p[4] == Some(Text(m.value.artistId)))
  {
  }

  /** An event whose page is not 'NextSong' contributes nothing, wherever it stands. */
  lemma {:induction false} OtherPagesIgnored(before: seq<LogEvent>, e: LogEvent, after: seq<LogEvent>, cal: Calendar, lookup: Lookup)
    requires !IsNextSong(e)
    ensures LogFileTrace(before + [e] + after, cal, lookup) == LogFileTrace(before + after, cal, lookup)
  {
    KeptSkipsOtherPages(before, e, after);
  }

  /** Per-kind entry counts of one log file's trace: n of each of its four
      statements for n kept events, and no song insert, artist insert or commit. */
  lemma {:induction false} LogFileCounts(events: seq<LogEvent>, cal: Calendar, lookup: Lookup)
    ensures var t, n := LogFileTrace(events, cal, lookup), |Kept(events)|;
      forall k: Kind :: Count(t, k) == (if k == CommitKind || k.tag.FromSongFile() then 0 else n)
  {
    var kept := Kept(events);
    var tp, up, pp := TimePhase(kept, cal), UserPhase(kept), PlayPhase(kept, lookup);
    UniformPhaseCounts(tp, StmtKind(TimeInsert));
    UniformPhaseCounts(up, StmtKind(UserInsert));
    PlayPhaseCounts(kept, lookup);
    forall k: Kind
      ensures Count(tp + up + pp, k) == (if k == CommitKind || k.tag.FromSongFile() then 0 else |kept|)
    {
      CountAppend(tp, up, k);
      CountAppend(tp + up, pp, k);
    }
  }

  lemma {:induction false} UniformPhaseCounts(ops: seq<Op>, k: Kind)
    requires forall i | 0 <= i < |ops| :: KindOf(ops[i]) == k
    ensures forall k': Kind :: Count(ops, k') == (if k' == k then |ops| else 0)
  {
    CountAll(ops, k);
    forall k': Kind | k' != k {
      CountNone(ops, k');
    }
  }

  lemma {:induction false} PlayPhaseCounts(kept: seq<LogEvent>, lookup: Lookup)
    ensures forall k: Kind :: (Count(PlayPhase(kept, lookup), k) ==
      (if k == StmtKind(SongSelect) || k == StmtKind(SongplayInsert) then |kept| else 0))
  {
    if kept != [] {
      var init := kept[..|kept| - 1];
      var last := kept[|kept| - 1];
      var pair := [SelectOp(last), SongplayOp(last, lookup)];
      assert PlayPhase(kept, lookup) == PlayPhase(init, lookup) + pair;
      PlayPhaseCounts(init, lookup);
      forall k: Kind
        ensures Count(PlayPhase(kept, lookup), k) ==
          (if k == StmtKind(SongSelect) || k == StmtKind(SongplayInsert) then |kept| else 0)
      {
        CountAppend(PlayPhase(init, lookup), pair, k);
        assert pair[..1] == [SelectOp(last)];
        assert [SelectOp(last)][..0] == [];
      }
    }
  }
}
