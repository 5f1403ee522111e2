/** The database session the job runs against: one connection and the one cursor
    taken from it. The cursor records every statement it executes, with its
    parameters; a commit on the connection is recorded in the same trace, so the
    trace shows which statements each commit closes. */
module Session {
  import opened Values
  import opened Records

  class Cursor {
    /** What the lookup select returns for given parameters. */
    const lookup: Lookup
    /** Everything done on this session so far, oldest first. */
    var trace: seq<Op>

    constructor (lookup: Lookup)
      ensures this.lookup == lookup && trace == []
    {
      this.lookup := lookup;
      trace := [];
    }

    /** `cur.execute(statement, params)`: appends the statement and nothing else. */
    method Execute(tag: Tag, params: seq<Field>)
      modifies this
      ensures trace == old(trace) + [Executed(Stmt(tag, params))]
    {
      trace := trace + [Executed(Stmt(tag, params))];
    }

    /** `cur.fetchone()` right after the lookup select: the result row, if any. */
    method FetchOne() returns (row: Option<SongMatch>)
      requires trace != [] && trace[|trace| - 1].Executed?
      requires trace[|trace| - 1].stmt.tag == SongSelect
      ensures row == lookup(trace[|trace| - 1].stmt.params)
    {
      row := lookup(trace[|trace| - 1].stmt.params);
    }

    /** The number of commits so far. */
    function Commits(): (n: nat)
      reads this
      ensures n <= |trace|
    {
      Count(trace, CommitKind)
    }
  }

  class Connection {
    /** `conn.cursor()`, taken once when the connection is opened. */
    const cursor: Cursor

    constructor (lookup: Lookup)
      ensures fresh(cursor) && cursor.lookup == lookup && cursor.trace == []
    {
      cursor := new Cursor(lookup);
    }

    /** `conn.commit()`: closes the transaction holding everything executed so far. */
    method Commit()
      modifies cursor
      ensures cursor.trace == old(cursor.trace) + [Committed]
      ensures cursor.Commits() == old(cursor.Commits()) + 1
    {
      ghost var before := cursor.trace;
      cursor.trace := cursor.trace + [Committed];
      assert cursor.trace[..|cursor.trace| - 1] == before;
    }
  }
}
