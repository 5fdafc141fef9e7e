/**
 * The `imc_history` table behind the handler, with the driver replaced by
 * abstract state: committed rows, the rows of the open transaction,
 * auto-increment ids, a clock for `created_at`, and counters for
 * connections opened and closed, statements executed and commits.
 */
module Store {

  import opened Wrappers
  import opened Serialize

  /** One row of `imc_history`. */
  datatype Row = Row(id: nat, height: real, weight: real, imc: real, createdAt: nat)

  /** The row as a dictionary cursor returns it from `SELECT *`. */
  function AsDict(r: Row): map<string, SqlValue> {
    map[
      "id" := Integer(r.id),
      "height" := Decimal(r.height),
      "weight" := Decimal(r.weight),
      "imc" := Decimal(r.imc),
      "created_at" := Timestamp(r.createdAt)
    ]
  }

  /** `cursor.fetchall()`: every row as a dict, in result order. */
  function FetchAll(rows: seq<Row>): (r: seq<map<string, SqlValue>>)
    ensures |r| == |rows|
    ensures forall i :: 0 <= i < |rows| ==> r[i] == AsDict(rows[i])
  {
    seq(|rows|, i requires 0 <= i < |rows| => AsDict(rows[i]))
  }

  /** No row of a non-empty result set can be encoded: `created_at` reaches `decimal_to_float`. */
  lemma DumpFailsUnlessEmpty(rows: seq<Row>)
    ensures DumpRows(FetchAll(rows)).Some? <==> rows == []
    ensures rows == [] ==> DumpRows(FetchAll(rows)) == Some(PyValues.List([]))
  {
    if rows != [] {
      var first := FetchAll(rows)[0];
      assert first["created_at"].Timestamp?;
      assert DumpRow(first).None?;
    }
  }

  /** Rows in insertion order: ids and `created_at` strictly increase and stay below the counters. */
  predicate Chronological(rows: seq<Row>, clock: nat, nextId: nat) {
    && OldestFirst(rows)
    && (forall i, j :: 0 <= i < j < |rows| ==> rows[i].id < rows[j].id)
    && (forall i :: 0 <= i < |rows| ==> rows[i].createdAt < clock && rows[i].id < nextId)
  }

  lemma ChronologicalPrefix(rows: seq<Row>, more: seq<Row>, clock: nat, nextId: nat)
    requires Chronological(rows + more, clock, nextId)
    ensures Chronological(rows, clock, nextId)
  {
    forall i | 0 <= i < |rows|
      ensures rows[i] == (rows + more)[i]
    {
    }
  }

  /** Newest first: `created_at` never increases along the sequence. */
  predicate NewestFirst(rows: seq<Row>) {
    forall i, j :: 0 <= i < j < |rows| ==> rows[i].createdAt >= rows[j].createdAt
  }

  /** Every row of a newest-first sequence is at most as new as its head. */
  lemma NewestFirstHead(rows: seq<Row>)
    requires NewestFirst(rows) && rows != []
    ensures forall y :: y in rows ==> y.createdAt <= rows[0].createdAt
  {
  }

  /** A sequence holding `x` and the rows of `rows` has no row newer than a bound they all respect. */
  lemma InsertedNoNewer(x: Row, rows: seq<Row>, r: seq<Row>, bound: nat)
    requires multiset(r) == multiset(rows) + multiset{x}
    requires x.createdAt <= bound && forall y :: y in rows ==> y.createdAt <= bound
    ensures forall y :: y in r ==> y.createdAt <= bound
  {
    forall y | y in r
      ensures y.createdAt <= bound
    {
      assert y in multiset(r);
      assert y == x || y in multiset(rows);
    }
  }

  /** A row at least as new as every row of a newest-first sequence can head it. */
  lemma NewestFirstCons(x: Row, rows: seq<Row>)
    requires NewestFirst(rows) && forall y :: y in rows ==> y.createdAt <= x.createdAt
    ensures NewestFirst([x] + rows)
  {
    forall i, j | 0 <= i < j < |[x] + rows|
      ensures ([x] + rows)[i].createdAt >= ([x] + rows)[j].createdAt
    {
      if i > 0 {
        assert ([x] + rows)[i] == rows[i - 1] && ([x] + rows)[j] == rows[j - 1];
      } else {
        assert ([x] + rows)[j] in rows;
      }
    }
  }

  /** Puts `x` into a newest-first sequence, after every row at least as new. */
  function InsertByCreatedAt(x: Row, rows: seq<Row>): (r: seq<Row>)
    requires NewestFirst(rows)
    ensures NewestFirst(r)
    ensures multiset(r) == multiset(rows) + multiset{x}
  {
    if rows == [] || x.createdAt >= rows[0].createdAt then
      [x] + rows
    else
      var rest := InsertByCreatedAt(x, rows[1..]);
      assert rows == [rows[0]] + rows[1..];
      NewestFirstHead(rows);
      InsertedNoNewer(x, rows[1..], rest, rows[0].createdAt);
      NewestFirstCons(rows[0], rest);
      [rows[0]] + rest
  }

  /** `ORDER BY created_at DESC`. */
  function SortDesc(rows: seq<Row>): (r: seq<Row>)
    ensures NewestFirst(r)
    ensures multiset(r) == multiset(rows)
  {
    if rows == [] then []
    else
      assert rows == [rows[0]] + rows[1..];
      InsertByCreatedAt(rows[0], SortDesc(rows[1..]))
  }

  function Reverse(rows: seq<Row>): (r: seq<Row>)
    ensures |r| == |rows|
    ensures forall k :: 0 <= k < |rows| ==> r[k] == rows[|rows| - 1 - k]
  {
    seq(|rows|, k requires 0 <= k < |rows| => rows[|rows| - 1 - k])
  }

  lemma {:induction false} InsertOldest(x: Row, rows: seq<Row>)
    requires NewestFirst(rows)
    requires forall k :: 0 <= k < |rows| ==> rows[k].createdAt > x.createdAt
    ensures InsertByCreatedAt(x, rows) == rows + [x]
  {
    if rows != [] {
      InsertOldest(x, rows[1..]);
      assert [rows[0]] + (rows[1..] + [x]) == rows + [x];
    }
  }

  /** Insertion order: `created_at` strictly increases along the sequence. */
  predicate OldestFirst(rows: seq<Row>) {
    forall i, j :: 0 <= i < j < |rows| ==> rows[i].createdAt < rows[j].createdAt
  }

  lemma OldestFirstTail(rows: seq<Row>)
    requires OldestFirst(rows) && rows != []
    ensures OldestFirst(rows[1..])
    ensures forall k :: 0 <= k < |rows| - 1 ==> Reverse(rows[1..])[k].createdAt > rows[0].createdAt
  {
  }

  /** On rows in insertion order, `ORDER BY created_at DESC` is the reverse of insertion order. */
  lemma {:induction false} SortDescIsReverse(rows: seq<Row>)
    requires OldestFirst(rows)
    ensures SortDesc(rows) == Reverse(rows)
  {
    if rows != [] {
      OldestFirstTail(rows);
      SortDescIsReverse(rows[1..]);
      InsertOldest(rows[0], Reverse(rows[1..]));
      assert Reverse(rows[1..]) + [rows[0]] == Reverse(rows);
    }
  }

  /** The store as the handler's callers can observe it between invocations. */
  datatype DbState = DbState(
    rows: seq<Row>,
    clock: nat,
    nextId: nat,
    opens: nat,
    closes: nat,
    statements: nat,
    commits: nat
  )

  /** The database and the one connection an invocation may hold to it. */
  class Database {
    var rows: seq<Row>      // committed rows, in insertion order
    var pending: seq<Row>   // rows inserted by the open transaction, not yet visible to others
    var clock: nat          // the `created_at` the next insert receives
    var nextId: nat         // the next auto-increment id
    var connected: bool
    var opens: nat          // connections opened
    var closes: nat         // connections closed
    var statements: nat     // `cursor.execute` calls
    var commits: nat

    ghost predicate Valid()
      reads this
    {
      && Chronological(rows + pending, clock, nextId)
      && opens == closes + (if connected then 1 else 0)
      && (!connected ==> pending == [])
    }

    function Snapshot(): DbState
      reads this
    {
      DbState(rows, clock, nextId, opens, closes, statements, commits)
    }

    /** An empty table with no connection open. */
    constructor ()
      ensures Valid() && !connected
      ensures Snapshot() == DbState([], 0, 0, 0, 0, 0, 0)
    {
      rows, pending := [], [];
      clock, nextId := 0, 0;
      connected := false;
      opens, closes, statements, commits := 0, 0, 0, 0;
    }

    /** `pymysql.connect(...)`; `fail` says whether it raises. */
    method Connect(fail: bool) returns (ok: bool)
      requires Valid() && !connected
      modifies this
      ensures Valid() && pending == []
      ensures ok == !fail && connected == ok
      ensures Snapshot() == if ok then old(Snapshot()).(opens := old(opens) + 1) else old(Snapshot())
    {
      ok := !fail;
      if ok {
        connected := true;
        opens := opens + 1;
      }
    }

    /** `INSERT INTO imc_history (height, weight, imc) ...`: the row joins the open transaction. */
    method Insert(height: real, weight: real, imc: real, fail: bool) returns (ok: bool)
      requires Valid() && connected
      modifies this
      ensures Valid() && connected && rows == old(rows)
      ensures ok == !fail
      ensures pending == if ok then old(pending) + [Row(old(nextId), height, weight, imc, old(clock))] else old(pending)
      ensures Snapshot() == if ok
        then old(Snapshot()).(statements := old(statements) + 1, nextId := old(nextId) + 1, clock := old(clock) + 1)
        else old(Snapshot()).(statements := old(statements) + 1)
    {
      statements := statements + 1;
      ok := !fail;
      if ok {
        assert (rows + pending) + [Row(nextId, height, weight, imc, clock)]
            == rows + (pending + [Row(nextId, height, weight, imc, clock)]);
        pending := pending + [Row(nextId, height, weight, imc, clock)];
        nextId := nextId + 1;
        clock := clock + 1;
      }
    }

    /** `connection.commit()`: the open transaction's rows become part of the table. */
    method Commit(fail: bool) returns (ok: bool)
      requires Valid() && connected
      modifies this
      ensures Valid() && connected
      ensures ok == !fail
      ensures ok ==> rows == old(rows) + old(pending) && pending == []
      ensures ok ==> Snapshot() == old(Snapshot()).(rows := old(rows) + old(pending), commits := old(commits) + 1)
      ensures !ok ==> pending == old(pending) && Snapshot() == old(Snapshot())
    {
      ok := !fail;
      if ok {
        rows, pending := rows + pending, [];
        assert rows + pending == old(rows + pending);
        commits := commits + 1;
      }
    }

    /** `SELECT * FROM imc_history ORDER BY created_at DESC` and `fetchall()`. */
    method Select(fail: bool) returns (result: Option<seq<Row>>)
      requires Valid() && connected
      modifies this
      ensures Valid() && connected && pending == old(pending)
      ensures result == if fail then None else Some(SortDesc(rows + pending))
      ensures Snapshot() == old(Snapshot()).(statements := old(statements) + 1)
    {
      statements := statements + 1;
      if fail {
        result := None;
      } else {
        result := Some(SortDesc(rows + pending));
      }
    }

    /** `connection.close()`: an uncommitted transaction is rolled back. */
    method Close()
      requires Valid() && connected
      modifies this
      ensures Valid() && !connected
      ensures Snapshot() == old(Snapshot()).(closes := old(closes) + 1)
    {
      ChronologicalPrefix(rows, pending, clock, nextId);
      pending := [];
      assert rows + pending == rows;
      connected := false;
      closes := closes + 1;
    }
  }

}
