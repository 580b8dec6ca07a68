/**
 * The collect loop of the tabular (CSV) deserializer. The row parser is a
 * library; what it yields (after skipping the header row) is the input
 * `rows`, and the numeric coercion of the third column is the parameter
 * `toNum`.
 */
module CsvParser {
  import opened Records
  import Verifier

  /** Every row the parser yields carries at least the three record columns. */
  predicate WellFormedRows(rows: seq<seq<string>>)
  {
    forall i :: 0 <= i < |rows| ==> |rows[i]| >= 3
  }

  /** Positional column mapping: column 0, 1 and 2 become firstName, lastName and teamId. */
  function RowToRecord(row: seq<string>, toNum: string -> int): (r: Record)
    requires |row| >= 3
  {
    Record(row[0], row[1], toNum(row[2]))
  }

  /** Reference definition: the records for `rows`, built by appending one mapped row at a time. */
  function MapRows(rows: seq<seq<string>>, toNum: string -> int): (r: seq<Record>)
    requires WellFormedRows(rows)
  {
    if rows == [] then []
    else MapRows(rows[..|rows| - 1], toNum) + [RowToRecord(rows[|rows| - 1], toNum)]
  }

  /** MapRows yields one record per row, and record `i` is built from row `i`'s first three columns. */
  lemma {:induction false} MapRowsAt(rows: seq<seq<string>>, toNum: string -> int)
    requires WellFormedRows(rows)
    ensures |MapRows(rows, toNum)| == |rows|
    ensures forall i :: 0 <= i < |rows| ==>
              MapRows(rows, toNum)[i].firstName == rows[i][0] &&
              MapRows(rows, toNum)[i].lastName == rows[i][1] &&
              MapRows(rows, toNum)[i].teamId == toNum(rows[i][2])
  {
    if rows != [] {
      var init := rows[..|rows| - 1];
      MapRowsAt(init, toNum);
      forall i | 0 <= i < |rows| - 1 ensures rows[i] == init[i] { }
    }
  }

  /** Mapping is compositional: rows yielded in two stretches give the two stretches' records, in order. */
  lemma {:induction false} MapRowsAppend(a: seq<seq<string>>, b: seq<seq<string>>, toNum: string -> int)
    requires WellFormedRows(a) && WellFormedRows(b)
    ensures WellFormedRows(a + b)
    ensures MapRows(a + b, toNum) == MapRows(a, toNum) + MapRows(b, toNum)
    decreases |b|
  {
    assert forall i :: 0 <= i < |a + b| ==> (a + b)[i] == if i < |a| then a[i] else b[i - |a|];
    if b != [] {
      var bInit := b[..|b| - 1];
      assert (a + b)[..|a + b| - 1] == a + bInit;
      MapRowsAppend(a, bInit, toNum);
    } else {
      assert a + b == a;
    }
  }

  /**
   * The deserializer's loop: for each row in yield order, push the record
   * mapped from it. After `k` iterations the results are the records of
   * the first `k` rows.
   */
  method Deserialize(rows: seq<seq<string>>, toNum: string -> int) returns (results: seq<Record>)
    requires WellFormedRows(rows)
    ensures results == MapRows(rows, toNum)
    ensures |results| == |rows|
    ensures forall i :: 0 <= i < |rows| ==>
              results[i] == Record(rows[i][0], rows[i][1], toNum(rows[i][2]))
  {
    results := [];
    var k := 0;
    while k < |rows|
      invariant 0 <= k <= |rows|
      invariant results == MapRows(rows[..k], toNum)
    {
      assert rows[..k + 1][..k] == rows[..k];
      results := results + [RowToRecord(rows[k], toNum)];
      k := k + 1;
    }
    assert rows[..k] == rows;
    MapRowsAt(rows, toNum);
  }

  /**
   * `rows` is a faithful rendering of `records`: one row per record, in
   * order, with the names in columns 0 and 1 and a third column that
   * `toNum` reads back as the team id.
   */
  predicate Renders(rows: seq<seq<string>>, records: seq<Record>, toNum: string -> int)
  {
    |rows| == |records| &&
    forall i :: 0 <= i < |rows| ==>
      |rows[i]| >= 3 && rows[i][0] == records[i].firstName &&
      rows[i][1] == records[i].lastName && toNum(rows[i][2]) == records[i].teamId
  }

  /**
   * Whenever the row parser yields a faithful rendering of the batch, the
   * collect loop's result passes the verifier against that batch.
   */
  lemma RoundTripVerifies(records: seq<Record>, rows: seq<seq<string>>, toNum: string -> int)
    requires Renders(rows, records, toNum)
    ensures WellFormedRows(rows)
    ensures Verifier.Check(records, MapRows(rows, toNum)) == Verifier.Ok
  {
    MapRowsAt(rows, toNum);
    assert MapRows(rows, toNum) == records;
    Verifier.CheckReflexive(records);
  }
}
