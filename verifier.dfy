/**
 * The round-trip check: the deserialized batch must have the generated
 * batch's length and be deep-equal to it index by index.
 */
module Verifier {
  import opened Records

  /**
   * What `verify` ends with: it returns normally, or throws because the
   * lengths differ (both lengths, expected first), or throws from the
   * deep-equality assertion at the first differing index (with the two
   * records compared there).
   */
  datatype Outcome =
    | Ok
    | LengthMismatch(expectedLen: nat, actualLen: nat)
    | Mismatch(index: nat, expected: Record, actual: Record)

  /**
   * Reference definition of the index-aligned comparison of two batches of
   * equal length, starting at index `from`: the first index at which the
   * records differ, or Ok when none does.
   */
  function MismatchFrom(expected: seq<Record>, actual: seq<Record>, from: nat): (r: Outcome)
    requires |expected| == |actual| && from <= |expected|
    decreases |expected| - from
  {
    if from == |expected| then Ok
    else if expected[from] != actual[from] then Mismatch(from, expected[from], actual[from])
    else MismatchFrom(expected, actual, from + 1)
  }

  /** Reference definition of `verify`: the length check first, then the comparison. */
  function Check(expected: seq<Record>, actual: seq<Record>): (r: Outcome)
  {
    if |expected| != |actual| then LengthMismatch(|expected|, |actual|)
    else MismatchFrom(expected, actual, 0)
  }

  /**
   * The source's verifier: an early length check, then a loop that compares
   * the records at each index with deep strict equality (datatype equality
   * here) and stops at the first one that differs.
   */
  method Verify(expected: seq<Record>, actual: seq<Record>) returns (outcome: Outcome)
    ensures outcome == Check(expected, actual)
  {
    if |expected| != |actual| {
      return LengthMismatch(|expected|, |actual|);
    }
    var i := 0;
    while i < |expected|
      invariant 0 <= i <= |expected|
      invariant Check(expected, actual) == MismatchFrom(expected, actual, i)
    {
      if expected[i] != actual[i] {
        return Mismatch(i, expected[i], actual[i]);
      }
      i := i + 1;
    }
    return Ok;
  }

  /** The comparison from `from` never reports a length mismatch, and a reported index is in range and past `from`. */
  lemma {:induction false} MismatchFromShape(expected: seq<Record>, actual: seq<Record>, from: nat)
    requires |expected| == |actual| && from <= |expected|
    ensures !MismatchFrom(expected, actual, from).LengthMismatch?
    ensures MismatchFrom(expected, actual, from).Mismatch? ==>
              var m := MismatchFrom(expected, actual, from);
              from <= m.index < |expected| &&
              m.expected == expected[m.index] && m.actual == actual[m.index] &&
              expected[m.index] != actual[m.index] &&
              forall j :: from <= j < m.index ==> expected[j] == actual[j]
    decreases |expected| - from
  {
    if from < |expected| && expected[from] == actual[from] {
      MismatchFromShape(expected, actual, from + 1);
    }
  }

  /** The comparison from `from` succeeds exactly when the suffixes from `from` agree at every index. */
  lemma {:induction false} MismatchFromOk(expected: seq<Record>, actual: seq<Record>, from: nat)
    requires |expected| == |actual| && from <= |expected|
    ensures MismatchFrom(expected, actual, from) == Ok <==>
              forall j :: from <= j < |expected| ==> expected[j] == actual[j]
    decreases |expected| - from
  {
    if from < |expected| {
      MismatchFromOk(expected, actual, from + 1);
    }
  }

  /** `verify` fails with both lengths, expected first, exactly when the lengths differ. */
  lemma LengthMismatchIff(expected: seq<Record>, actual: seq<Record>)
    ensures Check(expected, actual) == LengthMismatch(|expected|, |actual|) <==>
              |expected| != |actual|
  {
    if |expected| == |actual| {
      MismatchFromShape(expected, actual, 0);
    }
  }

  /** `verify` succeeds exactly when the two batches are equal: same length, equal at every index. */
  lemma CheckOkIff(expected: seq<Record>, actual: seq<Record>)
    ensures Check(expected, actual) == Ok <==> expected == actual
  {
    if |expected| == |actual| {
      MismatchFromOk(expected, actual, 0);
    }
  }

  /** Verifying a batch against itself always succeeds. */
  lemma CheckReflexive(batch: seq<Record>)
    ensures Check(batch, batch) == Ok
  {
    CheckOkIff(batch, batch);
  }

  /**
   * With equal lengths, a failure names the smallest differing index: the
   * records there differ and are the ones reported, and all earlier indices agree.
   */
  lemma MismatchIsFirst(expected: seq<Record>, actual: seq<Record>)
    requires |expected| == |actual|
    requires Check(expected, actual) != Ok
    ensures Check(expected, actual).Mismatch?
    ensures var m := Check(expected, actual);
              m.index < |expected| &&
              expected[m.index] != actual[m.index] &&
              m.expected == expected[m.index] && m.actual == actual[m.index] &&
              forall j :: 0 <= j < m.index ==> expected[j] == actual[j]
  {
    MismatchFromShape(expected, actual, 0);
  }
}
