/** The benchmark's record shape and its synthetic-dataset generator. */
module Records {

  /** One benchmark record: two names and a numeric team id. */
  datatype Record = Record(firstName: string, lastName: string, teamId: int)

  /** The one fixed record every generated batch is made of. */
  function GenerateRecord(): (r: Record)
  {
    Record("asd", "asd", 12345)
  }

  /**
   * Builds a batch of `numberOfRecords` fresh copies of GenerateRecord(),
   * pushing one per iteration of a counting loop. A count of zero or less
   * runs the loop no times and yields the empty batch.
   */
  method GenerateRecords(numberOfRecords: int) returns (records: seq<Record>)
    ensures numberOfRecords <= 0 ==> records == []
    ensures numberOfRecords > 0 ==> |records| == numberOfRecords
    ensures forall i :: 0 <= i < |records| ==>
              records[i] == Record("asd", "asd", 12345)
  {
    records := [];
    var i := 0;
    while i < numberOfRecords
      invariant numberOfRecords > 0 ==> 0 <= i <= numberOfRecords
      invariant numberOfRecords <= 0 ==> i == 0
      invariant |records| == i
      invariant forall k :: 0 <= k < |records| ==> records[k] == GenerateRecord()
    {
      records := records + [GenerateRecord()];
      i := i + 1;
    }
  }
}
