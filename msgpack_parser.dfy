/**
 * The collect loop of the binary (MessagePack) deserializer. The streaming
 * array decoder is a library; the items it yields, in order, are the input.
 */
module MsgPackParser {

  /**
   * Pushes each decoded item unchanged. After `k` iterations the results
   * are the first `k` items, so the whole loop returns the items as yielded.
   */
  method Deserialize<T>(items: seq<T>) returns (results: seq<T>)
    ensures |results| == |items|
    ensures forall i :: 0 <= i < |items| ==> results[i] == items[i]
  {
    results := [];
    var k := 0;
    while k < |items|
      invariant 0 <= k <= |items|
      invariant results == items[..k]
    {
      results := results + [items[k]];
      k := k + 1;
    }
  }
}
