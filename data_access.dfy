/**
  The generator as the data-access object uses it: every insert or update
  builds a fresh `Util` and asks it for one batch.
 */
module DataAccess {
  import opened JavaLang
  import opened Persistence
  import Util

  /** The batch one insert or update writes.  Because the generator is new,
      the ids are exactly 1, 2, ..., `amountDataset`, so an update batch
      addresses the rows with those ids and no others. */
  method CreateFreshBatch(amountDataset: int32) returns (dataset: seq<BigData>)
    ensures |dataset| == if amountDataset > 0 then amountDataset else 0
    ensures forall k :: 0 <= k < |dataset| ==> dataset[k].id == k + 1
    ensures forall k :: 0 <= k < |dataset| ==> Util.IsRandomRecord(dataset[k])
  {
    var utility := new Util.Util();
    dataset := utility.CreateData(amountDataset);
    Util.BatchIdsAscending(dataset, 0);
  }
}
