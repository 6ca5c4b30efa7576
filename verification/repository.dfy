/**
 * The repository the event store writes to and reads from. It is a collaborator of the
 * store: the model keeps only what the store relies on, the log of batches written so far.
 */
module Repository {
  import opened EventModel

  class Repository {
    /** The batches written so far, oldest first; each was written as one unit. */
    var batches: seq<seq<EventItem>>

    constructor ()
      ensures batches == []
    {
      batches := [];
    }

    /** Every stored item, in write order. */
    function Stored(): seq<EventItem>
      reads this
    {
      Flatten(batches)
    }

    /** `UpdateAsBatchAsync`: writes the items as one new batch. */
    method UpdateAsBatch(items: seq<EventItem>)
      modifies this
      ensures batches == old(batches) + [items]
    {
      batches := batches + [items];
    }

    /** `GetAsync(predicate)`: the stored items that satisfy the predicate. */
    function Get(condition: EventItem -> bool): (r: seq<EventItem>)
      reads this
      ensures forall x :: x in r <==> x in Stored() && condition(x)
    {
      Filter(Stored(), condition)
    }
  }

  /** What a query sees after one more batch: what it saw before, then the batch's matching items. */
  lemma GetAfterBatch(batches: seq<seq<EventItem>>, items: seq<EventItem>, condition: EventItem -> bool)
    ensures Filter(Flatten(batches + [items]), condition) == Filter(Flatten(batches), condition) + Filter(items, condition)
  {
    assert (batches + [items])[..|batches|] == batches;
    FilterAppend(Flatten(batches), items, condition);
  }
}
