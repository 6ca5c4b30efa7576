/** The default event store: persists aggregates' events as atomic batches and reads them back. */
module EventStore {
  import opened Wrappers
  import opened EventModel
  import opened PartitionKeys
  import opened Batches
  import opened Paging
  import opened Repository

  class EventStore {
    /** The repository of event items the store delegates to. */
    const repository: Repository
    /** How the store's item type is constructed from an event and a partition key. */
    const construct: ItemFactory

    constructor (repository: Repository, construct: ItemFactory)
      ensures this.repository == repository && this.construct == construct
    {
      this.repository := repository;
      this.construct := construct;
    }

    /**
     * `PersistAsync(items)`: an empty batch is a no-op; a non-empty batch must hold exactly
     * one atomic item, else nothing is written; an accepted batch is written as it is.
     */
    method Persist(items: seq<EventItem>) returns (outcome: Outcome<StoreError>)
      modifies repository
      ensures items == [] ==> outcome == Pass && repository.batches == old(repository.batches)
      ensures items != [] && AtomicCount(items) != 1 ==>
                outcome == Fail(AtomicEventRequired) && repository.batches == old(repository.batches)
      ensures items != [] && AtomicCount(items) == 1 ==>
                outcome == Pass && repository.batches == old(repository.batches) + [items]
      ensures items != [] && outcome == Pass ==>
                forall partitionKey: string, x: EventItem :: x in Read(partitionKey) <==>
                  x in old(Read(partitionKey)) || (x in items && x.partitionKey == partitionKey)
    {
      if |items| == 0 {
        return Pass;
      }
      if AtomicCount(items) != 1 {
        return Fail(AtomicEventRequired);
      }
      ghost var written := repository.batches;
      repository.UpdateAsBatch(items);
      outcome := Pass;
      forall partitionKey: string
        ensures Filter(repository.Stored(), PartitionFilter(partitionKey)) ==
                Filter(Flatten(written), PartitionFilter(partitionKey)) + Filter(items, PartitionFilter(partitionKey))
      {
        GetAfterBatch(written, items, PartitionFilter(partitionKey));
      }
    }

    /**
     * `PersistAsync(aggregateRoot, partitionKeyValue)`: builds the aggregate's batch with the
     * given partition key and persists it; a failed construction writes nothing.
     */
    method PersistAggregateWithKey(aggregate: Aggregate, partitionKeyValue: string) returns (outcome: Outcome<StoreError>)
      modifies repository
      ensures BuiltBatch(aggregate, partitionKeyValue, construct).Failure? ==>
                outcome == Fail(EventItemConstructionFailed) && repository.batches == old(repository.batches)
      ensures BuiltBatch(aggregate, partitionKeyValue, construct).Success? ==>
                var items := BuiltBatch(aggregate, partitionKeyValue, construct).value;
                (AtomicCount(items) != 1 ==>
                   outcome == Fail(AtomicEventRequired) && repository.batches == old(repository.batches)) &&
                (AtomicCount(items) == 1 ==>
                   outcome == Pass && repository.batches == old(repository.batches) + [items])
    {
      BuiltBatchShape(aggregate, partitionKeyValue, construct);
      var built := BuildEvents(aggregate, partitionKeyValue, construct);
      match built
      case Failure(e) =>
        outcome := Fail(e);
      case Success(items) =>
        outcome := Persist(items);
    }

    /**
     * `PersistAsync(aggregateRoot)`: resolves the partition key from the aggregate's attributed
     * property, then persists as above; a resolution error writes nothing.
     */
    method PersistAggregate(aggregate: Aggregate) returns (outcome: Outcome<StoreError>)
      modifies repository
      ensures GetEventItemPartitionKeyValue(aggregate).Failure? ==>
                outcome == Fail(GetEventItemPartitionKeyValue(aggregate).error) &&
                repository.batches == old(repository.batches)
      ensures GetEventItemPartitionKeyValue(aggregate).Success? ==>
                var partitionKey := GetEventItemPartitionKeyValue(aggregate).value;
                (BuiltBatch(aggregate, partitionKey, construct).Failure? ==>
                   outcome == Fail(EventItemConstructionFailed) && repository.batches == old(repository.batches)) &&
                (BuiltBatch(aggregate, partitionKey, construct).Success? ==>
                   var items := BuiltBatch(aggregate, partitionKey, construct).value;
                   (AtomicCount(items) != 1 ==>
                      outcome == Fail(AtomicEventRequired) && repository.batches == old(repository.batches)) &&
                   (AtomicCount(items) == 1 ==>
                      outcome == Pass && repository.batches == old(repository.batches) + [items]))
    {
      match GetEventItemPartitionKeyValue(aggregate)
      case Failure(e) =>
        outcome := Fail(e);
      case Success(partitionKey) =>
        outcome := PersistAggregateWithKey(aggregate, partitionKey);
    }

    /** `ReadAsync(partitionKey)`: the stored items of the partition. */
    function Read(partitionKey: string): (r: seq<EventItem>)
      reads repository
      ensures forall x :: x in r <==> x in repository.Stored() && x.partitionKey == partitionKey
    {
      repository.Get(PartitionFilter(partitionKey))
    }

    /** `ReadAsync(partitionKey, predicate)`: the stored items that satisfy the predicate and lie in the partition. */
    function ReadWhere(partitionKey: string, condition: EventItem -> bool): (r: seq<EventItem>)
      reads repository
      ensures forall x :: x in r <==> x in repository.Stored() && condition(x) && x.partitionKey == partitionKey
    {
      repository.Get((x: EventItem) => condition(x) && x.partitionKey == partitionKey)
    }

    /**
     * StreamAsync: fetches pages of the partition starting from a null token, yields each
     * page's items in order, and stops after the first page whose continuation is null.
     * `fetched` records the tokens of the fetches; every fetch uses the same partition
     * filter and page size.
     */
    method Stream(fetch: PageFetch, partitionKey: string, chunkSize: int := 25, ghost bound: nat)
      returns (streamed: seq<EventItem>, ghost fetched: seq<Option<string>>)
      requires EndsWithin(fetch, PartitionFilter(partitionKey), chunkSize, None, bound)
      ensures streamed == StreamFrom(fetch, PartitionFilter(partitionKey), chunkSize, None, bound)
      ensures fetched == FetchTokens(fetch, PartitionFilter(partitionKey), chunkSize, None, bound)
      ensures FetchTrace(fetch, PartitionFilter(partitionKey), chunkSize, fetched) && |fetched| <= bound
      ensures streamed == Flatten(PageItems(fetch, PartitionFilter(partitionKey), chunkSize, fetched))
    {
      var filter := PartitionFilter(partitionKey);
      var token: Option<string> := None;
      streamed, fetched := [], [];
      ghost var fuel := bound;
      ghost var whole := StreamFrom(fetch, filter, chunkSize, None, bound);
      ghost var allTokens := FetchTokens(fetch, filter, chunkSize, None, bound);
      var more := true;
      while more
        invariant more ==> EndsWithin(fetch, filter, chunkSize, token, fuel)
        invariant more ==> streamed + StreamFrom(fetch, filter, chunkSize, token, fuel) == whole
        invariant more ==> fetched + FetchTokens(fetch, filter, chunkSize, token, fuel) == allTokens
        invariant !more ==> streamed == whole && fetched == allTokens
        decreases if more then fuel else 0
      {
        var page := fetch(filter, chunkSize, token);
        StreamStep(fetch, filter, chunkSize, token, fuel, streamed, whole);
        TokenStep(fetch, filter, chunkSize, token, fuel, fetched, allTokens);
        fetched := fetched + [token];
        token := page.continuation;
        ghost var before := streamed;
        for j := 0 to |page.items|
          invariant streamed == before + page.items[..j]
        {
          streamed := streamed + [page.items[j]];
        }
        assert page.items[..|page.items|] == page.items;
        more := token.Some?;
        fuel := fuel - 1;
      }
      FetchTokensTrace(fetch, filter, chunkSize, None, bound);
      StreamFromPages(fetch, filter, chunkSize, None, bound);
    }
  }
}
