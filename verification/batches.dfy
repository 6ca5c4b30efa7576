/** The atomic-event rule for batches, and the building of a batch from an aggregate. */
module Batches {
  import opened Wrappers
  import opened EventModel

  /** The number of items named as the atomic event (`Count(x => x.EventName is nameof(AtomicEvent))`). */
  function AtomicCount(items: seq<EventItem>): (r: nat)
    ensures r <= |items|
  {
    if items == [] then 0
    else (if IsAtomic(items[0]) then 1 else 0) + AtomicCount(items[1..])
  }

  /** Item `i` is the atomic event of the batch and no other item is. */
  predicate SoleAtomicAt(items: seq<EventItem>, i: int) {
    0 <= i < |items| && IsAtomic(items[i]) &&
    forall j :: 0 <= j < |items| && j != i ==> !IsAtomic(items[j])
  }

  /** The count is zero exactly when no item is atomic. */
  lemma {:induction false} AtomicCountZero(items: seq<EventItem>)
    ensures AtomicCount(items) == 0 <==> forall i :: 0 <= i < |items| ==> !IsAtomic(items[i])
  {
    if items != [] {
      AtomicCountZero(items[1..]);
      assert forall i :: 1 <= i < |items| ==> items[i] == items[1..][i - 1];
    }
  }

  /** The guard's count is one exactly when the batch has a single atomic item. */
  lemma {:induction false} AtomicCountOne(items: seq<EventItem>)
    ensures AtomicCount(items) == 1 <==> exists i :: SoleAtomicAt(items, i)
  {
    if items != [] {
      var tail := items[1..];
      AtomicCountOne(tail);
      AtomicCountZero(tail);
      assert forall i :: 1 <= i < |items| ==> items[i] == tail[i - 1];
      if AtomicCount(items) == 1 {
        if IsAtomic(items[0]) {
          assert SoleAtomicAt(items, 0);
        } else {
          var i :| SoleAtomicAt(tail, i);
          assert SoleAtomicAt(items, i + 1);
        }
      }
      if i :| SoleAtomicAt(items, i) {
        if i == 0 {
          assert forall k :: 0 <= k < |tail| ==> !IsAtomic(tail[k]);
        } else {
          assert SoleAtomicAt(tail, i - 1);
        }
      }
    }
  }

  /** One item per event, in order, or `None` if any construction fails. */
  function ConstructAll(events: seq<DomainEvent>, partitionKey: string, construct: ItemFactory): (r: Option<seq<EventItem>>)
    ensures r.Some? ==> |r.value| == |events|
  {
    if events == [] then Some([])
    else
      match construct(events[0], partitionKey)
      case None => None
      case Some(item) =>
        match ConstructAll(events[1..], partitionKey, construct)
        case None => None
        case Some(items) => Some([item] + items)
  }

  /** The batch BuildEvents makes: the new events followed by the atomic event. */
  function BuiltBatch(aggregate: Aggregate, partitionKey: string, construct: ItemFactory): Result<seq<EventItem>, StoreError> {
    match ConstructAll(aggregate.newEvents + [aggregate.atomicEvent], partitionKey, construct)
    case None => Failure(EventItemConstructionFailed)
    case Some(items) => Success(items)
  }

  /** ConstructAll succeeds exactly when every event constructs, and then keeps each item at its event's place. */
  lemma {:induction false} ConstructAllSpec(events: seq<DomainEvent>, partitionKey: string, construct: ItemFactory)
    ensures ConstructAll(events, partitionKey, construct).Some? <==>
              forall k :: 0 <= k < |events| ==> construct(events[k], partitionKey).Some?
    ensures ConstructAll(events, partitionKey, construct).Some? ==>
              var items := ConstructAll(events, partitionKey, construct).value;
              |items| == |events| &&
              forall k :: 0 <= k < |events| ==> construct(events[k], partitionKey) == Some(items[k])
  {
    if events != [] {
      var tail := events[1..];
      ConstructAllSpec(tail, partitionKey, construct);
      assert forall k :: 1 <= k < |events| ==> events[k] == tail[k - 1];
    }
  }

  /**
   * A built batch exists exactly when every event (new and atomic) constructs; it then
   * has one item per new event, in order, followed by the atomic event's item, so it is never empty.
   */
  lemma BuiltBatchShape(aggregate: Aggregate, partitionKey: string, construct: ItemFactory)
    ensures BuiltBatch(aggregate, partitionKey, construct).Success? <==>
              (forall k :: 0 <= k < |aggregate.newEvents| ==> construct(aggregate.newEvents[k], partitionKey).Some?) &&
              construct(aggregate.atomicEvent, partitionKey).Some?
    ensures BuiltBatch(aggregate, partitionKey, construct).Failure? ==>
              BuiltBatch(aggregate, partitionKey, construct).error == EventItemConstructionFailed
    ensures BuiltBatch(aggregate, partitionKey, construct).Success? ==>
              var items := BuiltBatch(aggregate, partitionKey, construct).value;
              var n := |aggregate.newEvents|;
              |items| == n + 1 &&
              (forall k :: 0 <= k < n ==> construct(aggregate.newEvents[k], partitionKey) == Some(items[k])) &&
              construct(aggregate.atomicEvent, partitionKey) == Some(items[n])
  {
    var events := aggregate.newEvents + [aggregate.atomicEvent];
    ConstructAllSpec(events, partitionKey, construct);
    assert forall k :: 0 <= k < |aggregate.newEvents| ==> events[k] == aggregate.newEvents[k];
    assert events[|aggregate.newEvents|] == aggregate.atomicEvent;
  }

  /** With a conforming factory, every item of a built batch carries the partition key passed in. */
  lemma BuiltBatchStamped(aggregate: Aggregate, partitionKey: string, construct: ItemFactory)
    requires Conforming(construct)
    ensures BuiltBatch(aggregate, partitionKey, construct).Success? ==>
              forall item :: item in BuiltBatch(aggregate, partitionKey, construct).value ==>
                item.partitionKey == partitionKey
  {
    var events := aggregate.newEvents + [aggregate.atomicEvent];
    ConstructAllSpec(events, partitionKey, construct);
  }

  /**
   * With a conforming factory, an aggregate whose atomic event alone carries the atomic
   * name yields a batch that the persistence guard accepts.
   */
  lemma BuiltBatchHasOneAtomic(aggregate: Aggregate, partitionKey: string, construct: ItemFactory)
    requires Conforming(construct)
    requires aggregate.atomicEvent.eventName == AtomicEventName
    requires forall k :: 0 <= k < |aggregate.newEvents| ==> aggregate.newEvents[k].eventName != AtomicEventName
    ensures BuiltBatch(aggregate, partitionKey, construct).Success? ==>
              AtomicCount(BuiltBatch(aggregate, partitionKey, construct).value) == 1
  {
    BuiltBatchShape(aggregate, partitionKey, construct);
    if BuiltBatch(aggregate, partitionKey, construct).Success? {
      var items := BuiltBatch(aggregate, partitionKey, construct).value;
      var n := |aggregate.newEvents|;
      assert SoleAtomicAt(items, n) by {
        assert forall k :: 0 <= k < n ==> items[k].eventName == aggregate.newEvents[k].eventName;
      }
      AtomicCountOne(items);
    }
  }

  /**
   * BuildEvents: one item per new event, then one for the atomic event, all made with the
   * same partition key; if any construction yields null the call fails before anything is written.
   */
  method BuildEvents(aggregate: Aggregate, partitionKey: string, construct: ItemFactory)
    returns (r: Result<seq<EventItem>, StoreError>)
    ensures r == BuiltBatch(aggregate, partitionKey, construct)
  {
    var events: seq<Option<EventItem>> := [];
    var i := 0;
    while i < |aggregate.newEvents|
      invariant 0 <= i <= |aggregate.newEvents|
      invariant |events| == i
      invariant forall k :: 0 <= k < i ==> events[k] == construct(aggregate.newEvents[k], partitionKey)
    {
      events := events + [construct(aggregate.newEvents[i], partitionKey)];
      i := i + 1;
    }
    events := events + [construct(aggregate.atomicEvent, partitionKey)];

    ghost var all := aggregate.newEvents + [aggregate.atomicEvent];
    assert forall k :: 0 <= k < |events| ==> events[k] == construct(all[k], partitionKey);
    ConstructAllSpec(all, partitionKey, construct);
    if exists e :: e in events && e.None? {
      r := Failure(EventItemConstructionFailed);
    } else {
      r := Success(seq(|events|, k requires 0 <= k < |events| => events[k].value));
      assert r.value == ConstructAll(all, partitionKey, construct).value;
    }
  }
}
