/** The entities the event store works on: domain events, aggregates, event items and errors. */
module EventModel {
  import opened Wrappers

  /** The event name that marks the one atomic (commit) event of a batch; `nameof(AtomicEvent)`. */
  const AtomicEventName: string := "AtomicEvent"

  /** A domain event raised by an aggregate; the payload is opaque to the store. */
  datatype DomainEvent = DomainEvent(eventName: string, payload: string)

  /** The persisted form of one domain event. */
  datatype EventItem = EventItem(partitionKey: string, eventName: string, payload: string)

  /**
   * A public property of an aggregate, as reflection sees it: its name, whether it
   * carries the event-item partition-key attribute, and its value in string form
   * (`None` for a null value).
   */
  datatype Property = Property(name: string, isPartitionKey: bool, value: Option<string>)

  /**
   * An aggregate root: the events it has raised since it was loaded, its atomic
   * event, and the name and public properties of its runtime type.
   */
  datatype Aggregate = Aggregate(
    typeName: string,
    properties: seq<Property>,
    newEvents: seq<DomainEvent>,
    atomicEvent: DomainEvent)

  /** The exceptions the store raises. */
  datatype StoreError =
      // `AtomicEventRequiredException`
    | AtomicEventRequired
      // `EventItemPartitionKeyAttributeRequiredException`, carrying the aggregate's type
    | PartitionKeyAttributeRequired(aggregateType: string)
      // `InvalidEventItemPartitionKeyAttributeCombinationException`, carrying the aggregate's type
    | InvalidPartitionKeyAttributeCombination(aggregateType: string)
      // `InvalidPartitionKeyValueException`, carrying the property's name and the aggregate's type
    | InvalidPartitionKeyValue(propertyName: string, aggregateType: string)
      // `InvalidOperationException` raised when an event item cannot be constructed
    | EventItemConstructionFailed

  /**
   * Construction of the store's item type from an event and a partition key
   * (`Activator.CreateInstance(typeof(TEventItem), event, partitionKey) as TEventItem`);
   * `None` is the null that the failed cast yields.
   */
  type ItemFactory = (DomainEvent, string) -> Option<EventItem>

  /** True of an item that carries the atomic event's name. */
  predicate IsAtomic(item: EventItem) {
    item.eventName == AtomicEventName
  }

  /**
   * A factory that, whenever it succeeds, stamps the item with the partition key
   * it was given and keeps the event's name (what the event-item base constructor does).
   */
  ghost predicate Conforming(construct: ItemFactory) {
    forall e: DomainEvent, pk: string {:trigger construct(e, pk)} ::
      construct(e, pk).Some? ==>
        construct(e, pk).value.partitionKey == pk && construct(e, pk).value.eventName == e.eventName
  }

  /** The partition filter `x => x.PartitionKey == partitionKey`. */
  function PartitionFilter(partitionKey: string): EventItem -> bool {
    (x: EventItem) => x.partitionKey == partitionKey
  }

  /** The items of `s` that satisfy `p`, in order. */
  function Filter(s: seq<EventItem>, p: EventItem -> bool): (r: seq<EventItem>)
    ensures forall x :: x in r <==> x in s && p(x)
    ensures |r| <= |s|
  {
    if s == [] then [] else (if p(s[0]) then [s[0]] else []) + Filter(s[1..], p)
  }

  /** The concatenation of a sequence of item sequences, in order. */
  function Flatten(ss: seq<seq<EventItem>>): seq<EventItem> {
    if ss == [] then [] else Flatten(ss[..|ss| - 1]) + ss[|ss| - 1]
  }

  /** Filtering distributes over concatenation. */
  lemma {:induction false} FilterAppend(a: seq<EventItem>, b: seq<EventItem>, p: EventItem -> bool)
    ensures Filter(a + b, p) == Filter(a, p) + Filter(b, p)
  {
    if a == [] {
      assert a + b == b;
    } else {
      assert (a + b)[0] == a[0] && (a + b)[1..] == a[1..] + b;
      FilterAppend(a[1..], b, p);
    }
  }
}
