# Default event store — a Dafny model

This project models the default event store of the Cosmos event-sourcing library
(`DefaultEventStore<TEventItem>`). The store sits on top of a repository of event items and:

- persists a batch of event items, requiring a non-empty batch to hold exactly one item named
  `AtomicEvent` (the commit marker) and handing an accepted batch to the repository's batch write;
- builds the batch for an aggregate root: one item per new event, then one item for the atomic
  event, all made with the same partition key, failing before any write if an item cannot be made;
- resolves an aggregate's partition key from its one property that carries the partition-key
  attribute, with distinct errors for no such property, several such properties, and a null value;
- reads a partition, optionally AND-ed with a caller's predicate;
- streams a partition page by page, following continuation tokens from a null token until a
  page comes back without one.

Modules (one file each):

- `Wrappers` (`wrappers.dfy`): `Option`, `Result`, `Outcome`, standing for nulls and exceptions.
- `EventModel` (`event_model.dfy`): domain events, event items, aggregates and their properties, the store's
  errors, the item factory, the partition filter, and filtering and flattening of item sequences.
- `PartitionKeys` (`partition_keys.dfy`): partition-key resolution.
- `Batches` (`batches.dfy`): the atomic-item count and the building of a batch from an aggregate.
- `Paging` (`paging.dfy`): pages, the page-fetch collaborator and what a paging loop's fetch trace is.
- `Repository` (`repository.dfy`): the repository collaborator as a class holding the log of written batches.
- `EventStore` (`event_store.dfy`): the store as a class: the three persist operations, the two reads and the stream.

Reflection is replaced by data: an `Aggregate` carries its type name and its public properties, each with
its name, whether it carries the partition-key attribute and its value in string form (`None` for null).
`Activator.CreateInstance(...) as TEventItem` becomes the store's `construct` function, which returns
`None` where the cast yields null. A factory is `Conforming` when every item it makes carries the
partition key and event name it was given; the properties that depend on what the item type's
constructor does are stated under that hypothesis. The repository's `PageAsync` is a function
parameter `fetch` of the stream. Thrown exceptions become `Fail`/`Failure` values of `StoreError`, one variant per exception:
`AtomicEventRequired` for `AtomicEventRequiredException`, `PartitionKeyAttributeRequired` for
`EventItemPartitionKeyAttributeRequiredException`, `InvalidPartitionKeyAttributeCombination` for
`InvalidEventItemPartitionKeyAttributeCombinationException`, `InvalidPartitionKeyValue` for
`InvalidPartitionKeyValueException` and `EventItemConstructionFailed` for `InvalidOperationException`.
The repository stand-in returns a query's matches in write order; the lemma `Repository.GetAfterBatch`
states that of the stand-in (a query after a write returns the earlier matches followed by the new
batch's matches) and is what `Persist` uses to state, by membership only, what a read sees after a write.

## Model

| member | source | states |
|---|---|---|
| `PartitionKeys.GetEventItemPartitionKeyValue` | src/Microsoft.Azure.CosmosEventSourcing/Stores/DefaultEventStore.cs:129-156 | Fails with the attribute-required error exactly when no property carries the attribute, with the combination error exactly when two do, with the invalid-value error (naming the property) exactly when the one attributed property is null; otherwise succeeds with that property's value |
| `PartitionKeys.PartitionKeyProperties` | src/Microsoft.Azure.CosmosEventSourcing/Stores/DefaultEventStore.cs:132-139 | The `Where(...).ToList()` attribute filter keeps only attributed properties and no more properties than there are; `NoKeyProperties`, `SeveralKeyPropertiesCount` and `SoleKeyPropertyCount` relate its count to the properties themselves |
| `PartitionKeys.NoKeyProperties` | src/Microsoft.Azure.CosmosEventSourcing/Stores/DefaultEventStore.cs:132-144 | The attribute filter keeps no property iff no property carries the attribute (the case-0 branch) |
| `PartitionKeys.SeveralKeyPropertiesCount` | src/Microsoft.Azure.CosmosEventSourcing/Stores/DefaultEventStore.cs:132-146 | The attribute filter keeps more than one property iff two distinct properties carry the attribute (the `> 1` branch) |
| `PartitionKeys.SoleKeyPropertyCount` | src/Microsoft.Azure.CosmosEventSourcing/Stores/DefaultEventStore.cs:141-149 | When the filter keeps exactly one property, that property is the only attributed one (what `Single()` picks) |
| `Batches.AtomicCount` | src/Microsoft.Azure.CosmosEventSourcing/Stores/DefaultEventStore.cs:36 | The count of items named `AtomicEvent` is at most the batch length; `AtomicCountZero` and `AtomicCountOne` say when it is zero and when it is one |
| `Batches.AtomicCountZero` | src/Microsoft.Azure.CosmosEventSourcing/Stores/DefaultEventStore.cs:36 | The count of items named `AtomicEvent` is zero iff no item has that name |
| `Batches.AtomicCountOne` | src/Microsoft.Azure.CosmosEventSourcing/Stores/DefaultEventStore.cs:36-39 | The count the guard tests is one iff exactly one item of the batch is named `AtomicEvent` and every other item is not |
| `Batches.ConstructAll` | src/Microsoft.Azure.CosmosEventSourcing/Stores/DefaultEventStore.cs:107-113 | The `Select(CreateInstance ... as TEventItem).ToList()` step, with the null check folded in: when it succeeds it has one item per event; `ConstructAllSpec` states when it succeeds and what each item is |
| `Batches.ConstructAllSpec` | src/Microsoft.Azure.CosmosEventSourcing/Stores/DefaultEventStore.cs:107-113 | Making items for a sequence of events succeeds iff every event constructs, and then yields one item per event, each at its event's position |
| `Batches.BuiltBatchShape` | src/Microsoft.Azure.CosmosEventSourcing/Stores/DefaultEventStore.cs:105-127 | The built batch exists iff every new event and the atomic event construct (otherwise the construction error); it then has `|NewEvents| + 1` items, the new events' items in order followed by the atomic event's item, so it is never empty |
| `Batches.BuiltBatchStamped` | src/Microsoft.Azure.CosmosEventSourcing/Stores/DefaultEventStore.cs:107-118 | With a conforming factory, every item of a built batch carries the partition key passed in |
| `Batches.BuiltBatchHasOneAtomic` | src/Microsoft.Azure.CosmosEventSourcing/Stores/DefaultEventStore.cs:115-118 | With a conforming factory, an aggregate whose atomic event alone is named `AtomicEvent` yields a batch with exactly one atomic item, so the persistence guard accepts it |
| `Batches.BuildEvents` | src/Microsoft.Azure.CosmosEventSourcing/Stores/DefaultEventStore.cs:105-127 | The list-building loop, the appended atomic item and the any-null check return exactly the built batch (or the construction error) |
| `EventStore.EventStore.Persist` | src/Microsoft.Azure.CosmosEventSourcing/Stores/DefaultEventStore.cs:26-44 | An empty batch succeeds and writes nothing; a non-empty batch whose atomic count is not one fails with `AtomicEventRequired` and writes nothing; otherwise exactly that batch, unchanged, is appended as one new batch, after which an item is in a partition's read iff it was there before or it is an item of the batch stamped with that partition key |
| `EventStore.EventStore.PersistAggregateWithKey` | src/Microsoft.Azure.CosmosEventSourcing/Stores/DefaultEventStore.cs:54-60 | A construction failure fails and writes nothing; otherwise the built batch goes through the same guard and is written as one batch when accepted |
| `EventStore.EventStore.PersistAggregate` | src/Microsoft.Azure.CosmosEventSourcing/Stores/DefaultEventStore.cs:46-52 | A partition-key resolution error is returned and nothing is written; otherwise the aggregate is persisted with the resolved key as above |
| `EventStore.EventStore.Read` | src/Microsoft.Azure.CosmosEventSourcing/Stores/DefaultEventStore.cs:62-66 | An item is returned iff it is stored and lies in the partition, i.e. its partition key equals the argument (the lambda `x => x.PartitionKey == partitionKey`, modelled by `EventModel.PartitionFilter`) |
| `EventStore.EventStore.ReadWhere` | src/Microsoft.Azure.CosmosEventSourcing/Stores/DefaultEventStore.cs:68-76 | An item is returned iff it is stored, satisfies the caller's predicate and lies in the partition |
| `EventStore.EventStore.Stream` | src/Microsoft.Azure.CosmosEventSourcing/Stores/DefaultEventStore.cs:78-103 | The do-while loop yields exactly the reference stream from a null token (each page's items, then the stream from its continuation, ending at the first page without one) and fetches with exactly the reference token list; hence at least one page is fetched, the first with a null token, each later one with the previous page's continuation, only the last page has no continuation, every fetch uses the partition filter `EventModel.PartitionFilter` (the lambda at lines 85-86) and `chunkSize`, and the output is the fetched pages' items concatenated in fetch order |
| `Paging.FetchTokensTrace` | src/Microsoft.Azure.CosmosEventSourcing/Stores/DefaultEventStore.cs:88-102 | The reference token list starts at the start token, follows each page's continuation, stops at the first page without one, and has at most `fuel` entries (the bound within which paging is assumed to end) |
| `Paging.StreamFromPages` | src/Microsoft.Azure.CosmosEventSourcing/Stores/DefaultEventStore.cs:96-101 | The reference stream is the concatenation, in fetch order, of the items of the pages fetched with the reference token list |
| `Paging.FetchTraceUnique` | src/Microsoft.Azure.CosmosEventSourcing/Stores/DefaultEventStore.cs:83-102 | The token sequence of the do-while paging loop is determined by the page source: two traces that both start at null, follow continuations and stop at the first null are equal |

## Left out

- `EventStore.EventStore.Stream`: requires that following continuations from a null token reaches a page without one within `bound` fetches; the source loops for as long as the repository keeps returning continuations, so a repository that never ends its paging is not modelled.
- `EventStore.EventStore.Stream`: the stream is returned as a finished sequence, not yielded lazily; cancellation between pages and an error raised by a page fetch are not modelled.
- `EventStore.EventStore.Read` and `EventStore.EventStore.ReadWhere`: state which items are returned, not their order or multiplicity, which belong to the repository's query.
- Expression trees and `Compose(..., Expression.AndAlso)` become plain predicates combined with `&&`.
- The repository (`UpdateAsBatchAsync`, `GetAsync`, `PageAsync`) is a collaborator: the model keeps only a log of written batches and a filtered read of it, and the page source is a parameter. Its atomicity, its rejection of cross-partition batches and its I/O errors are not modelled.
- `async`/`ValueTask`/`IAsyncEnumerable` and `CancellationToken` are left out; they carry no logic in the store.
- Reflection (`GetProperties`, `GetCustomAttributes`, `GetValue`) is replaced by the aggregate's list of properties; `ToString()` of the key value is taken as the stored string form. An `Activator.CreateInstance` that throws (no matching constructor) is not modelled; only the null result of the cast is.
- `InvalidOperationException` raised when an item cannot be constructed is the `EventItemConstructionFailed` error; its message text is not modelled.
- The store does not check that the partition key is non-empty, and neither does the model.
