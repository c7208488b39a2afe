# Order lifecycle — a Dafny model

This project models the order lifecycle of a small three-program system:
an HTTP API creates orders, a Cosmos DB container stores them, an Event Grid
topic carries an `Order.Created` event for each, and a background worker
reading the topic's Event Hubs stream marks each created order `Processed`.

The model covers:

- the order repository (`OrderRepository`: point read, full scan, insert, status update);
- the order service (`OrderService`: validated creation with persist-then-publish, lookup by id, listing);
- the event-handling body of the worker (`Worker.ProcessEventHandler`);
- the validation attributes of the creation request (`CreateOrderDto`).

The publisher (`OrderEventPublisher`) is modelled as far as the service and
the worker need it: the envelope it builds and a send that succeeds or fails.

The modules follow the program:

| module | file | what it holds |
|---|---|---|
| `Domain` | `domain.dfy` | the order record, its status, 32-bit quantities, the exception taxonomy as a `Failure` datatype, `string.IsNullOrWhiteSpace` |
| `Dtos` | `dtos.dfy` | the creation request and its validation attributes, the event snapshot and its mapping |
| `Repositories` | `order_repository.dfy` | the container as a class over a map from id to document plus the scan order; each operation proved against a function of the old contents |
| `EventGrid` | `event_grid.dfy` | the event envelope and the publisher class |
| `Services` | `order_service.dfy` | the guard chain, creation, lookups, and the service class |
| `OrderWorker` | `worker.dfy` | the handler's loop as a function over the event list, its properties, and the worker class with its checkpoint |
| `Lifecycle` | `lifecycle.dfy` | end-to-end properties across service, topic and worker |

Exceptions become values. A `Failure` is one of:

- `Validation(guard)` for a `ValidationException`;
- `NotFound(id)` for a `NotFoundException`;
- `Infrastructure(inner)` for an `InfrastructureException`, with its inner exception;
- `LibraryException` for anything the SDKs throw;
- `NullReference` for a `NullReferenceException`.

Every C# catch block that wraps an exception adds one `Infrastructure` layer, so a
publish failure seen by the caller of `CreateOrderAsync` is
`Infrastructure(Infrastructure(LibraryException))`.

What the database, the topic and the clock do is passed in as arguments:

- `Fault`: an SDK error, a read that answers with no document, or a failing write;
- `failingPage`: the page of a scan that fails;
- `publishFails`: the topic rejects the send;
- `checkpointFails`: the checkpoint write fails;
- `newId` for `Guid.NewGuid()`;
- `now` for `DateTime.UtcNow`.

Amounts are whole cents (`decimal` 19.99 is `1999`). The quantity is a 32-bit
`Int32` newtype.

The model follows the code as written. Five places where the code departs from
what its own error taxonomy evidently intends are under "## Findings". Each one
has a corrected definition beside the as-written one, with the intended
property proved about it.

## Model

| member | source | states |
|---|---|---|
| `Dtos.SnapshotRoundTrip` | Order.Api/MappingProfiles/OrderMappingProfile.cs:13 | The event snapshot of an order carries every field, so the order can be rebuilt from it exactly, and the other way round. |
| `Dtos.StringLengthAdmitsBlankNames` | Order.Domain/DTOs/CreateOrderDto.cs:8 | The length attribute alone accepts null and a three-space name, though both are null-or-white-space. |
| `Dtos.QuantityRangeIsPositivity` | Order.Domain/DTOs/CreateOrderDto.cs:15-17 | On a 32-bit quantity, `[Range(1, int.MaxValue)]` holds exactly when the quantity is positive. |
| `Dtos.AmountRangeIsStricterThanPositivity` | Order.Domain/DTOs/CreateOrderDto.cs:19-21 | The amount range implies a positive amount. A positive amount of ten million is still out of range. |
| `Repositories.GetFindsStoredOrder` | Order.Infrastructure/Repositories/OrderRepository.cs:25-44 | A healthy read returns the stored order, or null for an absent id (a 404 is not an error). An SDK failure is an InfrastructureException. |
| `Repositories.AddInsertsFreshKeyOnly` | Order.Infrastructure/Repositories/OrderRepository.cs:68-81 | An insert succeeds exactly for a fresh id on a healthy call. It then adds that one document and keeps every other. Otherwise it changes nothing and fails with an InfrastructureException. |
| `Repositories.UpdateChangesOnlyStatus` | Order.Infrastructure/Repositories/OrderRepository.cs:83-109 | The update succeeds exactly when the id is stored and the calls are healthy. It rewrites only that order's status, keeps every other document and the key set, and a failed update changes nothing. A bare NotFound is reported exactly for an absent id whose read did not fail, and every other failure, including an SDK error and a failed write, is an InfrastructureException. |
| `Repositories.UpdateOfAbsentIdIsNotFound` | Order.Infrastructure/Repositories/OrderRepository.cs:88-108 | An absent id gives NotFound and creates no record. A read with no document gives an InfrastructureException around NotFound. |
| `Repositories.IntendedUpdateReportsNotFound` | Order.Infrastructure/Repositories/OrderRepository.cs:90-103 | In the corrected update, NotFound is reported exactly when the read finds no document, and never wrapped. It otherwise succeeds and changes the store exactly as the written one does. |
| `Repositories.UpdateIsIdempotent` | Order.Infrastructure/Repositories/OrderRepository.cs:95-96 | Setting the status an order already has leaves the store identical, so a second identical update is a no-op. |
| `Repositories.DocumentsListStore` | Order.Infrastructure/Repositories/OrderRepository.cs:51-57 | The full scan lists every stored order exactly once and nothing else. |
| `Repositories.ListOutcomeIsListing` | Order.Infrastructure/Repositories/OrderRepository.cs:46-66 | The listing fails exactly when one of the pages it reads fails, and it always reads the first page. A failure is an InfrastructureException. A success holds every stored order exactly once. |
| `Repositories.OrderRepository.GetOrder` | Order.Infrastructure/Repositories/OrderRepository.cs:25-44 | The read returns the point-read outcome of the current documents, and any order it returns is the stored one under that id. |
| `Repositories.OrderRepository.GetOrders` | Order.Infrastructure/Repositories/OrderRepository.cs:46-66 | The page loop returns every document in scan order, or the wrapped failure of the first failing page. It always reads at least one page. |
| `Repositories.OrderRepository.AddOrder` | Order.Infrastructure/Repositories/OrderRepository.cs:68-81 | The store after the insert is the insert outcome on the old store. A new id is appended to the scan order, and the key invariant is kept. |
| `Repositories.OrderRepository.UpdateOrderStatus` | Order.Infrastructure/Repositories/OrderRepository.cs:83-109 | The store after the update is the update outcome on the old store. The scan order and the key invariant are kept. |
| `EventGrid.OrderCreatedEvent` | Order.Infrastructure/EventGrid/OrderEventPublisher.cs:34-38 | The envelope has type `Order.Created` and carries the snapshot as its data. |
| `EventGrid.OrderEventPublisher.PublishOrderCreatedEvent` | Order.Infrastructure/EventGrid/OrderEventPublisher.cs:25-48 | A send appends exactly that envelope to the topic. A failed send appends nothing and is an InfrastructureException. |
| `Services.FirstFailingGuard` | Order.Infrastructure/Services/OrderService.cs:35-54 | No guard fires exactly when the request is present and passes every check. |
| `Services.GuardsRunInOrder` | Order.Infrastructure/Services/OrderService.cs:39-54 | The guard that reports is the first failing one, in the order customer name, product name, quantity, amount. |
| `Services.CreateRejection` | Order.Infrastructure/Services/OrderService.cs:33-54 | A request that is not rejected is present and has both names. |
| `Services.NullRequestIsNullReference` | Order.Infrastructure/Services/OrderService.cs:33-38 | As written, a null request fails with a NullReferenceException. The null guard never reports. |
| `Services.IntendedCreateRejection` | Order.Infrastructure/Services/OrderService.cs:35-38 | In the corrected version, every rejection is a ValidationException, a null request is rejected by the null guard, and acceptance is exactly passing the guards. |
| `Services.RejectionsAgreeOnRequests` | Order.Infrastructure/Services/OrderService.cs:33-54 | The written and corrected rejections agree on every present request. They differ only on null. |
| `Services.AnnotationsImplyGuards` | Order.Domain/DTOs/CreateOrderDto.cs:7-21 | A request that satisfies its validation attributes passes every guard of the service. |
| `Services.RangesPassNumericGuards` | Order.Infrastructure/Services/OrderService.cs:47-54 | The two range attributes alone already rule out the quantity and amount guards. |
| `Services.LengthAndRangesAdmitBlankName` | Order.Infrastructure/Services/OrderService.cs:39-42 | Without `[Required]`, a request of valid length and ranges with a blank name still reaches the customer-name guard. |
| `Services.GuardsAdmitShortProductName` | Order.Infrastructure/Services/OrderService.cs:35-54 | The guards do not check length: a two-character product name breaks the length attribute, yet the service creates the order. |
| `Services.RejectedRequestHasNoEffect` | Order.Infrastructure/Services/OrderService.cs:35-54 | A rejected request fails with its rejection, stores nothing and publishes nothing. |
| `Services.CreatedOrderIsFreshAndComplete` | Order.Infrastructure/Services/OrderService.cs:58-70 | A created order has a fresh id, status Created and the given timestamp, and copies the request's fields. It is stored under its id, and the published event is its snapshot. |
| `Services.PersistFailureAddsNothing` | Order.Infrastructure/Services/OrderService.cs:56-76 | When the insert fails, the creation fails with an InfrastructureException around it, stores nothing and publishes nothing. |
| `Services.PublishFailureKeepsOrder` | Order.Infrastructure/Services/OrderService.cs:63-76 | When the publish fails, the caller gets an InfrastructureException but the Created order stays stored. This is the dual-write gap. |
| `Services.PublishedOnlyAfterPersist` | Order.Infrastructure/Services/OrderService.cs:63-67 | An event is published only for an order that the same call stored, and only when the call succeeds. |
| `Services.CreationAddsOnlyValidatedOrders` | Order.Infrastructure/Services/OrderService.cs:35-63 | Every document a creation adds is Created, has non-blank names and a positive quantity and amount. No other document changes. |
| `Services.LookupOutcomes` | Order.Infrastructure/Services/OrderService.cs:79-102 | Each lookup outcome follows its condition: a blank id is a ValidationException, a stored id returns its order, a missing id is an InfrastructureException around NotFound, and a store failure is a doubly wrapped InfrastructureException. |
| `Services.LookupNeverReportsNotFound` | Order.Infrastructure/Services/OrderService.cs:89-101 | As written, a lookup never fails with a bare NotFound. |
| `Services.IntendedGetById` | Order.Infrastructure/Services/OrderService.cs:87-101 | The corrected lookup lets the NotFoundException for a missing order through, as the controller's `catch (NotFoundException)` expects: on a healthy store it reports NotFound exactly when the id is absent. Any order it returns is the stored one. |
| `Services.GetAllListsEveryOrder` | Order.Infrastructure/Services/OrderService.cs:104-118 | Listing all orders returns every stored order exactly once, or an InfrastructureException when a page fails. |
| `Services.OrderService.CreateOrder` | Order.Infrastructure/Services/OrderService.cs:31-77 | The method returns the creation outcome on the old store and leaves the store and the topic as that outcome says. The repository invariant is kept. |
| `Services.OrderService.GetOrderById` | Order.Infrastructure/Services/OrderService.cs:79-102 | The method returns the lookup outcome. Any order it returns is the stored one. |
| `Services.OrderService.GetAllOrders` | Order.Infrastructure/Services/OrderService.cs:104-118 | The method returns the listing outcome of the current store and scan order. |
| `OrderWorker.StepFailureChangesNothing` | Order.Worker/Worker.cs:58-71 | An event whose handling throws changes no document. |
| `OrderWorker.AbortedStaysAborted` | Order.Worker/Worker.cs:56-80 | Once an event has thrown, later events of the body are not attempted. |
| `OrderWorker.FailureStopsTheBody` | Order.Worker/Worker.cs:56-80 | When the k-th event throws, the earlier updates stay applied, the run ends with that exception, and nothing after it changes. |
| `OrderWorker.CompletesIffEveryEventHandled` | Order.Worker/Worker.cs:56-75 | The body completes exactly when every event, taken in turn, is handled without an exception. |
| `OrderWorker.IgnoredEventsChangeNothing` | Order.Worker/Worker.cs:58 | A body with no `Order.Created` event changes nothing and completes. |
| `OrderWorker.SkippedEventIsPassedOver` | Order.Worker/Worker.cs:58-71 | An event of another type, or one with a null payload, is passed over as if absent. |
| `OrderWorker.HandleOnlyMarksProcessed` | Order.Worker/Worker.cs:56-73 | A run neither adds nor removes documents. It changes at most each order's status, and only to Processed. An order that no `Order.Created` payload names keeps its value. |
| `OrderWorker.StatusNeverRegresses` | Order.Worker/Worker.cs:65 | A Processed order stays stored and Processed through any run. |
| `OrderWorker.CompletedRunMarksProcessed` | Order.Worker/Worker.cs:56-73 | After a completed run, no `Order.Created` event was undecodable, and every order such an event named is stored and Processed. |
| `OrderWorker.AllProcessedIsNoOp` | Order.Worker/Worker.cs:56-73 | When every order named is already stored and Processed, a healthy run changes nothing and completes. |
| `OrderWorker.RedeliveryIsNoOp` | Order.Worker/Worker.cs:56-75 | Redelivering a body after a completed run changes nothing and completes again, so the handler is idempotent. |
| `OrderWorker.HealthyRunCompletesIffAllFound` | Order.Worker/Worker.cs:56-73 | On a healthy store, a run completes exactly when every `Order.Created` event decodes and names a stored order. |
| `OrderWorker.IntendedHandle` | Order.Worker/Worker.cs:56-73 | The corrected run keeps the key set and stops only on an InfrastructureException, never on a missing order or an undecodable payload. |
| `OrderWorker.IntendedRunSkipsMissingOrders` | Order.Worker/Worker.cs:56-73 | On a healthy store, the corrected run always completes: events for missing orders and undecodable payloads are passed over. |
| `OrderWorker.IntendedRunMarksStoredOrdersProcessed` | Order.Worker/Worker.cs:56-73 | On a healthy store, after the corrected run every stored order that an `Order.Created` payload names is Processed, including those after a skipped event. |
| `OrderWorker.IntendedRunOnlyMarksProcessed` | Order.Worker/Worker.cs:56-73 | The corrected run, like the written one, keeps the key set and changes at most each order's status, always to Processed. An order that no `Order.Created` payload names keeps its value. |
| `OrderWorker.MissingOrderBlocksTheBody` | Order.Worker/Worker.cs:56-80 | As written, an event for a missing order stops the body: the next event's order stays Created and no checkpoint is written. The corrected run processes it. |
| `OrderWorker.UndecodableEventBlocksTheBody` | Order.Worker/Worker.cs:58-80 | As written, an `Order.Created` event whose payload cannot be converted stops the body: the next event's order stays Created and no checkpoint is written. The corrected run skips it and processes the next. |
| `OrderWorker.Worker.ProcessEvent` | Order.Worker/Worker.cs:44-81 | The loop leaves the documents as the run function says. It checkpoints the event's sequence number exactly when the body parsed, every event was handled and the checkpoint write succeeded. Otherwise the checkpoint is unchanged. |
| `Lifecycle.CreatedOrderIsProcessedByWorker` | Order.Infrastructure/Services/OrderService.cs:56-70 | A valid request with a fresh id is stored as Created and its event published. The worker handling that event checkpoints, and the lookup then returns the same order as Processed. |
| `Lifecycle.AcmeWidgetIsProcessed` | Order.Infrastructure/Services/OrderService.cs:58-70 | Acme ordering two Widgets for 19.99 is created as Created and, after the worker has handled its event, looked up as Processed. |
| `Lifecycle.ZeroQuantityIsRejected` | Order.Infrastructure/Services/OrderService.cs:47-50 | A quantity of zero is a ValidationException. The store and its listing stay as they were, and nothing is published. |
| `Lifecycle.UnpublishedOrderStaysCreated` | Order.Infrastructure/Services/OrderService.cs:63-76 | An order whose publish failed stays Created through any run of events that do not name it. |
| `Lifecycle.CreateThenProcess` | Order.Infrastructure/Services/OrderService.cs:31-77 | Through the objects: create, let the worker handle the published event, then look up. The lookup returns the order Processed, and the worker's checkpoint is the event's sequence number. |

## Left out

- Logging, `async`/`await`, cancellation tokens, dependency injection, configuration settings and the programs' start-up code: they have no effect on the results modelled.
- The HTTP controllers and authentication: they are outside the modelled core. The controller's NotFound handling is cited only as evidence for a finding.
- The framework applying the validation attributes before the service runs: the attributes are predicates related to the service's guards by lemmas, not a step of the modelled calls. The length limits of the names are enforced only there, since the service's guards do not check length.
- Guid and Cosmos id formats: `newId` is any string. Freshness is a premise where a property needs it, and an id that is already stored is the insert conflict.
- String lengths are counted in Dafny characters, not UTF-16 code units.
- `decimal` amounts below one cent are not representable. Amounts are whole cents.
- `DateTime` is an integer timestamp.
- JSON parsing of the event body: `EventGridEvent.ParseMany` and `ToObjectFromJson` are reduced to their three outcomes (parsed, null, throws). A missing `eventArgs.Data` is folded into the unparsable body, since both end in the catch-all without a checkpoint.
- A null id inside an event payload: ids are strings. The SDK's failure on a null id would be an InfrastructureException, like `SdkError`.
- Null route ids for the lookup: a null id and an empty id take the same blank-id branch.
- The publisher's null check on its argument: the service never passes null.
- The Cosmos query iterator's continuation tokens and page sizes: a scan reads its documents in pages of `pageSize` in the container's enumeration order, and `failingPage` names a page whose read throws.
- The order of a full scan: Cosmos DB promises no order for a query without ORDER BY, and with the id as partition key the order follows the partitions. The model fixes it to insertion order (`keys`, to which `AddOrder` appends). No property depends on it: a listing is judged by `IsListingOf`, which ignores order.
- Concurrency between partitions and between requests: each operation is modelled as one atomic call on the store.
- The `NotFoundException` and `ValidationException` types: their declaring files are not part of this model. They appear only as `Failure` cases.
- Repositories.OrderRepository.GetOrders: the `IsListingOf` property of its result is proved by `Repositories.ListOutcomeIsListing` about the function the method returns, rather than stated in the method's own contract.

## Findings

| source | as written | input that shows it | evidently intended | confidence | as-written member | corrected member |
|---|---|---|---|---|---|---|
| Order.Infrastructure/Services/OrderService.cs:90-101 | The NotFoundException for a missing order is thrown inside the `try` and caught by `catch (Exception)`, so callers receive an InfrastructureException around it, and the controller's NotFound branch never runs. | `GetOrderByIdAsync("x")` on a healthy store without "x". | Report NotFound for a missing order. | high; not executed | `Services.LookupNeverReportsNotFound` | `Services.IntendedGetById` |
| Order.Infrastructure/Services/OrderService.cs:33-38 | `dto.CustomerName` is logged before the null check, so a null request throws NullReferenceException, and the null guard cannot fire. | `CreateOrderAsync(null)` | A ValidationException for a null request. | high; not executed | `Services.NullRequestIsNullReference` | `Services.IntendedCreateRejection` |
| Order.Worker/Worker.cs:56-80 | The NotFoundException from the status update leaves the loop. The remaining events of the body are skipped and no checkpoint is written, so one stale event blocks the events after it in its body, and again whenever that body is redelivered. | A body with an `Order.Created` event for missing "a", then one for stored "b". | Log the missing order, go on with the next event, and checkpoint; `OrderWorker.IntendedRunMarksStoredOrdersProcessed` proves the later events are applied, and `OrderWorker.IntendedRunOnlyMarksProcessed` that nothing else changes. | medium; not executed | `OrderWorker.MissingOrderBlocksTheBody` | `OrderWorker.IntendedRunSkipsMissingOrders` |
| Order.Worker/Worker.cs:60-71 | `ToObjectFromJson` throws on a payload it cannot convert. The exception leaves the loop for the catch-all, so the remaining events are skipped and no checkpoint is written. The warning for an unconvertible payload is reached only for a JSON null. | A body with an `Order.Created` event whose data cannot be converted, then one for stored "b". | Log the malformed event, skip it, go on with the next event, and checkpoint; `OrderWorker.IntendedRunMarksStoredOrdersProcessed` proves the later events are applied, and `OrderWorker.IntendedRunOnlyMarksProcessed` that nothing else changes. | medium; not executed | `OrderWorker.UndecodableEventBlocksTheBody` | `OrderWorker.IntendedRunSkipsMissingOrders` |
| Order.Infrastructure/Repositories/OrderRepository.cs:90-108 | The NotFoundException thrown for a read with no document is caught by the method's own `catch (Exception)` and wrapped as an InfrastructureException. | A read of a stored id whose response carries no document. | Report NotFound, as the 404 branch does. | low; not executed | `Repositories.UpdateOfAbsentIdIsNotFound` | `Repositories.IntendedUpdateReportsNotFound` |
