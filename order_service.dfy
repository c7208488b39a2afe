/*
 * Order.Infrastructure/Services/OrderService.cs: the write path (guards, then
 * persist, then publish) and the two lookups. Guid.NewGuid() and
 * DateTime.UtcNow are the arguments `newId` and `now`; what the database and
 * the event topic do beyond their contents is given by `storeFault`,
 * `publishFails`, `fault` and `failingPage`.
 */
module Services {
  import opened Domain
  import opened Dtos
  import opened Repositories
  import opened EventGrid

  // ---------------------------------------------------------------------------
  // The guard chain.

  /** The request passes every guard of the chain. */
  predicate PassesGuards(d: CreateOrderDto)
  {
    && !IsNullOrWhiteSpace(d.customerName)
    && !IsNullOrWhiteSpace(d.productName)
    && d.quantity > 0
    && d.totalAmountCents > 0
  }

  /** The guards of CreateOrderAsync, run in order; the first that fails names the ValidationException. */
  function FirstFailingGuard(dto: Option<CreateOrderDto>): (g: Option<Guard>)
    ensures g.None? <==> dto.Some? && PassesGuards(dto.value)
  {
    if dto.None? then Some(NullDto)
    else if IsNullOrWhiteSpace(dto.value.customerName) then Some(BlankCustomerName)
    else if IsNullOrWhiteSpace(dto.value.productName) then Some(BlankProductName)
    else if dto.value.quantity <= 0 then Some(NonPositiveQuantity)
    else if dto.value.totalAmountCents <= 0 then Some(NonPositiveAmount)
    else None
  }

  /**
   * Each guard reports only when every guard before it passed: a blank customer
   * name wins over everything after it, and so on down the chain.
   */
  lemma GuardsRunInOrder(d: CreateOrderDto)
    ensures IsNullOrWhiteSpace(d.customerName) ==> FirstFailingGuard(Some(d)) == Some(BlankCustomerName)
    ensures !IsNullOrWhiteSpace(d.customerName) && IsNullOrWhiteSpace(d.productName) ==>
      FirstFailingGuard(Some(d)) == Some(BlankProductName)
    ensures !IsNullOrWhiteSpace(d.customerName) && !IsNullOrWhiteSpace(d.productName) && d.quantity <= 0 ==>
      FirstFailingGuard(Some(d)) == Some(NonPositiveQuantity)
    ensures !IsNullOrWhiteSpace(d.customerName) && !IsNullOrWhiteSpace(d.productName) && d.quantity > 0
            && d.totalAmountCents <= 0 ==>
      FirstFailingGuard(Some(d)) == Some(NonPositiveAmount)
    ensures FirstFailingGuard(Some(d)) != Some(NullDto) && FirstFailingGuard(Some(d)) != Some(BlankOrderId)
  {
  }

  /**
   * What CreateOrderAsync throws before its try block, as written: the request
   * is dereferenced for logging ahead of the null check, so a null request
   * raises a NullReferenceException and never reaches the NullDto guard.
   */
  function CreateRejection(dto: Option<CreateOrderDto>): (r: Option<Failure>)
    ensures r.None? ==> dto.Some? && dto.value.customerName.Some? && dto.value.productName.Some?
  {
    if dto.None? then Some(NullReference)
    else match FirstFailingGuard(dto)
      case Some(g) => Some(Validation(g))
      case None => None
  }

  /** As written, a null request is a NullReferenceException and the NullDto guard never fires. */
  lemma NullRequestIsNullReference(dto: Option<CreateOrderDto>)
    ensures CreateRejection(None) == Some(NullReference)
    ensures CreateRejection(dto) != Some(Validation(NullDto))
  {
  }

  /** The rejection the guard chain evidently intends: a null request is a ValidationException too. */
  function IntendedCreateRejection(dto: Option<CreateOrderDto>): (r: Option<Failure>)
    ensures r.None? <==> dto.Some? && PassesGuards(dto.value)
    ensures r.Some? ==> r.value.Validation?
    ensures dto.None? ==> r == Some(Validation(NullDto))
  {
    match FirstFailingGuard(dto)
    case Some(g) => Some(Validation(g))
    case None => None
  }

  /** The two rejections differ only on the null request. */
  lemma RejectionsAgreeOnRequests(d: CreateOrderDto)
    ensures CreateRejection(Some(d)) == IntendedCreateRejection(Some(d))
    ensures CreateRejection(None) != IntendedCreateRejection(None)
  {
  }

  /** A request whose attributes all hold passes every guard: for validated HTTP requests the guards never fire. */
  lemma AnnotationsImplyGuards(d: CreateOrderDto)
    requires AnnotationsValid(d)
    ensures PassesGuards(d) && FirstFailingGuard(Some(d)) == None
  {
  }

  /** The quantity and amount ranges alone already pass the two numeric guards. */
  lemma RangesPassNumericGuards(d: CreateOrderDto)
    requires QuantityInRange(d.quantity) && AmountInRange(d.totalAmountCents)
    ensures FirstFailingGuard(Some(d)) != Some(NonPositiveQuantity)
    ensures FirstFailingGuard(Some(d)) != Some(NonPositiveAmount)
  {
  }

  /**
   * The length attributes and the ranges do not make the name guards
   * redundant: a customer name of three spaces satisfies them and is rejected.
   */
  lemma LengthAndRangesAdmitBlankName()
    ensures var d := CreateOrderDto(Some("   "), Some("Widget"), 2, 1999);
      && StringLengthValid(d.customerName) && StringLengthValid(d.productName)
      && QuantityInRange(d.quantity) && AmountInRange(d.totalAmountCents)
      && FirstFailingGuard(Some(d)) == Some(BlankCustomerName)
  {
    assert IsWhiteSpace(' ');
  }

  /**
   * The guards do not check length: a two-character product name breaks the
   * length attribute, yet the service stores the order. Only the framework's
   * validation of the request, before the service runs, turns it away.
   */
  lemma GuardsAdmitShortProductName(items: map<string, Order>, newId: string, now: int)
    requires newId !in items
    ensures var d := CreateOrderDto(Some("Acme"), Some("ab"), 2, 1999);
      && !StringLengthValid(d.productName) && !AnnotationsValid(d)
      && CreateOutcome(items, Some(d), newId, now, NoFault, false).result.Ok?
  {
    assert "Acme"[0] == 'A' && !IsWhiteSpace('A');
    assert "ab"[0] == 'a' && !IsWhiteSpace('a');
  }

  // ---------------------------------------------------------------------------
  // Creation.

  /**
   * The order built from a request that passed the guards: the request's
   * fields copied, then the fresh id, status Created and the creation time set.
   */
  function NewOrder(d: CreateOrderDto, newId: string, now: int): Order
    requires d.customerName.Some? && d.productName.Some?
  {
    Order(newId, d.customerName.value, d.productName.value, d.quantity, d.totalAmountCents, Created, now)
  }

  /** What a creation returns, the documents after it, and the event the topic accepted, if any. */
  datatype Creation = Creation(result: Result<Order>, items: map<string, Order>, published: Option<EventGridEvent>)

  /**
   * CreateOrderAsync on values: rejection before any call; otherwise insert,
   * then publish, each failure wrapped once more in an InfrastructureException.
   */
  function CreateOutcome(items: map<string, Order>, dto: Option<CreateOrderDto>, newId: string, now: int,
                         storeFault: Fault, publishFails: bool): Creation
  {
    match CreateRejection(dto)
    case Some(f) => Creation(Err(f), items, None)
    case None =>
      var order := NewOrder(dto.value, newId, now);
      var add := AddOutcome(items, order, storeFault);
      if add.outcome.Err? then Creation(Err(Infrastructure(add.outcome.error)), items, None)
      else if publishFails then Creation(Err(Infrastructure(Infrastructure(LibraryException))), add.items, None)
      else Creation(Ok(order), add.items, Some(OrderCreatedEvent(Snapshot(order))))
  }

  /** A rejected request calls neither the repository nor the publisher. */
  lemma RejectedRequestHasNoEffect(items: map<string, Order>, dto: Option<CreateOrderDto>, newId: string, now: int,
                                   storeFault: Fault, publishFails: bool)
    requires CreateRejection(dto).Some?
    ensures CreateOutcome(items, dto, newId, now, storeFault, publishFails)
         == Creation(Err(CreateRejection(dto).value), items, None)
  {
  }

  /**
   * A successful creation returns an order under an id that was not stored
   * before, with status Created, the given time and the request's fields; the
   * documents gain exactly that order and the topic its snapshot.
   */
  lemma CreatedOrderIsFreshAndComplete(items: map<string, Order>, dto: Option<CreateOrderDto>, newId: string, now: int,
                                       storeFault: Fault, publishFails: bool)
    requires CreateOutcome(items, dto, newId, now, storeFault, publishFails).result.Ok?
    ensures var c := CreateOutcome(items, dto, newId, now, storeFault, publishFails);
      var o := c.result.value;
      && dto.Some? && PassesGuards(dto.value)
      && newId !in items && o.id == newId
      && o.status == Created && o.createdAtUtc == now
      && Some(o.customerName) == dto.value.customerName && Some(o.productName) == dto.value.productName
      && o.quantity == dto.value.quantity && o.totalAmountCents == dto.value.totalAmountCents
      && c.items == items[newId := o]
      && c.published == Some(OrderCreatedEvent(Snapshot(o)))
  {
  }

  /** Persisting comes first: when the insert fails nothing is stored and nothing is published. */
  lemma PersistFailureAddsNothing(items: map<string, Order>, d: CreateOrderDto, newId: string, now: int,
                                  storeFault: Fault, publishFails: bool)
    requires PassesGuards(d)
    requires newId in items || storeFault == SdkError || storeFault == WriteError
    ensures CreateOutcome(items, Some(d), newId, now, storeFault, publishFails)
         == Creation(Err(Infrastructure(Infrastructure(LibraryException))), items, None)
  {
  }

  /**
   * When the publish fails after a successful insert, the caller sees an
   * InfrastructureException yet the order stays stored with status Created.
   */
  lemma PublishFailureKeepsOrder(items: map<string, Order>, d: CreateOrderDto, newId: string, now: int)
    requires PassesGuards(d) && newId !in items
    ensures var c := CreateOutcome(items, Some(d), newId, now, NoFault, true);
      && c.result == Err(Infrastructure(Infrastructure(LibraryException)))
      && c.published.None?
      && c.items == items[newId := NewOrder(d, newId, now)]
      && c.items[newId].status == Created
  {
  }

  /**
   * An event is published only for an order already stored by this call, and
   * it carries that stored order's snapshot: same id, fields, status and time.
   */
  lemma PublishedOnlyAfterPersist(items: map<string, Order>, dto: Option<CreateOrderDto>, newId: string, now: int,
                                  storeFault: Fault, publishFails: bool)
    ensures var c := CreateOutcome(items, dto, newId, now, storeFault, publishFails);
      c.published.Some? ==>
        && c.result.Ok?
        && newId !in items && newId in c.items
        && c.published.value == OrderCreatedEvent(Snapshot(c.items[newId]))
        && Described(c.published.value.data.dto) == c.items[newId]
  {
    var c := CreateOutcome(items, dto, newId, now, storeFault, publishFails);
    if c.published.Some? {
      SnapshotRoundTrip(c.items[newId], c.published.value.data.dto);
    }
  }

  /** An order that passed the guards has non-blank names and positive quantity and amount. */
  ghost predicate Validated(o: Order)
  {
    !AllWhiteSpace(o.customerName) && !AllWhiteSpace(o.productName) && o.quantity > 0 && o.totalAmountCents > 0
  }

  /** Creation never changes a stored order, and the only order it adds passed validation and is Created. */
  lemma CreationAddsOnlyValidatedOrders(items: map<string, Order>, dto: Option<CreateOrderDto>, newId: string, now: int,
                                        storeFault: Fault, publishFails: bool)
    ensures var c := CreateOutcome(items, dto, newId, now, storeFault, publishFails);
      && items.Keys <= c.items.Keys
      && (forall id :: id in items ==> c.items[id] == items[id])
      && (forall id :: id in c.items && id !in items ==> id == newId && Validated(c.items[id]) && c.items[id].status == Created)
  {
  }

  // ---------------------------------------------------------------------------
  // Lookups.

  /**
   * GetOrderByIdAsync on values, as written: a blank id is a
   * ValidationException; every other outcome passes through the method's
   * catch-all, so a missing order, whose NotFoundException is thrown inside the
   * try block, reaches the caller as an InfrastructureException around it.
   */
  function GetByIdOutcome(items: map<string, Order>, orderId: string, fault: Fault): Result<Order>
  {
    if AllWhiteSpace(orderId) then Err(Validation(BlankOrderId))
    else match GetOutcome(items, orderId, fault)
      case Err(e) => Err(Infrastructure(e))
      case Ok(None) => Err(Infrastructure(NotFound(orderId)))
      case Ok(Some(o)) => Ok(o)
  }

  /** Every outcome of a lookup, as written. */
  lemma LookupOutcomes(items: map<string, Order>, orderId: string, fault: Fault)
    ensures AllWhiteSpace(orderId) ==> GetByIdOutcome(items, orderId, fault) == Err(Validation(BlankOrderId))
    ensures !AllWhiteSpace(orderId) && fault == NoFault && orderId in items ==>
      GetByIdOutcome(items, orderId, fault) == Ok(items[orderId])
    ensures !AllWhiteSpace(orderId) && fault != SdkError && orderId !in items ==>
      GetByIdOutcome(items, orderId, fault) == Err(Infrastructure(NotFound(orderId)))
    ensures !AllWhiteSpace(orderId) && fault == SdkError ==>
      GetByIdOutcome(items, orderId, fault) == Err(Infrastructure(Infrastructure(LibraryException)))
  {
  }

  /** As written, a lookup never throws a bare NotFoundException, so the caller's not-found branch is unreachable. */
  lemma LookupNeverReportsNotFound(items: map<string, Order>, orderId: string, fault: Fault)
    ensures var r := GetByIdOutcome(items, orderId, fault);
      !(r.Err? && r.error.NotFound?)
  {
  }

  /** The lookup the service evidently intends: a missing order surfaces as NotFound itself. */
  function IntendedGetById(items: map<string, Order>, orderId: string, fault: Fault): (r: Result<Order>)
    ensures !AllWhiteSpace(orderId) && fault == NoFault ==> (r == Err(NotFound(orderId)) <==> orderId !in items)
    ensures r.Ok? ==> orderId in items && r.value == items[orderId]
    ensures AllWhiteSpace(orderId) ==> r == Err(Validation(BlankOrderId))
  {
    if AllWhiteSpace(orderId) then Err(Validation(BlankOrderId))
    else match GetOutcome(items, orderId, fault)
      case Err(e) => Err(Infrastructure(e))
      case Ok(None) => Err(NotFound(orderId))
      case Ok(Some(o)) => Ok(o)
  }

  /** GetAllOrdersAsync on values: the repository's listing, its failure wrapped once more. */
  function GetAllOutcome(items: map<string, Order>, keys: seq<string>, pageSize: nat, failingPage: Option<nat>): Result<seq<Order>>
    requires pageSize > 0
  {
    match ListOutcome(items, keys, pageSize, failingPage)
    case Ok(orders) => Ok(orders)
    case Err(e) => Err(Infrastructure(e))
  }

  /**
   * Listing all orders returns every stored order exactly once, or, when a page
   * read fails, an InfrastructureException around the repository's.
   */
  lemma GetAllListsEveryOrder(items: map<string, Order>, keys: seq<string>, pageSize: nat, failingPage: Option<nat>)
    requires KeyedById(items) && Enumerates(keys, items) && pageSize > 0
    ensures var r := GetAllOutcome(items, keys, pageSize, failingPage);
      && (r.Ok? ==> IsListingOf(r.value, items))
      && (r.Err? ==> r.error == Infrastructure(Infrastructure(LibraryException)))
      && (failingPage.None? ==> r.Ok?)
  {
    ListOutcomeIsListing(items, keys, pageSize, failingPage);
  }

  // ---------------------------------------------------------------------------
  // The service object.

  class OrderService {
    const repository: OrderRepository
    const publisher: OrderEventPublisher

    constructor (repository: OrderRepository, publisher: OrderEventPublisher)
      ensures this.repository == repository && this.publisher == publisher
    {
      this.repository := repository;
      this.publisher := publisher;
    }

    /** CreateOrderAsync. */
    method CreateOrder(dto: Option<CreateOrderDto>, newId: string, now: int, storeFault: Fault, publishFails: bool)
      returns (r: Result<Order>)
      requires repository.Valid()
      modifies repository, publisher
      ensures repository.Valid()
      ensures var c := CreateOutcome(old(repository.items), dto, newId, now, storeFault, publishFails);
        && r == c.result
        && repository.items == c.items
        && repository.keys == old(repository.keys) + (if newId !in old(repository.items) && newId in c.items then [newId] else [])
        && publisher.sent == old(publisher.sent) + (if c.published.Some? then [c.published.value] else [])
    {
      var rejection := CreateRejection(dto);
      if rejection.Some? {
        return Err(rejection.value);
      }
      var order := NewOrder(dto.value, newId, now);
      var added := repository.AddOrder(order, storeFault);
      if added.Err? {
        return Err(Infrastructure(added.error));
      }
      var sent := publisher.PublishOrderCreatedEvent(Snapshot(order), publishFails);
      if sent.Err? {
        return Err(Infrastructure(sent.error));
      }
      r := Ok(order);
    }

    /** GetOrderByIdAsync. */
    method GetOrderById(orderId: string, fault: Fault) returns (r: Result<Order>)
      requires repository.Valid()
      ensures r == GetByIdOutcome(repository.items, orderId, fault)
      ensures r.Ok? ==> orderId in repository.items && r.value == repository.items[orderId]
    {
      if AllWhiteSpace(orderId) {
        return Err(Validation(BlankOrderId));
      }
      var found := repository.GetOrder(orderId, fault);
      match found
      case Err(e) =>
        r := Err(Infrastructure(e));
      case Ok(None) =>
        // the NotFoundException thrown here lands in the catch-all
        r := Err(Infrastructure(NotFound(orderId)));
      case Ok(Some(o)) =>
        r := Ok(o);
    }

    /** GetAllOrdersAsync. */
    method GetAllOrders(pageSize: nat, failingPage: Option<nat>) returns (r: Result<seq<Order>>)
      requires pageSize > 0
      ensures r == GetAllOutcome(repository.items, repository.keys, pageSize, failingPage)
    {
      var listed := repository.GetOrders(pageSize, failingPage);
      match listed
      case Ok(orders) =>
        r := Ok(orders);
      case Err(e) =>
        r := Err(Infrastructure(e));
    }
  }
}
