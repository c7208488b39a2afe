/*
 * Order.Infrastructure/Repositories/OrderRepository.cs: the order container,
 * keyed by order id, with its four operations. The container is a map from id
 * to stored document plus the order in which a full scan enumerates the ids.
 * What the document database does beyond its contents (a failing call, a read
 * that answers without a body) is an explicit `Fault` argument.
 */
module Repositories {
  import opened Domain

  /**
   * How the database behaves on one repository call.
   * `SdkError`: the call's first database request throws something other than
   * "404 Not Found". `NullResource`: a point read succeeds but carries no
   * document. `WriteError`: the read (if any) succeeds and the write throws.
   */
  datatype Fault = NoFault | SdkError | NullResource | WriteError

  /** A repository call that may change the documents: what it returns and the documents after. */
  datatype Effect = Effect(outcome: Result<()>, items: map<string, Order>)

  /** Every stored document sits under its own id. */
  ghost predicate KeyedById(items: map<string, Order>)
  {
    forall id :: id in items ==> items[id].id == id
  }

  /** `keys` enumerates the ids of `items`, each exactly once. */
  ghost predicate Enumerates(keys: seq<string>, items: map<string, Order>)
  {
    && (forall i, j :: 0 <= i < j < |keys| ==> keys[i] != keys[j])
    && (forall id :: id in items <==> id in keys)
  }

  // ---------------------------------------------------------------------------
  // The operations on values.

  /** GetOrderAsync: the order, null when absent (or read without a body), or the wrapped failure. */
  function GetOutcome(items: map<string, Order>, orderId: string, fault: Fault): Result<Option<Order>>
  {
    if fault == SdkError then Err(Infrastructure(LibraryException))
    else if orderId !in items then Ok(None)
    else if fault == NullResource then Ok(None)
    else Ok(Some(items[orderId]))
  }

  /** AddOrderAsync: create the document; an existing id is a conflict, surfaced like any failure. */
  function AddOutcome(items: map<string, Order>, order: Order, fault: Fault): Effect
  {
    if fault == SdkError || fault == WriteError || order.id in items then
      Effect(Err(Infrastructure(LibraryException)), items)
    else
      Effect(Ok(()), items[order.id := order])
  }

  /**
   * UpdateOrderStatusAsync: read, set Status, replace. A 404 on the read is
   * NotFound; the NotFoundException thrown for a read without a body is
   * caught by the method's own catch-all and comes out as an
   * InfrastructureException around it.
   */
  function UpdateOutcome(items: map<string, Order>, orderId: string, status: OrderStatus, fault: Fault): Effect
  {
    if fault == SdkError then Effect(Err(Infrastructure(LibraryException)), items)
    else if orderId !in items then Effect(Err(NotFound(orderId)), items)
    else if fault == NullResource then Effect(Err(Infrastructure(NotFound(orderId))), items)
    else if fault == WriteError then Effect(Err(Infrastructure(LibraryException)), items)
    else Effect(Ok(()), items[orderId := items[orderId].(status := status)])
  }

  /** The stored documents named by `keys`, in that order. */
  function Documents(items: map<string, Order>, keys: seq<string>): seq<Order>
  {
    if keys == [] then []
    else (if keys[0] in items then [items[keys[0]]] else []) + Documents(items, keys[1..])
  }

  /** How many pages a scan of `n` documents reads; an empty container still answers one empty page. */
  function PageCount(n: nat, pageSize: nat): (c: nat)
    requires pageSize > 0
    ensures c >= 1
    ensures n <= pageSize ==> c == 1
    decreases n
  {
    if n <= pageSize then 1 else 1 + PageCount(n - pageSize, pageSize)
  }

  /** Reading one page leaves one page fewer to read, unless it was the last one. */
  lemma PageCountStep(n: nat, pageSize: nat)
    requires pageSize > 0
    ensures n > pageSize ==> PageCount(n, pageSize) == 1 + PageCount(n - pageSize, pageSize)
  {
  }

  /** GetOrdersAsync: all documents in scan order, or the wrapped failure of a page read. */
  function ListOutcome(items: map<string, Order>, keys: seq<string>, pageSize: nat, failingPage: Option<nat>): Result<seq<Order>>
    requires pageSize > 0
  {
    if failingPage.Some? && failingPage.value < PageCount(|keys|, pageSize) then
      Err(Infrastructure(LibraryException))
    else
      Ok(Documents(items, keys))
  }

  /** `orders` holds every stored order exactly once and nothing else. */
  ghost predicate IsListingOf(orders: seq<Order>, items: map<string, Order>)
  {
    && (forall i, j :: 0 <= i < j < |orders| ==> orders[i].id != orders[j].id)
    && (forall i :: 0 <= i < |orders| ==> orders[i].id in items && items[orders[i].id] == orders[i])
    && (forall id :: id in items ==> exists i :: 0 <= i < |orders| && orders[i].id == id)
  }

  // ---------------------------------------------------------------------------
  // Properties of the operations.

  /** A read never changes anything and finds exactly the stored order; an absent id is null, not an error. */
  lemma GetFindsStoredOrder(items: map<string, Order>, orderId: string)
    ensures orderId in items ==> GetOutcome(items, orderId, NoFault) == Ok(Some(items[orderId]))
    ensures orderId !in items ==> GetOutcome(items, orderId, NoFault) == Ok(None)
    ensures GetOutcome(items, orderId, SdkError) == Err(Infrastructure(LibraryException))
  {
  }

  /**
   * An insert succeeds exactly for a fresh id on a healthy call, and then adds
   * that one key; otherwise it fails with an InfrastructureException and
   * changes nothing.
   */
  lemma AddInsertsFreshKeyOnly(items: map<string, Order>, order: Order, fault: Fault)
    ensures var e := AddOutcome(items, order, fault);
      && (e.outcome.Ok? <==> order.id !in items && (fault == NoFault || fault == NullResource))
      && (e.outcome.Ok? ==> e.items.Keys == items.Keys + {order.id} && e.items[order.id] == order
                             && forall id :: id in items ==> e.items[id] == items[id])
      && (e.outcome.Err? ==> e.items == items && e.outcome.error.Infrastructure?)
  {
  }

  /**
   * A successful status update rewrites only the status of the one order it
   * names. A bare NotFound comes exactly from an absent id whose read did not
   * fail; every other failure is an InfrastructureException.
   */
  lemma UpdateChangesOnlyStatus(items: map<string, Order>, orderId: string, status: OrderStatus, fault: Fault)
    ensures var e := UpdateOutcome(items, orderId, status, fault);
      && e.items.Keys == items.Keys
      && (e.outcome.Ok? <==> orderId in items && fault == NoFault)
      && (e.outcome.Ok? ==> e.items[orderId] == items[orderId].(status := status))
      && (forall id :: id in items && id != orderId ==> e.items[id] == items[id])
      && (e.outcome.Err? ==> e.items == items)
      && (e.outcome == Err(NotFound(orderId)) <==> orderId !in items && fault != SdkError)
      && (e.outcome.Err? && e.outcome != Err(NotFound(orderId)) ==> e.outcome.error.Infrastructure?)
  {
  }

  /**
   * An update of an absent id reports NotFound (unless the read itself fails)
   * and creates no record; a read without a body is an InfrastructureException
   * around NotFound.
   */
  lemma UpdateOfAbsentIdIsNotFound(items: map<string, Order>, orderId: string, status: OrderStatus, fault: Fault)
    ensures orderId !in items && fault != SdkError ==>
      UpdateOutcome(items, orderId, status, fault) == Effect(Err(NotFound(orderId)), items)
    ensures orderId in items ==>
      UpdateOutcome(items, orderId, status, NullResource) == Effect(Err(Infrastructure(NotFound(orderId))), items)
  {
  }

  /**
   * The update the error taxonomy evidently intends: a read without a body is
   * reported as NotFound, like the 404 it stands for, instead of being
   * wrapped by the catch-all.
   */
  function IntendedUpdateOutcome(items: map<string, Order>, orderId: string, status: OrderStatus, fault: Fault): Effect
  {
    if fault == NullResource && orderId in items then Effect(Err(NotFound(orderId)), items)
    else UpdateOutcome(items, orderId, status, fault)
  }

  /**
   * The intended update reports NotFound exactly when the read finds no
   * document, never wraps NotFound, and otherwise does what the written one does.
   */
  lemma IntendedUpdateReportsNotFound(items: map<string, Order>, orderId: string, status: OrderStatus, fault: Fault)
    ensures var e := IntendedUpdateOutcome(items, orderId, status, fault);
      && (e.outcome == Err(NotFound(orderId)) <==> fault != SdkError && (orderId !in items || fault == NullResource))
      && e.outcome != Err(Infrastructure(NotFound(orderId)))
      && e.items == UpdateOutcome(items, orderId, status, fault).items
      && (e.outcome.Ok? <==> UpdateOutcome(items, orderId, status, fault).outcome.Ok?)
  {
  }

  /** Setting the status an order already has leaves the documents identical, so updating twice is updating once. */
  lemma UpdateIsIdempotent(items: map<string, Order>, orderId: string, status: OrderStatus)
    ensures orderId in items && items[orderId].status == status ==>
      UpdateOutcome(items, orderId, status, NoFault).items == items
    ensures var once := UpdateOutcome(items, orderId, status, NoFault);
      UpdateOutcome(once.items, orderId, status, NoFault) == once
  {
  }

  /** When every key names a stored document, the scan yields exactly those documents, position by position. */
  lemma {:induction false} DocumentsOfStoredKeys(items: map<string, Order>, keys: seq<string>)
    requires forall i :: 0 <= i < |keys| ==> keys[i] in items
    ensures |Documents(items, keys)| == |keys|
    ensures forall i :: 0 <= i < |keys| ==> Documents(items, keys)[i] == items[keys[i]]
  {
    if keys != [] {
      DocumentsOfStoredKeys(items, keys[1..]);
    }
  }

  /** The scan's documents, over an enumeration of the container, list every stored order exactly once. */
  lemma DocumentsListStore(items: map<string, Order>, keys: seq<string>)
    requires KeyedById(items) && Enumerates(keys, items)
    ensures IsListingOf(Documents(items, keys), items)
  {
    DocumentsOfStoredKeys(items, keys);
    var docs := Documents(items, keys);
    forall id | id in items
      ensures exists i :: 0 <= i < |docs| && docs[i].id == id
    {
      var i :| 0 <= i < |keys| && keys[i] == id;
      assert docs[i].id == id;
    }
  }

  /** Appending the documents of one page to those of the pages before gives those of both. */
  lemma {:induction false} DocumentsConcat(items: map<string, Order>, a: seq<string>, b: seq<string>)
    ensures Documents(items, a + b) == Documents(items, a) + Documents(items, b)
  {
    if a == [] {
      assert a + b == b;
    } else {
      assert (a + b)[1..] == a[1..] + b;
      DocumentsConcat(items, a[1..], b);
    }
  }

  /**
   * A scan fails exactly when one of the pages it reads fails (there is always
   * at least the first), with an InfrastructureException; a scan that
   * succeeds returns every stored order exactly once.
   */
  lemma ListOutcomeIsListing(items: map<string, Order>, keys: seq<string>, pageSize: nat, failingPage: Option<nat>)
    requires KeyedById(items) && Enumerates(keys, items) && pageSize > 0
    ensures forall i :: 0 <= i < |keys| ==> keys[i] in items
    ensures var r := ListOutcome(items, keys, pageSize, failingPage);
      && (r.Err? <==> failingPage.Some? && failingPage.value < PageCount(|keys|, pageSize))
      && (failingPage == Some(0) ==> r.Err?)
      && (r.Err? ==> r.error == Infrastructure(LibraryException))
      && (r.Ok? ==> IsListingOf(r.value, items))
  {
    DocumentsListStore(items, keys);
  }

  // ---------------------------------------------------------------------------
  // The repository object.

  class OrderRepository {
    /** The container's documents, by id. */
    var items: map<string, Order>
    /**
     * The order in which a full scan of the container returns the ids. The
     * container promises no order; the model's choice is insertion order.
     */
    var keys: seq<string>

    ghost predicate Valid()
      reads this
    {
      KeyedById(items) && Enumerates(keys, items)
    }

    constructor ()
      ensures Valid() && items == map[] && keys == []
    {
      items := map[];
      keys := [];
    }

    /** GetOrderAsync. */
    method GetOrder(orderId: string, fault: Fault) returns (r: Result<Option<Order>>)
      requires Valid()
      ensures r == GetOutcome(items, orderId, fault)
      ensures r.Ok? && r.value.Some? ==> orderId in items && r.value.value == items[orderId] && r.value.value.id == orderId
    {
      if fault == SdkError {
        return Err(Infrastructure(LibraryException));
      }
      if orderId !in items {
        // ReadItemAsync answered 404
        return Ok(None);
      }
      var resource := if fault == NullResource then None else Some(items[orderId]);
      r := Ok(resource);
    }

    /**
     * GetOrdersAsync: read the scan page by page, appending each page to the
     * result, until the iterator reports no more results.
     */
    method GetOrders(pageSize: nat, failingPage: Option<nat>) returns (r: Result<seq<Order>>)
      requires pageSize > 0
      ensures r == ListOutcome(items, keys, pageSize, failingPage)
    {
      var orders: seq<Order> := [];
      var next, page := 0, 0;
      var hasMore := true;
      while hasMore
        invariant 0 <= next <= |keys|
        invariant orders == Documents(items, keys[..next])
        invariant hasMore ==> page + PageCount(|keys| - next, pageSize) == PageCount(|keys|, pageSize)
        invariant !hasMore ==> next == |keys| && page == PageCount(|keys|, pageSize)
        invariant failingPage.Some? ==> failingPage.value >= page
        decreases |keys| - next, hasMore
      {
        if failingPage == Some(page) {
          return Err(Infrastructure(LibraryException));
        }
        var end := if next + pageSize < |keys| then next + pageSize else |keys|;
        PageCountStep(|keys| - next, pageSize);
        assert keys[..end] == keys[..next] + keys[next..end];
        DocumentsConcat(items, keys[..next], keys[next..end]);
        orders := orders + Documents(items, keys[next..end]);
        next, page := end, page + 1;
        hasMore := next < |keys|;
      }
      assert keys[..next] == keys;
      r := Ok(orders);
    }

    /** AddOrderAsync. */
    method AddOrder(order: Order, fault: Fault) returns (r: Result<()>)
      requires Valid()
      modifies this
      ensures Valid()
      ensures r == AddOutcome(old(items), order, fault).outcome
      ensures items == AddOutcome(old(items), order, fault).items
      ensures keys == if r.Ok? then old(keys) + [order.id] else old(keys)
    {
      if fault == SdkError || fault == WriteError || order.id in items {
        // CreateItemAsync threw (a 409 Conflict for an existing id)
        return Err(Infrastructure(LibraryException));
      }
      items := items[order.id := order];
      keys := keys + [order.id];
      r := Ok(());
    }

    /** UpdateOrderStatusAsync: read-modify-write of one document. */
    method UpdateOrderStatus(orderId: string, status: OrderStatus, fault: Fault) returns (r: Result<()>)
      requires Valid()
      modifies this
      ensures Valid() && keys == old(keys)
      ensures r == UpdateOutcome(old(items), orderId, status, fault).outcome
      ensures items == UpdateOutcome(old(items), orderId, status, fault).items
    {
      if fault == SdkError {
        return Err(Infrastructure(LibraryException));
      }
      if orderId !in items {
        // ReadItemAsync answered 404
        return Err(NotFound(orderId));
      }
      var resource := if fault == NullResource then None else Some(items[orderId]);
      if resource.None? {
        // the NotFoundException thrown here lands in the catch-all
        return Err(Infrastructure(NotFound(orderId)));
      }
      var order := resource.value.(status := status);
      if fault == WriteError {
        return Err(Infrastructure(LibraryException));
      }
      items := items[orderId := order];
      r := Ok(());
    }
  }
}
