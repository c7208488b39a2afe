/*
 * The order's whole life across the three programs: the API creates it and
 * publishes its `Order.Created` event, the worker receives that event and
 * marks it Processed, and a lookup then sees it Processed.
 */
module Lifecycle {
  import opened Domain
  import opened Dtos
  import opened Repositories
  import opened EventGrid
  import opened Services
  import opened OrderWorker

  /**
   * A request that passes the guards, given a fresh non-blank id and healthy
   * calls, is stored as Created and its event published; the worker handling
   * that event completes and checkpoints, and a lookup of the id then answers
   * the same order, now Processed.
   */
  lemma CreatedOrderIsProcessedByWorker(items: map<string, Order>, d: CreateOrderDto, newId: string, now: int)
    requires PassesGuards(d) && newId !in items && !AllWhiteSpace(newId)
    ensures var c := CreateOutcome(items, Some(d), newId, now, NoFault, false);
      && c.result.Ok? && c.result.value.id == newId && c.result.value.status == Created
      && c.published.Some?
      && var body := [c.published.value];
         && Checkpoints(c.items, Events(body), [], false)
         && GetByIdOutcome(Handle(c.items, body, []).items, newId, NoFault) == Ok(c.result.value.(status := Processed))
  {
    var c := CreateOutcome(items, Some(d), newId, now, NoFault, false);
    var order := NewOrder(d, newId, now);
    assert c.items == items[newId := order] && c.published == Some(OrderCreatedEvent(Snapshot(order)));
    var body := [c.published.value];
    assert body[..0] == [];
    assert Handle(c.items, body, []) == Step(c.items, body[0], NoFault);
    assert Handle(c.items, body, []).items == c.items[newId := order.(status := Processed)];
  }

  /** The first end-to-end scenario: Acme orders two Widgets for 19.99. */
  lemma AcmeWidgetIsProcessed(items: map<string, Order>, newId: string, now: int)
    requires newId !in items && !AllWhiteSpace(newId)
    ensures var d := CreateOrderDto(Some("Acme"), Some("Widget"), 2, 1999);
      var c := CreateOutcome(items, Some(d), newId, now, NoFault, false);
      && c.result == Ok(Order(newId, "Acme", "Widget", 2, 1999, Created, now))
      && GetByIdOutcome(Handle(c.items, [c.published.value], []).items, newId, NoFault)
           == Ok(Order(newId, "Acme", "Widget", 2, 1999, Processed, now))
  {
    var d := CreateOrderDto(Some("Acme"), Some("Widget"), 2, 1999);
    assert "Acme"[0] == 'A' && !IsWhiteSpace('A');
    assert "Widget"[0] == 'W' && !IsWhiteSpace('W');
    CreatedOrderIsProcessedByWorker(items, d, newId, now);
  }

  /**
   * The second end-to-end scenario: a quantity of zero is a ValidationException,
   * the store and its listing are as before, and nothing is published.
   */
  lemma ZeroQuantityIsRejected(items: map<string, Order>, keys: seq<string>, newId: string, now: int,
                               storeFault: Fault, publishFails: bool)
    ensures var d := CreateOrderDto(Some("Acme"), Some("Widget"), 0, 1999);
      var c := CreateOutcome(items, Some(d), newId, now, storeFault, publishFails);
      && c == Creation(Err(Validation(NonPositiveQuantity)), items, None)
      && forall pageSize: nat :: pageSize > 0 ==>
           GetAllOutcome(c.items, keys, pageSize, None) == GetAllOutcome(items, keys, pageSize, None)
  {
    assert "Acme"[0] == 'A' && !IsWhiteSpace('A');
    assert "Widget"[0] == 'W' && !IsWhiteSpace('W');
  }

  /**
   * An order whose event was lost to a failed publish stays Created however
   * many other bodies the worker handles: nothing but its own event moves it.
   */
  lemma {:induction false} UnpublishedOrderStaysCreated(items: map<string, Order>, d: CreateOrderDto, newId: string, now: int,
                                                       events: seq<EventGridEvent>, faults: seq<Fault>)
    requires PassesGuards(d) && newId !in items
    requires forall k :: 0 <= k < |events| && IsOrderCreated(events[k]) && events[k].data.Payload? ==>
      events[k].data.dto.id != newId
    ensures var c := CreateOutcome(items, Some(d), newId, now, NoFault, true);
      && c.result.Err? && c.published.None?
      && newId in Handle(c.items, events, faults).items
      && Handle(c.items, events, faults).items[newId].status == Created
    decreases |events|
  {
    var c := CreateOutcome(items, Some(d), newId, now, NoFault, true);
    assert newId in c.items && c.items[newId].status == Created;
    if |events| > 0 {
      var n := |events| - 1;
      UnpublishedOrderStaysCreated(items, d, newId, now, events[..n], faults);
      var before := Handle(c.items, events[..n], faults);
      if before.failure.None? && IsOrderCreated(events[n]) && events[n].data.Payload? {
        UpdateChangesOnlyStatus(before.items, events[n].data.dto.id, Processed, FaultAt(faults, n));
      }
    }
  }

  // ---------------------------------------------------------------------------
  // The same life, through the objects.

  /**
   * The service creates the order, the worker handles the event the publisher
   * sent, and a lookup through the service answers it Processed.
   */
  method CreateThenProcess(service: OrderService, worker: Worker, d: CreateOrderDto, newId: string, now: int,
                           sequenceNumber: nat) returns (r: Result<Order>)
    requires service.repository == worker.repository && service.repository.Valid()
    requires PassesGuards(d) && newId !in service.repository.items && !AllWhiteSpace(newId)
    modifies service.repository, service.publisher, worker
    ensures r == Ok(NewOrder(d, newId, now).(status := Processed))
    ensures worker.checkpoint == Some(sequenceNumber)
  {
    ghost var items := service.repository.items;
    CreatedOrderIsProcessedByWorker(items, d, newId, now);
    var created := service.CreateOrder(Some(d), newId, now, NoFault, false);
    var event := service.publisher.sent[|service.publisher.sent| - 1];
    var checkpointed := worker.ProcessEvent(ProcessEventArgs(sequenceNumber, Events([event])), [], false);
    r := service.GetOrderById(newId, NoFault);
  }
}
