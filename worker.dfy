/*
 * Order.Worker/Worker.cs: the handler the event processor calls for each
 * received Event Hubs event. The body is an array of Event Grid events; each
 * `Order.Created` one moves its order to Processed, and the partition's
 * checkpoint advances only when the whole body was handled without an
 * exception. JSON parsing is already done: a body is `Unparsable`, the null
 * array, or its events. `faults[i]` is how the database behaves on the update
 * for event i (a missing entry is NoFault).
 */
module OrderWorker {
  import opened Domain
  import opened Dtos
  import opened Repositories
  import opened EventGrid

  /** An event body after `EventGridEvent.ParseMany`. */
  datatype EventBody =
    | Unparsable                          // ParseMany throws
    | NullArray                           // ParseMany yields null
    | Events(events: seq<EventGridEvent>)

  /** The processor's arguments: the event's position in its partition and its body. */
  datatype ProcessEventArgs = ProcessEventArgs(sequenceNumber: nat, body: EventBody)

  /** The documents after a run over events, and the exception that stopped it, if any. */
  datatype Progress = Progress(items: map<string, Order>, failure: Option<Failure>)

  function FaultAt(faults: seq<Fault>, i: nat): Fault
  {
    if i < |faults| then faults[i] else NoFault
  }

  /** The handler acts on this event: its type is `Order.Created`. */
  predicate IsOrderCreated(e: EventGridEvent)
  {
    e.eventType == OrderCreatedType
  }

  /**
   * One pass of the loop body: other types are ignored, a null payload is
   * skipped, an undecodable one throws, and a snapshot updates its order to
   * Processed, any exception of the update stopping the run.
   */
  function Step(items: map<string, Order>, e: EventGridEvent, fault: Fault): Progress
  {
    if !IsOrderCreated(e) then Progress(items, None)
    else match e.data
      case Undecodable => Progress(items, Some(LibraryException))
      case JsonNull => Progress(items, None)
      case Payload(dto) =>
        var u := UpdateOutcome(items, dto.id, Processed, fault);
        Progress(u.items, if u.outcome.Err? then Some(u.outcome.error) else None)
  }

  /** The loop over `events`, in order, stopping at the first exception. */
  function Handle(items: map<string, Order>, events: seq<EventGridEvent>, faults: seq<Fault>): Progress
    decreases |events|
  {
    if |events| == 0 then Progress(items, None)
    else
      var before := Handle(items, events[..|events| - 1], faults);
      if before.failure.Some? then before
      else Step(before.items, events[|events| - 1], FaultAt(faults, |events| - 1))
  }

  /** The handler checkpoints: the body parsed to an array, every event was handled, and the checkpoint write succeeded. */
  function Checkpoints(items: map<string, Order>, body: EventBody, faults: seq<Fault>, checkpointFails: bool): bool
  {
    body.Events? && Handle(items, body.events, faults).failure.None? && !checkpointFails
  }

  /** The documents after the handler ran over `body`. */
  function ItemsAfter(items: map<string, Order>, body: EventBody, faults: seq<Fault>): map<string, Order>
  {
    if body.Events? then Handle(items, body.events, faults).items else items
  }

  // ---------------------------------------------------------------------------
  // Properties of one run.

  /** A step that throws changes no document. */
  lemma StepFailureChangesNothing(items: map<string, Order>, e: EventGridEvent, fault: Fault)
    ensures Step(items, e, fault).failure.Some? ==> Step(items, e, fault).items == items
  {
  }

  /** Once the run has stopped, later events are not attempted. */
  lemma {:induction false} AbortedStaysAborted(items: map<string, Order>, events: seq<EventGridEvent>, faults: seq<Fault>, k: nat)
    requires k <= |events|
    requires Handle(items, events[..k], faults).failure.Some?
    ensures Handle(items, events, faults) == Handle(items, events[..k], faults)
    decreases |events|
  {
    if k == |events| {
      assert events[..k] == events;
    } else {
      var front := events[..|events| - 1];
      assert front[..k] == events[..k];
      AbortedStaysAborted(items, front, faults, k);
    }
  }

  /**
   * If the k-th event throws, the updates for the events before it stay
   * applied, its own update changes nothing, the run stops with its exception,
   * and no later event is attempted.
   */
  lemma FailureStopsTheBody(items: map<string, Order>, events: seq<EventGridEvent>, faults: seq<Fault>, k: nat)
    requires k < |events|
    requires Handle(items, events[..k], faults).failure.None?
    requires Step(Handle(items, events[..k], faults).items, events[k], FaultAt(faults, k)).failure.Some?
    ensures var before := Handle(items, events[..k], faults);
      Handle(items, events, faults)
        == Progress(before.items, Step(before.items, events[k], FaultAt(faults, k)).failure)
  {
    var before := Handle(items, events[..k], faults);
    assert events[..k + 1][..k] == events[..k];
    StepFailureChangesNothing(before.items, events[k], FaultAt(faults, k));
    AbortedStaysAborted(items, events, faults, k + 1);
  }

  /** Event k, taken from the state the events before it left, is handled without an exception. */
  predicate HandledAt(items: map<string, Order>, events: seq<EventGridEvent>, faults: seq<Fault>, k: nat)
    requires k < |events|
  {
    Step(Handle(items, events[..k], faults).items, events[k], FaultAt(faults, k)).failure.None?
  }

  /** The run completes exactly when every event, taken in turn, is handled without an exception. */
  lemma {:induction false} CompletesIffEveryEventHandled(items: map<string, Order>, events: seq<EventGridEvent>, faults: seq<Fault>)
    ensures Handle(items, events, faults).failure.None? <==>
      forall k :: 0 <= k < |events| ==> HandledAt(items, events, faults, k)
    decreases |events|
  {
    if |events| > 0 {
      var n := |events| - 1;
      var front := events[..n];
      CompletesIffEveryEventHandled(items, front, faults);
      forall k | 0 <= k < n
        ensures HandledAt(items, front, faults, k) == HandledAt(items, events, faults, k)
      {
        assert front[..k] == events[..k];
      }
      if Handle(items, front, faults).failure.Some? {
        var k :| 0 <= k < n && !HandledAt(items, front, faults, k);
        assert !HandledAt(items, events, faults, k);
      } else {
        assert HandledAt(items, events, faults, n) == Handle(items, events, faults).failure.None?;
      }
    }
  }

  /** Events of other types change nothing and do not stop the run. */
  lemma {:induction false} IgnoredEventsChangeNothing(items: map<string, Order>, events: seq<EventGridEvent>, faults: seq<Fault>)
    requires forall k :: 0 <= k < |events| ==> !IsOrderCreated(events[k])
    ensures Handle(items, events, faults) == Progress(items, None)
    decreases |events|
  {
    if |events| > 0 {
      IgnoredEventsChangeNothing(items, events[..|events| - 1], faults);
    }
  }

  /** An event of another type, or an `Order.Created` one with a null payload, is passed over and the run goes on as without it. */
  lemma SkippedEventIsPassedOver(items: map<string, Order>, events: seq<EventGridEvent>, e: EventGridEvent, faults: seq<Fault>)
    requires !IsOrderCreated(e) || e.data == JsonNull
    ensures Handle(items, events + [e], faults) == Handle(items, events, faults)
  {
    assert (events + [e])[..|events|] == events;
  }

  /** Event `e` is an `Order.Created` event whose payload names order `id`. */
  predicate Names(e: EventGridEvent, id: string)
  {
    IsOrderCreated(e) && e.data.Payload? && e.data.dto.id == id
  }

  /**
   * A run never adds or removes a document and changes at most the status of
   * each, always to Processed; an order that no event names keeps its value.
   */
  lemma {:induction false} HandleOnlyMarksProcessed(items: map<string, Order>, events: seq<EventGridEvent>, faults: seq<Fault>)
    ensures var after := Handle(items, events, faults).items;
      && after.Keys == items.Keys
      && (forall id :: id in items ==> after[id] == items[id] || after[id] == items[id].(status := Processed))
      && (forall id :: id in items && (forall k :: 0 <= k < |events| ==> !Names(events[k], id)) ==> after[id] == items[id])
    decreases |events|
  {
    if |events| > 0 {
      var n := |events| - 1;
      HandleOnlyMarksProcessed(items, events[..n], faults);
      var before := Handle(items, events[..n], faults);
      if before.failure.None? && IsOrderCreated(events[n]) && events[n].data.Payload? {
        UpdateChangesOnlyStatus(before.items, events[n].data.dto.id, Processed, FaultAt(faults, n));
      }
      forall id | id in items && (forall k :: 0 <= k < |events| ==> !Names(events[k], id))
        ensures forall k :: 0 <= k < n ==> !Names(events[..n][k], id)
      {
        forall k | 0 <= k < n
          ensures !Names(events[..n][k], id)
        {
          assert events[..n][k] == events[k];
        }
      }
    }
  }

  /** A Processed order stays Processed: the lifecycle never moves backwards. */
  lemma StatusNeverRegresses(items: map<string, Order>, events: seq<EventGridEvent>, faults: seq<Fault>, id: string)
    requires id in items && items[id].status == Processed
    ensures id in Handle(items, events, faults).items
    ensures Handle(items, events, faults).items[id].status == Processed
  {
    HandleOnlyMarksProcessed(items, events, faults);
  }

  /** After a completed run, every order an `Order.Created` snapshot named exists and is Processed. */
  lemma {:induction false} CompletedRunMarksProcessed(items: map<string, Order>, events: seq<EventGridEvent>, faults: seq<Fault>)
    requires Handle(items, events, faults).failure.None?
    ensures forall k :: 0 <= k < |events| && IsOrderCreated(events[k]) ==>
      && events[k].data != Undecodable
      && (events[k].data.Payload? ==>
            var after := Handle(items, events, faults).items;
            events[k].data.dto.id in after && after[events[k].data.dto.id].status == Processed)
    decreases |events|
  {
    if |events| > 0 {
      var n := |events| - 1;
      var front := events[..n];
      var before := Handle(items, front, faults);
      assert before.failure.None?;
      CompletedRunMarksProcessed(items, front, faults);
      var after := Handle(items, events, faults).items;
      forall k | 0 <= k < n && IsOrderCreated(events[k]) && events[k].data.Payload?
        ensures events[k].data.dto.id in after && after[events[k].data.dto.id].status == Processed
      {
        assert events[k] == front[k];
        var id := events[k].data.dto.id;
        assert id in before.items && before.items[id].status == Processed;
        UpdateChangesOnlyStatus(before.items, if events[n].data.Payload? then events[n].data.dto.id else id, Processed, FaultAt(faults, n));
      }
      forall k | 0 <= k < n && IsOrderCreated(events[k])
        ensures events[k].data != Undecodable
      {
        assert events[k] == front[k];
      }
    }
  }

  /** Over documents where every named order already exists and is Processed, a healthy run changes nothing. */
  lemma {:induction false} AllProcessedIsNoOp(items: map<string, Order>, events: seq<EventGridEvent>)
    requires forall k :: 0 <= k < |events| && IsOrderCreated(events[k]) ==>
      && events[k].data != Undecodable
      && (events[k].data.Payload? ==>
            events[k].data.dto.id in items && items[events[k].data.dto.id].status == Processed)
    ensures Handle(items, events, []) == Progress(items, None)
    decreases |events|
  {
    if |events| > 0 {
      var n := |events| - 1;
      AllProcessedIsNoOp(items, events[..n]);
      var e := events[n];
      if IsOrderCreated(e) && e.data.Payload? {
        UpdateIsIdempotent(items, e.data.dto.id, Processed);
      }
    }
  }

  /**
   * Redelivering a body after a run that completed leaves the documents as
   * they are and completes again: the handler is idempotent.
   */
  lemma RedeliveryIsNoOp(items: map<string, Order>, events: seq<EventGridEvent>, faults: seq<Fault>)
    requires Handle(items, events, faults).failure.None?
    ensures var after := Handle(items, events, faults).items;
      Handle(after, events, []) == Progress(after, None)
  {
    CompletedRunMarksProcessed(items, events, faults);
    AllProcessedIsNoOp(Handle(items, events, faults).items, events);
  }

  /** With a healthy database the run completes exactly when every `Order.Created` event decodes and names a stored order. */
  lemma {:induction false} HealthyRunCompletesIffAllFound(items: map<string, Order>, events: seq<EventGridEvent>)
    ensures Handle(items, events, []).failure.None? <==>
      forall k :: 0 <= k < |events| && IsOrderCreated(events[k]) ==>
        events[k].data != Undecodable && (events[k].data.Payload? ==> events[k].data.dto.id in items)
    decreases |events|
  {
    if |events| > 0 {
      var n := |events| - 1;
      var front := events[..n];
      HealthyRunCompletesIffAllFound(items, front);
      HandleOnlyMarksProcessed(items, front, []);
      forall k | 0 <= k < n
        ensures front[k] == events[k]
      {
      }
    }
  }

  // ---------------------------------------------------------------------------
  // The handling the error taxonomy evidently intends: a missing order and an
  // undecodable payload are each logged and passed over instead of stopping
  // the body.

  /**
   * One event, handled as the error taxonomy evidently intends: an
   * undecodable payload is logged and skipped like a null one, and a missing
   * order is logged and passed over; only an InfrastructureException stops
   * the run.
   */
  function IntendedStep(items: map<string, Order>, e: EventGridEvent, fault: Fault): Progress
  {
    if IsOrderCreated(e) && e.data.Undecodable? then Progress(items, None)
    else
      var p := Step(items, e, fault);
      if p.failure.Some? && p.failure.value.NotFound? then Progress(items, None) else p
  }

  function IntendedHandle(items: map<string, Order>, events: seq<EventGridEvent>, faults: seq<Fault>): (p: Progress)
    ensures p.items.Keys == items.Keys
    ensures p.failure.Some? ==> p.failure.value.Infrastructure?
    decreases |events|
  {
    if |events| == 0 then Progress(items, None)
    else
      var before := IntendedHandle(items, events[..|events| - 1], faults);
      if before.failure.Some? then before
      else IntendedStep(before.items, events[|events| - 1], FaultAt(faults, |events| - 1))
  }

  /** With a healthy database, the intended run always completes: missing orders and undecodable payloads are passed over. */
  lemma {:induction false} IntendedRunSkipsMissingOrders(items: map<string, Order>, events: seq<EventGridEvent>)
    ensures IntendedHandle(items, events, []).failure.None?
    decreases |events|
  {
    if |events| > 0 {
      IntendedRunSkipsMissingOrders(items, events[..|events| - 1]);
    }
  }

  /** One intended step on a healthy database marks the stored order it names Processed and keeps every Processed order Processed. */
  lemma IntendedStepMarksProcessed(items: map<string, Order>, e: EventGridEvent)
    ensures var after := IntendedStep(items, e, NoFault).items;
      && after.Keys == items.Keys
      && (forall id :: Names(e, id) && id in items ==> after[id].status == Processed)
      && (forall id :: id in items && items[id].status == Processed ==> after[id].status == Processed)
  {
    if IsOrderCreated(e) && e.data.Payload? {
      UpdateChangesOnlyStatus(items, e.data.dto.id, Processed, NoFault);
    }
  }

  /**
   * On a healthy database, the intended run still applies every event it does
   * not pass over: each stored order an `Order.Created` payload names ends
   * Processed, whatever came before it in the body.
   */
  lemma {:induction false} IntendedRunMarksStoredOrdersProcessed(items: map<string, Order>, events: seq<EventGridEvent>)
    ensures var after := IntendedHandle(items, events, []).items;
      forall k, id :: 0 <= k < |events| && Names(events[k], id) && id in items ==>
        id in after && after[id].status == Processed
    decreases |events|
  {
    if |events| > 0 {
      var n := |events| - 1;
      var front := events[..n];
      IntendedRunMarksStoredOrdersProcessed(items, front);
      IntendedRunSkipsMissingOrders(items, front);
      var before := IntendedHandle(items, front, []);
      assert before.failure.None?;
      var after := IntendedHandle(items, events, []).items;
      assert after == IntendedStep(before.items, events[n], NoFault).items;
      IntendedStepMarksProcessed(before.items, events[n]);
      forall k, id | 0 <= k < |events| && Names(events[k], id) && id in items
        ensures id in after && after[id].status == Processed
      {
        if k < n {
          assert front[k] == events[k];
        }
      }
    }
  }

  /**
   * The intended run, like the written one, never adds or removes a document
   * and changes at most the status of each, always to Processed; an order
   * that no event names keeps its value.
   */
  lemma {:induction false} IntendedRunOnlyMarksProcessed(items: map<string, Order>, events: seq<EventGridEvent>, faults: seq<Fault>)
    ensures var after := IntendedHandle(items, events, faults).items;
      && after.Keys == items.Keys
      && (forall id :: id in items ==> after[id] == items[id] || after[id] == items[id].(status := Processed))
      && (forall id :: id in items && (forall k :: 0 <= k < |events| ==> !Names(events[k], id)) ==> after[id] == items[id])
    decreases |events|
  {
    if |events| > 0 {
      var n := |events| - 1;
      IntendedRunOnlyMarksProcessed(items, events[..n], faults);
      var before := IntendedHandle(items, events[..n], faults);
      if before.failure.None? {
        IntendedStepOnlyMarksProcessed(before.items, events[n], FaultAt(faults, n));
      }
      forall id | id in items && (forall k :: 0 <= k < |events| ==> !Names(events[k], id))
        ensures forall k :: 0 <= k < n ==> !Names(events[..n][k], id)
      {
        forall k | 0 <= k < n
          ensures !Names(events[..n][k], id)
        {
          assert events[..n][k] == events[k];
        }
      }
    }
  }

  /** One intended step keeps the keys, changes at most a status to Processed, and only that of the order it names. */
  lemma IntendedStepOnlyMarksProcessed(items: map<string, Order>, e: EventGridEvent, fault: Fault)
    ensures var after := IntendedStep(items, e, fault).items;
      && after.Keys == items.Keys
      && (forall id :: id in items ==> after[id] == items[id] || after[id] == items[id].(status := Processed))
      && (forall id :: id in items && !Names(e, id) ==> after[id] == items[id])
  {
    if IsOrderCreated(e) && e.data.Payload? {
      UpdateChangesOnlyStatus(items, e.data.dto.id, Processed, fault);
    }
  }

  /**
   * As written, an event for a missing order stops the body: the next event's
   * order is left Created and the checkpoint does not move. The intended
   * handling processes it and checkpoints.
   */
  lemma MissingOrderBlocksTheBody()
    ensures var b := Order("b", "Acme", "Widget", 2, 1999, Created, 0);
      var items := map["b" := b];
      var events := [OrderCreatedEvent(Snapshot(b.(id := "a"))), OrderCreatedEvent(Snapshot(b))];
      && Handle(items, events, []) == Progress(items, Some(NotFound("a")))
      && !Checkpoints(items, Events(events), [], false)
      && IntendedHandle(items, events, []) == Progress(map["b" := b.(status := Processed)], None)
  {
    var b := Order("b", "Acme", "Widget", 2, 1999, Created, 0);
    var items := map["b" := b];
    var e0, e1 := OrderCreatedEvent(Snapshot(b.(id := "a"))), OrderCreatedEvent(Snapshot(b));
    var events := [e0, e1];
    assert "a" !in items;
    assert events[..1] == [e0] && [e0][..0] == [];
    assert Handle(items, [e0], []) == Step(items, e0, NoFault) == Progress(items, Some(NotFound("a")));
    assert IntendedHandle(items, [e0], []) == IntendedStep(items, e0, NoFault) == Progress(items, None);
    assert IntendedStep(items, e1, NoFault) == Progress(map["b" := b.(status := Processed)], None);
  }

  /**
   * As written, an `Order.Created` event whose payload cannot be converted
   * stops the body just as a missing order does: the next event's order is
   * left Created and the checkpoint does not move. The intended handling
   * skips it, processes the next one, and checkpoints.
   */
  lemma UndecodableEventBlocksTheBody()
    ensures var b := Order("b", "Acme", "Widget", 2, 1999, Created, 0);
      var items := map["b" := b];
      var events := [EventGridEvent("/order/a", OrderCreatedType, "1.0", Undecodable), OrderCreatedEvent(Snapshot(b))];
      && Handle(items, events, []) == Progress(items, Some(LibraryException))
      && !Checkpoints(items, Events(events), [], false)
      && IntendedHandle(items, events, []) == Progress(map["b" := b.(status := Processed)], None)
  {
    var b := Order("b", "Acme", "Widget", 2, 1999, Created, 0);
    var items := map["b" := b];
    var e0, e1 := EventGridEvent("/order/a", OrderCreatedType, "1.0", Undecodable), OrderCreatedEvent(Snapshot(b));
    var events := [e0, e1];
    assert events[..1] == [e0] && [e0][..0] == [];
    assert Handle(items, [e0], []) == Step(items, e0, NoFault) == Progress(items, Some(LibraryException));
    assert IntendedHandle(items, [e0], []) == IntendedStep(items, e0, NoFault) == Progress(items, None);
    assert IntendedStep(items, e1, NoFault) == Progress(map["b" := b.(status := Processed)], None);
  }

  // ---------------------------------------------------------------------------
  // The worker object.

  class Worker {
    const repository: OrderRepository
    /** The sequence number of the last checkpointed event of this partition. */
    var checkpoint: Option<nat>

    constructor (repository: OrderRepository)
      ensures this.repository == repository && checkpoint == None
    {
      this.repository := repository;
      checkpoint := None;
    }

    /** ProcessEventHandler: every exception is caught and logged, so it returns normally. */
    method ProcessEvent(args: ProcessEventArgs, faults: seq<Fault>, checkpointFails: bool) returns (checkpointed: bool)
      requires repository.Valid()
      modifies this, repository
      ensures repository.Valid() && repository.keys == old(repository.keys)
      ensures repository.items == ItemsAfter(old(repository.items), args.body, faults)
      ensures checkpointed == Checkpoints(old(repository.items), args.body, faults, checkpointFails)
      ensures checkpoint == if checkpointed then Some(args.sequenceNumber) else old(checkpoint)
    {
      checkpointed := false;
      match args.body {
        case Unparsable =>
          return;
        case NullArray =>
          return;
        case Events(events) =>
          ghost var start := repository.items;
          var i := 0;
          while i < |events|
            invariant 0 <= i <= |events|
            invariant repository.Valid() && repository.keys == old(repository.keys)
            invariant checkpoint == old(checkpoint)
            invariant Handle(start, events[..i], faults) == Progress(repository.items, None)
            decreases |events| - i
          {
            var e := events[i];
            var failure: Option<Failure> := None;
            if e.eventType == OrderCreatedType {
              match e.data
              case Undecodable =>
                failure := Some(LibraryException);
              case JsonNull =>
                // logged and skipped
              case Payload(dto) =>
                var updated := repository.UpdateOrderStatus(dto.id, Processed, FaultAt(faults, i));
                if updated.Err? {
                  failure := Some(updated.error);
                }
            }
            assert events[..i + 1][..i] == events[..i];
            if failure.Some? {
              // the exception leaves the loop and lands in the catch-all
              AbortedStaysAborted(start, events, faults, i + 1);
              return;
            }
            i := i + 1;
          }
          assert events[..i] == events;
          if checkpointFails {
            return;
          }
          checkpoint := Some(args.sequenceNumber);
          checkpointed := true;
      }
    }
  }
}
