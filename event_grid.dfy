/*
 * The event envelope that travels from the publisher to the worker, and the
 * publisher of Order.Infrastructure/EventGrid/OrderEventPublisher.cs with the
 * transport reduced to a log of accepted events and a send that may fail.
 */
module EventGrid {
  import opened Domain
  import opened Dtos

  /** The event type the publisher stamps and the worker filters on. */
  const OrderCreatedType: string := "Order.Created"

  /** An event's `data` as the worker's JSON conversion sees it. */
  datatype EventData =
    | Payload(dto: OrderCreatedDto)  // converts to a snapshot
    | JsonNull                       // converts to null
    | Undecodable                    // the conversion throws

  datatype EventGridEvent = EventGridEvent(
    subject: string,
    eventType: string,
    dataVersion: string,
    data: EventData)

  /** The envelope the publisher builds around a snapshot. */
  function OrderCreatedEvent(dto: OrderCreatedDto): (e: EventGridEvent)
    ensures e.eventType == OrderCreatedType && e.data == Payload(dto)
  {
    EventGridEvent("/order/" + dto.id, OrderCreatedType, "1.0", Payload(dto))
  }

  class OrderEventPublisher {
    /** The events the topic has accepted, oldest first. */
    var sent: seq<EventGridEvent>

    constructor ()
      ensures sent == []
    {
      sent := [];
    }

    /**
     * PublishOrderCreatedEventAsync: wrap the snapshot in an `Order.Created`
     * envelope and send it; a send that throws is rethrown as an
     * InfrastructureException and sends nothing.
     */
    method PublishOrderCreatedEvent(dto: OrderCreatedDto, sendFails: bool) returns (r: Result<()>)
      modifies this
      ensures r == if sendFails then Err(Infrastructure(LibraryException)) else Ok(())
      ensures sent == if sendFails then old(sent) else old(sent) + [OrderCreatedEvent(dto)]
    {
      var eventData := OrderCreatedEvent(dto);
      if sendFails {
        return Err(Infrastructure(LibraryException));
      }
      sent := sent + [eventData];
      r := Ok(());
    }
  }
}
