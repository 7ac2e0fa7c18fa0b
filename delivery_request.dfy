/** The DeliveryRequest entity (the order as the delivery pipeline sees it) and its items. */
module DeliveryRequestEntity {
  import opened Wrappers
  import opened Geo
  import opened Records
  import opened StoreEntities

  datatype DeliveryStatus = Created | Assigned | Fulfilled | Canceled | Failed {
    function Name(): string {
      match this
      case Created => "CREATED"
      case Assigned => "ASSIGNED"
      case Fulfilled => "FULFILLED"
      case Canceled => "CANCELED"
      case Failed => "FAILED"
    }
  }

  class RequestItem {
    const requestItemId: int
    const product: Product
    const quantity: int
    const unitPrice: int
    const unitWeightKg: real
    /** Back-reference to the owning request. */
    var deliveryRequest: DeliveryRequest?

    constructor (requestItemId: int, deliveryRequest: DeliveryRequest?, product: Product,
                 quantity: int, unitPrice: int, unitWeightKg: real)
      ensures this.requestItemId == requestItemId && this.deliveryRequest == deliveryRequest
      ensures this.product == product && this.quantity == quantity
      ensures this.unitPrice == unitPrice && this.unitWeightKg == unitWeightKg
    {
      this.requestItemId := requestItemId;
      this.deliveryRequest := deliveryRequest;
      this.product := product;
      this.quantity := quantity;
      this.unitPrice := unitPrice;
      this.unitWeightKg := unitWeightKg;
    }
  }

  class DeliveryRequest {
    const requestId: int
    const store: Store
    const customer: Customer
    const origin: Point
    const destination: Point
    const totalWeightKg: real
    const totalAmount: int
    const itemCount: int
    const note: Option<string>
    var status: DeliveryStatus
    var createdAt: Option<Time>
    var assignedAt: Option<Time>
    var completedAt: Option<Time>
    var requestItems: seq<RequestItem>

    /** A new request is CREATED, with no timestamps and no items. */
    constructor (requestId: int, store: Store, customer: Customer, origin: Point, destination: Point,
                 totalWeightKg: real, totalAmount: int, itemCount: int, note: Option<string>)
      ensures this.requestId == requestId && this.store == store && this.customer == customer
      ensures this.origin == origin && this.destination == destination
      ensures this.totalWeightKg == totalWeightKg && this.totalAmount == totalAmount
      ensures this.itemCount == itemCount && this.note == note
      ensures status == Created
      ensures createdAt.None? && assignedAt.None? && completedAt.None?
      ensures requestItems == []
    {
      this.requestId := requestId;
      this.store := store;
      this.customer := customer;
      this.origin := origin;
      this.destination := destination;
      this.totalWeightKg := totalWeightKg;
      this.totalAmount := totalAmount;
      this.itemCount := itemCount;
      this.note := note;
      this.status := Created;
      this.createdAt := None;
      this.assignedAt := None;
      this.completedAt := None;
      this.requestItems := [];
    }

    method OnCreate(now: Time)
      modifies this`createdAt
      ensures old(createdAt).Some? ==> createdAt == old(createdAt)
      ensures old(createdAt).None? ==> createdAt == Some(now)
    {
      createdAt := StampIfUnset(createdAt, now);
    }

    /** Appends the item at the end and points its back-reference here. */
    method AddRequestItem(item: RequestItem)
      modifies this`requestItems, item`deliveryRequest
      ensures requestItems == old(requestItems) + [item]
      ensures item.deliveryRequest == this
    {
      requestItems := requestItems + [item];
      item.deliveryRequest := this;
    }

    /** Any status may be assigned: no transition checks the prior status. */
    method AssignDelivery(now: Time)
      modifies this`status, this`assignedAt
      ensures status == Assigned && assignedAt == Some(now)
    {
      status := Assigned;
      assignedAt := Some(now);
    }

    method CompleteDelivery(now: Time)
      modifies this`status, this`completedAt
      ensures status == Fulfilled && completedAt == Some(now)
    {
      status := Fulfilled;
      completedAt := Some(now);
    }

    /** Cancelling touches no timestamp. */
    method Cancel()
      modifies this`status
      ensures status == Canceled
    {
      status := Canceled;
    }
  }
}
