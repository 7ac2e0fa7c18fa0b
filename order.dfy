/** The Order entity and its line items. */
module OrderEntity {
  import opened Wrappers
  import opened Geo
  import opened Records
  import opened StoreEntities

  datatype OrderStatus = Created | Assigned | Fulfilled | Canceled | Failed {
    function Name(): string {
      match this
      case Created => "CREATED"
      case Assigned => "ASSIGNED"
      case Fulfilled => "FULFILLED"
      case Canceled => "CANCELED"
      case Failed => "FAILED"
    }
  }

  class OrderItem {
    const orderItemId: int
    const product: Product
    const quantity: int
    const unitPrice: int
    const unitWeightKg: real
    /** Back-reference to the owning order. */
    var order: Order?

    constructor (orderItemId: int, order: Order?, product: Product,
                 quantity: int, unitPrice: int, unitWeightKg: real)
      ensures this.orderItemId == orderItemId && this.order == order && this.product == product
      ensures this.quantity == quantity && this.unitPrice == unitPrice
      ensures this.unitWeightKg == unitWeightKg
    {
      this.orderItemId := orderItemId;
      this.order := order;
      this.product := product;
      this.quantity := quantity;
      this.unitPrice := unitPrice;
      this.unitWeightKg := unitWeightKg;
    }
  }

  class Order {
    const orderId: int
    const store: Store
    const user: User
    const origin: Point
    const destination: Point
    const totalWeightKg: real
    const totalAmount: int
    const itemCount: int
    const note: Option<string>
    var status: OrderStatus
    var createdAt: Option<Time>
    var assignedAt: Option<Time>
    var completedAt: Option<Time>
    var canceledAt: Option<Time>
    var failureReason: Option<string>
    var orderItems: seq<OrderItem>

    /** A new order is CREATED, with no timestamps and no items. */
    constructor (orderId: int, store: Store, user: User, origin: Point, destination: Point,
                 totalWeightKg: real, totalAmount: int, itemCount: int, note: Option<string>)
      ensures this.orderId == orderId && this.store == store && this.user == user
      ensures this.origin == origin && this.destination == destination
      ensures this.totalWeightKg == totalWeightKg && this.totalAmount == totalAmount
      ensures this.itemCount == itemCount && this.note == note
      ensures status == Created
      ensures createdAt.None? && assignedAt.None? && completedAt.None? && canceledAt.None?
      ensures failureReason.None? && orderItems == []
    {
      this.orderId := orderId;
      this.store := store;
      this.user := user;
      this.origin := origin;
      this.destination := destination;
      this.totalWeightKg := totalWeightKg;
      this.totalAmount := totalAmount;
      this.itemCount := itemCount;
      this.note := note;
      this.status := Created;
      this.createdAt := None;
      this.assignedAt := None;
      this.completedAt := None;
      this.canceledAt := None;
      this.failureReason := None;
      this.orderItems := [];
    }

    method OnCreate(now: Time)
      modifies this`createdAt
      ensures old(createdAt).Some? ==> createdAt == old(createdAt)
      ensures old(createdAt).None? ==> createdAt == Some(now)
    {
      createdAt := StampIfUnset(createdAt, now);
    }

    /** Appends the item at the end and points its back-reference here. */
    method AddOrderItem(item: OrderItem)
      modifies this`orderItems, item`order
      ensures orderItems == old(orderItems) + [item]
      ensures item.order == this
    {
      orderItems := orderItems + [item];
      item.order := this;
    }

    /** Any status may be assigned: no transition checks the prior status. */
    method AssignDelivery(now: Time)
      modifies this`status, this`assignedAt
      ensures status == Assigned && assignedAt == Some(now)
    {
      status := Assigned;
      assignedAt := Some(now);
    }

    method CompleteDelivery(now: Time)
      modifies this`status, this`completedAt
      ensures status == Fulfilled && completedAt == Some(now)
    {
      status := Fulfilled;
      completedAt := Some(now);
    }

    method Cancel(now: Time)
      modifies this`status, this`canceledAt
      ensures status == Canceled && canceledAt == Some(now)
    {
      status := Canceled;
      canceledAt := Some(now);
    }

    /** Records the reason; no timestamp is touched. */
    method Fail(reason: string)
      modifies this`status, this`failureReason
      ensures status == Failed && failureReason == Some(reason)
    {
      status := Failed;
      failureReason := Some(reason);
    }
  }
}
