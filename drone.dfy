/** The Drone entity. */
module DroneEntity {
  import opened Wrappers
  import opened Records
  import opened StoreEntities

  datatype DroneStatus = Idle | InFlight | Charging | Maintenance | Retired {
    function Name(): string {
      match this
      case Idle => "IDLE"
      case InFlight => "IN_FLIGHT"
      case Charging => "CHARGING"
      case Maintenance => "MAINTENANCE"
      case Retired => "RETIRED"
    }
  }

  class Drone {
    const droneId: int
    const store: Store
    const model: string
    /** In mAh. */
    const batteryCapacity: int
    const maxPayloadKg: real
    var status: DroneStatus
    var registeredAt: Option<Time>

    /** The builder: a missing status becomes IDLE, a given one is kept. */
    constructor (droneId: int, store: Store, model: string, batteryCapacity: int,
                 maxPayloadKg: real, status: Option<DroneStatus>)
      ensures this.droneId == droneId && this.store == store && this.model == model
      ensures this.batteryCapacity == batteryCapacity && this.maxPayloadKg == maxPayloadKg
      ensures status.None? ==> this.status == Idle
      ensures status.Some? ==> this.status == status.value
      ensures registeredAt.None?
    {
      this.droneId := droneId;
      this.store := store;
      this.model := model;
      this.batteryCapacity := batteryCapacity;
      this.maxPayloadKg := maxPayloadKg;
      this.status := status.GetOr(Idle);
      this.registeredAt := None;
    }

    /** Sets any status, with no guard on the current one. */
    method ChangeStatus(newStatus: DroneStatus)
      modifies this`status
      ensures status == newStatus
      ensures registeredAt == old(registeredAt)
    {
      status := newStatus;
    }

    method OnCreate(now: Time)
      modifies this`registeredAt
      ensures old(registeredAt).Some? ==> registeredAt == old(registeredAt)
      ensures old(registeredAt).None? ==> registeredAt == Some(now)
      ensures status == old(status)
    {
      registeredAt := StampIfUnset(registeredAt, now);
    }
  }
}
