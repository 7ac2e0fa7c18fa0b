/** The error-code table (ErrorCode): each code with its HTTP status and short code. */
module Errors {

  datatype ErrorCode =
    | InvalidInputValue | MethodNotAllowed | InternalServerError | InvalidTypeValue | MissingRequestParameter
    | StoreNotFound | StoreNotActive | StoreOutOfDeliveryRange
    | ProductNotFound | ProductNotActive | ProductOutOfStock | ProductExceedMaxQuantity
    | UserNotFound
    | OrderNotFound | OrderAlreadyAssigned | OrderAlreadyCanceled | OrderItemsEmpty
    | OrderTotalWeightExceeded | OrderAlreadyProcessed
    | DroneNotFound | DroneNotAvailable | DroneInFlight
    | RouteNotFound | RouteAlreadyCompleted | RouteOptimizationFailed | NoDeliveryRequests | PositionNotFound
  {
    function Code(): string {
      match this
      case InvalidInputValue => "C001"
      case MethodNotAllowed => "C002"
      case InternalServerError => "C003"
      case InvalidTypeValue => "C004"
      case MissingRequestParameter => "C005"
      case StoreNotFound => "S001"
      case StoreNotActive => "S002"
      case StoreOutOfDeliveryRange => "S003"
      case ProductNotFound => "P001"
      case ProductNotActive => "P002"
      case ProductOutOfStock => "P003"
      case ProductExceedMaxQuantity => "P004"
      case UserNotFound => "U001"
      case OrderNotFound => "O001"
      case OrderAlreadyAssigned => "O002"
      case OrderAlreadyCanceled => "O003"
      case OrderItemsEmpty => "O004"
      case OrderTotalWeightExceeded => "O005"
      case OrderAlreadyProcessed => "O006"
      case DroneNotFound => "D001"
      case DroneNotAvailable => "D002"
      case DroneInFlight => "D003"
      case RouteNotFound => "R001"
      case RouteAlreadyCompleted => "R002"
      case RouteOptimizationFailed => "R003"
      case NoDeliveryRequests => "R004"
      case PositionNotFound => "R005"
    }

    function HttpStatus(): int {
      match this
      case MethodNotAllowed => 405
      case InternalServerError | RouteOptimizationFailed => 500
      case StoreNotFound | ProductNotFound | UserNotFound | OrderNotFound
         | DroneNotFound | RouteNotFound | PositionNotFound => 404
      case OrderAlreadyProcessed => 409
      case _ => 400
    }
  }
}
