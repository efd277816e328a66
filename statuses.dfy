/** The closed status vocabularies of the workflow entities, one datatype per
    `isIn` list (or documented value set) of the schema files. Constructor names that
    occur in two vocabularies are written qualified (`OrderStatus.Picked`). */
module Statuses {

  /** Sales order (models/SalesOrder.js). */
  datatype OrderStatus =
    | Draft | Confirmed | PickingInProgress | Picked | PackingInProgress
    | Packed | Shipped | Delivered | Cancelled

  /** Pick list (models/PickList.js). */
  datatype PickListStatus = NotStarted | Assigned | PartiallyPicked | Picked

  /** Packing task (models/PackingTask.js). */
  datatype PackingStatus = NotStarted | Assigned | Packing | Packed | OnHold

  /** Shipment delivery status (models/Shipment.js). */
  datatype DeliveryStatus = ReadyToShip | Shipped | InTransit | Delivered | Failed | Returned

  /** Return / RMA (models/Return.js). */
  datatype RmaStatus =
    | RmaCreated | AwaitingReturn | Received | InInspection
    | Approved | Rejected | Refunded | Closed

  datatype ReturnType = Refund | Replace | Inspection

  /** Goods receipt (models/GoodsReceipt.js), lower-case in the source. */
  datatype ReceiptStatus = Pending | InProgress | Completed

  /** Quality flag of a goods-receipt line. */
  datatype Quality = Good | Damaged

  /** Purchase order (models/PurchaseOrder.js), lower-case in the source. */
  datatype PoStatus = Draft | Pending | Approved | Rejected | Received

  /** Inventory adjustment (models/InventoryAdjustment.js). */
  datatype AdjustmentType = Increase | Decrease

  datatype AdjustmentStatus = Pending | Completed

  /** Cycle count (models/CycleCount.js). */
  datatype CountStatus = Pending | InProgress | Completed

  /** Movement log entry type (models/Movement.js). */
  datatype MovementType = Receive | Pick | Transfer | Adjust | Return

  /** Replenishment task (models/ReplenishmentTask.js, documented in a comment). */
  datatype TaskStatus = Pending | InProgress | Completed | Cancelled

  /** Replenishment config (models/ReplenishmentConfig.js, documented in a comment). */
  datatype ConfigStatus = Active | Inactive
}
