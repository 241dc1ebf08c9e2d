/**
 * The records the two front ends exchange with the REST API (the `Stock`, `StockMovement`,
 * `Product`, `Supplier` and `Notification` interfaces). Only the attributes some modelled
 * operation reads are kept; timestamps that are only displayed are left out.
 */
module Entities {

  datatype MovementType = In | Out | Adjust

  /** The wire code of a movement type, as in `movement_type: 'IN' | 'OUT' | 'ADJUST'`. */
  function MovementCode(t: MovementType): (code: string)
    ensures code in ["IN", "OUT", "ADJUST"]
  {
    match t
    case In => "IN"
    case Out => "OUT"
    case Adjust => "ADJUST"
  }

  lemma MovementCodeInjective(a: MovementType, b: MovementType)
    requires MovementCode(a) == MovementCode(b)
    ensures a == b
  {
  }

  /** One product's stock at one location, with its alerting thresholds. */
  datatype Stock = Stock(
    id: int,
    product: int,
    productName: string,
    quantity: int,
    location: string,
    minimumThreshold: int,
    maximumThreshold: int)

  /** A stock movement as the server returns it. */
  datatype StockMovement = StockMovement(
    id: int,
    product: int,
    productName: string,
    movementType: MovementType,
    quantity: int,
    referenceNumber: string,
    notes: string)

  datatype Product = Product(id: int, name: string, sku: string, supplierName: string, currentStock: int)

  datatype Supplier = Supplier(id: int, name: string, email: string, phone: string)

  /** A server-side notification as the React client holds it. */
  datatype Notification = Notification(id: int, kind: string, message: string, read: bool)

  // Key functions, passed to the generic list operations.
  function ProductKey(p: Product): int { p.id }
  function SupplierKey(s: Supplier): int { s.id }
  function NotificationKey(n: Notification): int { n.id }
}
