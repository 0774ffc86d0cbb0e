/**
 * The records of the inventory and custody ledger: stock items, warehouse
 * movements, custody events and the reference lists (units, warehouses,
 * suppliers, employees).
 *
 * Optional fields of the source records become `Option`; an optional boolean
 * flag that is only ever read as true or absent (`auditOnly`) becomes a plain
 * `bool` whose absence reads as `false`. Quantities are whole numbers.
 * Prices are kept as `real` (exact); they are never part of a quantity.
 */
module Types {

  datatype Option<+T> = None | Some(value: T)

  /** The condition a quantity of a custody item is in. */
  datatype CustodyState = New | Used | Scrap

  /** A warehouse movement is either an inward receipt or an outward issue. */
  datatype MovementType = Inward | Outward

  /** A custody event is a hand-over to an employee, a return from one, or a settlement. */
  datatype CustodyType = Handover | Return | Settlement

  datatype HistoryEntry = HistoryEntry(updatedBy: string, updatedAt: string, changes: string)

  /** Units of measure, warehouses and employees are all an id and a name. */
  datatype Named = Named(id: string, name: string)

  datatype Supplier = Supplier(id: string, name: string, phone: Option<string>, address: Option<string>)

  datatype Item = Item(
    id: string,
    code: string,
    name: string,
    unitId: string,
    openingBalance: int,
    initialState: Option<CustodyState>,
    currentBalance: int,
    minThreshold: int,
    isThresholdEnabled: bool,
    isCustody: bool,
    createdAt: string,
    createdBy: string,
    price: real,
    shelfNumber: string,
    boxNumber: string,
    history: seq<HistoryEntry>)

  /**
   * A warehouse movement. It carries no condition state: every movement
   * belongs to the NEW stock of its item. `returnedQuantity` is always present.
   */
  datatype Movement = Movement(
    id: string,
    itemId: string,
    kind: MovementType,
    quantity: int,
    unitId: string,
    docNumber: string,
    warehouseId: Option<string>,
    supplierId: Option<string>,
    employeeId: Option<string>,
    performedBy: string,
    timestamp: string,
    balanceAfter: int,
    note: Option<string>,
    unitPrice: Option<real>,
    returnedQuantity: int,
    returnDocNumber: Option<string>,
    lastModifiedBy: Option<string>,
    lastModifiedAt: Option<string>,
    history: seq<HistoryEntry>)

  /** A custody event: exactly one type and one state; `auditOnly` absent means false. */
  datatype Custody = Custody(
    id: string,
    itemId: string,
    employeeId: string,
    quantity: int,
    state: CustodyState,
    kind: CustodyType,
    timestamp: string,
    performedBy: string,
    docNumber: string,
    note: Option<string>,
    balanceAfter: Option<int>,
    auditOnly: bool)

  /** Why an operation was refused. */
  datatype Reason =
    | NoItemSelected
    | MissingFields
    | InvalidQuantity
    | InsufficientStock
    | ReturnExceedsAvailable
    | StateTransitionViolation
    | InsufficientEmployeeDebt
    | MissingDocNumber
    | DuplicateDocNumber
    | DuplicateItem
    | EntityInUse
    | YearExists

  /**
   * The result of a state-changing handler: applied, refused with a message,
   * or silently ignored (the source returns without a message).
   */
  datatype Outcome = Accepted | Rejected(reason: Reason) | Ignored

  /** The employee ids the source uses for entries no person made. */
  const SystemEmployee: string := "SYSTEM"
  const SystemScrapEmployee: string := "SYSTEM_SCRAP"

  /** The user name ("the system") shown on entries the application makes by itself. */
  const SystemUserName: string := "النظام"
}
