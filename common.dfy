/** Shared vocabulary of the warehouse backend: optional values, the result of an
    operation, the error taxonomy, user roles and the identity of the caller. */
module Common {

  datatype Option<T> = None | Some(value: T)

  /** The kinds of failure an operation reports instead of writing. */
  datatype Error =
    | NotFound(what: string)            // absent, or outside the caller's company
    | Forbidden(why: string)            // role or assignee mismatch
    | InvalidTransition(why: string)    // workflow action from an illegal status
    | InsufficientStock(why: string)    // a debit larger than the record allows
    | Validation(why: string)           // missing reference, non-positive quantity
    | Conflict(why: string)             // duplicate shipment for an order

  datatype Result<T> = Ok(value: T) | Err(error: Error)

  /** The roles of models/User.js. */
  datatype Role =
    | SuperAdmin | CompanyAdmin | WarehouseManager | InventoryManager
    | Picker | Packer | Viewer

  /** The authenticated user an operation runs for (`reqUser`). A missing or zero
      company id is `None`. */
  datatype Caller = Caller(id: int, role: Role, companyId: Option<int>)

  /** `a || b` on two optional values. */
  function OrElse<T>(a: Option<T>, b: Option<T>): Option<T>
  {
    if a.Some? then a else b
  }

  /** `a ?? d`: the value when present, the default otherwise. */
  function GetOr<T>(a: Option<T>, d: T): T
  {
    if a.Some? then a.value else d
  }

  /** The tenant guard repeated by every service: a super admin sees every company,
      anyone else only their own. */
  predicate SeesCompany(caller: Caller, companyId: int)
  {
    caller.role == SuperAdmin || caller.companyId == Some(companyId)
  }

  function Max(a: int, b: int): int { if a >= b then a else b }

  function Min(a: int, b: int): int { if a <= b then a else b }

  function Abs(a: int): int { if a < 0 then -a else a }
}
