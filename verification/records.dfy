/** The rows the order-handling code reads and writes: orders, their
    statuses, and the role flags of the staff member acting on them. Ids are
    the database's autoincrement keys, so an id that is present is never 0
    and Python's truthiness test on an id is the test for `Some`. Money is a
    Decimal, modelled exactly as a `real`. */
module Records {
  import opened Wrappers

  datatype Order = Order(
    id: nat,
    statusId: nat,
    paymentMethod: string,          // "cash", "card", or whatever the client sent
    totalPrice: real,
    isDelivery: bool,
    orderType: string,              // "delivery", "pickup" or "in_house"
    address: Option<string>,
    products: string,               // legacy "Name x Qty, Name x Qty"
    courierId: Option<nat>,
    acceptedByWaiterId: Option<nat>,
    completedByCourierId: Option<nat>,
    cashShiftId: Option<nat>,
    isCashTurnedIn: bool,
    isInventoryDeducted: bool,
    skipInventoryReturn: bool,
    kitchenDone: bool,
    barDone: bool)

  datatype Status = Status(
    id: nat,
    name: string,
    isCompletedStatus: bool,
    isCancelledStatus: bool,
    requiresKitchenNotify: bool)
  {
    /** Completed or cancelled: the statuses the code calls closed or final. */
    predicate IsClosed() { isCompletedStatus || isCancelledStatus }
  }

  datatype Role = Role(
    canManageOrders: bool,
    canServeTables: bool,
    canBeAssigned: bool,
    canCancelOrders: bool)

  /** A menu product. preparationArea is "bar" or anything else (the
      kitchen); productionWarehouseId is the workshop that prepares it. */
  datatype Product = Product(
    id: nat,
    name: string,
    price: real,
    isActive: bool,
    preparationArea: string,
    productionWarehouseId: Option<nat>)

  /** An order line as stored: preparationArea is copied from the product
      ("bar" or anything else, the kitchen); workshop is the product's
      production warehouse, None when the product or its workshop is gone. */
  datatype OrderItem = OrderItem(
    id: nat,
    productId: nat,
    productName: string,
    quantity: int,
    priceAtMoment: real,
    isReady: bool,
    preparationArea: string,
    workshop: Option<nat>)

  /** A product modifier (an extra) with its surcharge. */
  datatype Modifier = Modifier(id: nat, name: string, price: real)

  /** The acting staff member as the handlers see them. */
  datatype Actor = Actor(id: nat, role: Role)

  /** Python's `a or b` on two optional ids. */
  function OrElse(a: Option<nat>, b: Option<nat>): Option<nat>
  {
    if a.Some? then a else b
  }

  /** The first row of the status table with this name (`.where(name ==
      …).limit(1)`). */
  function StatusNamed(statuses: seq<Status>, name: string): (r: Option<Status>)
    ensures r.Some? ==> r.value in statuses && r.value.name == name
    ensures r.None? ==> forall s | s in statuses :: s.name != name
  {
    if statuses == [] then None
    else if statuses[0].name == name then Some(statuses[0])
    else StatusNamed(statuses[1..], name)
  }

  /** session.get(OrderStatus, id). */
  function StatusById(statuses: seq<Status>, id: nat): (r: Option<Status>)
    ensures r.Some? ==> r.value in statuses && r.value.id == id
    ensures r.None? ==> forall s | s in statuses :: s.id != id
  {
    if statuses == [] then None
    else if statuses[0].id == id then Some(statuses[0])
    else StatusById(statuses[1..], id)
  }

  const ReadyStatusName: string := "Готовий до видачі"
  const NewStatusName: string := "Новий"
  const ProcessingStatusName: string := "В обробці"

  /** The status a new order starts in: the first one named "Новий", or id
      1 when there is none. */
  function NewStatusId(statuses: seq<Status>): nat
  {
    match StatusNamed(statuses, NewStatusName)
    case Some(s) => s.id
    case None => 1
  }
}
