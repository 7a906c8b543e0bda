/** The shared data model of the trade platform: roles, harvest batches and
    orders, with the string literals that the status unions are made of. */
module Types {

  datatype Option<+T> = None | Some(value: T)

  /** The four roles a session can switch between. */
  datatype UserRole = Farmer | Buyer | Logistics | Admin

  /** Lifecycle of a harvest batch. */
  datatype BatchStatus = Pending | Approved | Sold | Shipped

  /** Fulfilment state of an order. */
  datatype OrderStatus = OrderPending | Paid | OrderShipped | Delivered

  /** A harvest batch; `price` and `qualityGrade` are optional fields. Weights
      and prices are JavaScript numbers, modelled as reals. */
  datatype HarvestBatch = HarvestBatch(
    id: string,
    farmerId: string,
    species: string,
    weight: real,
    harvestDate: string,
    status: BatchStatus,
    price: Option<real>,
    qualityGrade: Option<string>)

  datatype Order = Order(
    id: string,
    batchId: string,
    buyerId: string,
    amount: real,
    status: OrderStatus,
    date: string)

  /** The string value carried by each member of the `UserRole` enum. */
  function RoleValue(r: UserRole): string {
    match r
    case Farmer => "FARMER"
    case Buyer => "BUYER"
    case Logistics => "LOGISTICS"
    case Admin => "ADMIN"
  }

  /** Reads an enum value back from its string; anything else is no role. */
  function ParseRole(s: string): (r: Option<UserRole>)
    ensures r.Some? <==> s in {"FARMER", "BUYER", "LOGISTICS", "ADMIN"}
  {
    if s == "FARMER" then Some(Farmer)
    else if s == "BUYER" then Some(Buyer)
    else if s == "LOGISTICS" then Some(Logistics)
    else if s == "ADMIN" then Some(Admin)
    else None
  }

  /** The enum is a bijection between its four members and their four strings. */
  lemma RoleValueRoundTrip(r: UserRole, s: string)
    ensures ParseRole(RoleValue(r)) == Some(r)
    ensures ParseRole(s) == Some(r) ==> RoleValue(r) == s
  {
  }

  /** The string literal of each batch status. */
  function BatchStatusLiteral(s: BatchStatus): string {
    match s
    case Pending => "PENDING"
    case Approved => "APPROVED"
    case Sold => "SOLD"
    case Shipped => "SHIPPED"
  }

  /** A string is a legal batch status exactly when it is one of the four literals. */
  function ParseBatchStatus(s: string): (r: Option<BatchStatus>)
    ensures r.Some? <==> s in {"PENDING", "APPROVED", "SOLD", "SHIPPED"}
    ensures r.Some? ==> BatchStatusLiteral(r.value) == s
  {
    if s == "PENDING" then Some(Pending)
    else if s == "APPROVED" then Some(Approved)
    else if s == "SOLD" then Some(Sold)
    else if s == "SHIPPED" then Some(Shipped)
    else None
  }

  lemma BatchStatusRoundTrip(st: BatchStatus)
    ensures ParseBatchStatus(BatchStatusLiteral(st)) == Some(st)
  {
  }

  /** The string literal of each order status. */
  function OrderStatusLiteral(s: OrderStatus): string {
    match s
    case OrderPending => "PENDING"
    case Paid => "PAID"
    case OrderShipped => "SHIPPED"
    case Delivered => "DELIVERED"
  }

  /** A string is a legal order status exactly when it is one of the four literals. */
  function ParseOrderStatus(s: string): (r: Option<OrderStatus>)
    ensures r.Some? <==> s in {"PENDING", "PAID", "SHIPPED", "DELIVERED"}
    ensures r.Some? ==> OrderStatusLiteral(r.value) == s
  {
    if s == "PENDING" then Some(OrderPending)
    else if s == "PAID" then Some(Paid)
    else if s == "SHIPPED" then Some(OrderShipped)
    else if s == "DELIVERED" then Some(Delivered)
    else None
  }

  lemma OrderStatusRoundTrip(st: OrderStatus)
    ensures ParseOrderStatus(OrderStatusLiteral(st)) == Some(st)
  {
  }

  /** Position of a batch status along PENDING, APPROVED, SOLD, SHIPPED. */
  function BatchRank(s: BatchStatus): (k: nat)
    ensures k < 4
    ensures s == Pending <==> k == 0
  {
    match s
    case Pending => 0
    case Approved => 1
    case Sold => 2
    case Shipped => 3
  }

  /** The lifecycle runs PENDING, APPROVED, SOLD, SHIPPED, and no two
      statuses share a position. */
  lemma LifecycleOrder(s: BatchStatus, t: BatchStatus)
    ensures BatchRank(Pending) < BatchRank(Approved) < BatchRank(Sold) < BatchRank(Shipped)
    ensures BatchRank(s) == BatchRank(t) <==> s == t
  {
  }
}
