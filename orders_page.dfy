/** The order-history page: a search box and status and date selectors that
    filter the listed orders, and the badges that show an order's status and
    its payment status. */
module OrdersPage {
  import opened Common
  import Db

  /** An order as the page lists it; `date` is the order date in
      milliseconds since the epoch, as `new Date(order.date)` reads it. */
  datatype ListedItem = ListedItem(name: string, quantity: int, price: real)

  datatype ListedOrder = ListedOrder(id: string, date: int, status: string, paymentStatus: string,
                                     total: real, items: seq<ListedItem>)

  const Week: int := 7 * 24 * 60 * 60 * 1000
  const Month: int := 30 * 24 * 60 * 60 * 1000

  // ---------------------------------------------------------------------
  // filteredOrders

  /** The order id or the name of one of its items contains the search term,
      ignoring case. */
  predicate MatchesSearch(o: ListedOrder, term: string)
  {
    IncludesIgnoreCase(o.id, term) || exists item :: item in o.items && IncludesIgnoreCase(item.name, term)
  }

  predicate MatchesStatus(o: ListedOrder, statusFilter: string)
  {
    statusFilter == "all" || o.status == statusFilter
  }

  /** "week" and "month" keep orders dated strictly after now minus 7 or 30
      days; any other value than "all" keeps nothing. */
  predicate MatchesDate(o: ListedOrder, dateFilter: string, now: int)
  {
    || dateFilter == "all"
    || (dateFilter == "week" && o.date > now - Week)
    || (dateFilter == "month" && o.date > now - Month)
  }

  predicate Kept(o: ListedOrder, search: string, statusFilter: string, dateFilter: string, now: int)
  {
    MatchesSearch(o, search) && MatchesStatus(o, statusFilter) && MatchesDate(o, dateFilter, now)
  }

  function KeptBy(search: string, statusFilter: string, dateFilter: string, now: int): ListedOrder -> bool
  {
    (o: ListedOrder) => Kept(o, search, statusFilter, dateFilter, now)
  }

  /** `orders.filter(...)`: the orders that pass all three tests, in their order. */
  function FilteredOrders(orders: seq<ListedOrder>, search: string, statusFilter: string, dateFilter: string,
                          now: int): (r: seq<ListedOrder>)
    ensures forall o :: o in r <==> o in orders && Kept(o, search, statusFilter, dateFilter, now)
    ensures IsSubseq(r, orders)
  {
    FilterIsSubseq(orders, KeptBy(search, statusFilter, dateFilter, now));
    Filter(orders, KeptBy(search, statusFilter, dateFilter, now))
  }

  /** With an empty search and both selectors on "all", every order is listed. */
  lemma NoFilterKeepsAll(orders: seq<ListedOrder>, now: int)
    ensures FilteredOrders(orders, "", "all", "all", now) == orders
  {
    forall o | o in orders ensures Kept(o, "", "all", "all", now) {
      IncludesEmpty(o.id);
    }
    FilterKeepsAll(orders, KeptBy("", "all", "all", now));
  }

  /** Every order listed for "week" is also listed for "month", in the same order. */
  lemma WeekWithinMonth(orders: seq<ListedOrder>, search: string, statusFilter: string, now: int)
    ensures IsSubseq(FilteredOrders(orders, search, statusFilter, "week", now),
                     FilteredOrders(orders, search, statusFilter, "month", now))
  {
    var week := KeptBy(search, statusFilter, "week", now);
    var month := KeptBy(search, statusFilter, "month", now);
    FilterThenFilter(orders, month, week, week);
    FilterIsSubseq(Filter(orders, month), week);
  }

  /** A date selector other than "all", "week" or "month" lists nothing. */
  lemma UnknownDateFilterKeepsNothing(orders: seq<ListedOrder>, search: string, statusFilter: string,
                                      dateFilter: string, now: int)
    requires dateFilter != "all" && dateFilter != "week" && dateFilter != "month"
    ensures FilteredOrders(orders, search, statusFilter, dateFilter, now) == []
  {
    FilterKeepsNone(orders, KeptBy(search, statusFilter, dateFilter, now));
  }

  // ---------------------------------------------------------------------
  // Badges

  datatype StatusBadge = StatusBadge(variant: string, icon: string, caption: string)

  datatype PaymentBadge = PaymentBadge(variant: string, caption: string)

  const StatusConfig: map<string, StatusBadge> := map[
    "PENDING" := StatusBadge("secondary", "Clock", "Pending"),
    "PROCESSING" := StatusBadge("default", "Package", "Processing"),
    "SHIPPED" := StatusBadge("secondary", "Truck", "Shipped"),
    "DELIVERED" := StatusBadge("default", "CheckCircle", "Delivered"),
    "CANCELLED" := StatusBadge("destructive", "XCircle", "Cancelled")
  ]

  const PaymentConfig: map<string, PaymentBadge> := map[
    "PENDING" := PaymentBadge("secondary", "Pending"),
    "PAID" := PaymentBadge("default", "Paid"),
    "FAILED" := PaymentBadge("destructive", "Failed"),
    "REFUNDED" := PaymentBadge("outline", "Refunded")
  ]

  /** `getStatusBadge`: the entry of the status, or the PENDING entry. */
  function GetStatusBadge(status: string): (b: StatusBadge)
    ensures b in StatusConfig.Values
    ensures status !in StatusConfig ==> b == StatusConfig["PENDING"]
  {
    if status in StatusConfig then StatusConfig[status] else StatusConfig["PENDING"]
  }

  /** `getPaymentStatusBadge`: the entry of the status, or the PENDING entry. */
  function GetPaymentStatusBadge(status: string): (b: PaymentBadge)
    ensures b in PaymentConfig.Values
    ensures status !in PaymentConfig ==> b == PaymentConfig["PENDING"]
  {
    if status in PaymentConfig then PaymentConfig[status] else PaymentConfig["PENDING"]
  }

  /** How an order status is spelled in the order table. */
  function StatusName(s: Db.OrderStatus): string
  {
    match s
    case Pending => "PENDING"
    case Processing => "PROCESSING"
    case Shipped => "SHIPPED"
    case Delivered => "DELIVERED"
    case Cancelled => "CANCELLED"
  }

  function PaymentStatusName(s: Db.PaymentStatus): string
  {
    match s
    case PaymentPending => "PENDING"
    case Paid => "PAID"
    case Failed => "FAILED"
    case Refunded => "REFUNDED"
  }

  /** Every status an order can hold has a badge of its own, and different
      statuses show different captions. */
  lemma StatusBadgesCoverOrderStatuses(s: Db.OrderStatus, t: Db.OrderStatus)
    ensures StatusName(s) in StatusConfig
    ensures s != t ==> GetStatusBadge(StatusName(s)).caption != GetStatusBadge(StatusName(t)).caption
  {
  }

  /** A string that names no order status gets the Pending badge. */
  lemma UnknownStatusShowsPending(other: string)
    requires forall t :: StatusName(t) != other
    ensures GetStatusBadge(other) == GetStatusBadge(StatusName(Db.Pending))
  {
    assert StatusName(Db.Pending) != other && StatusName(Db.Processing) != other;
    assert StatusName(Db.Shipped) != other && StatusName(Db.Delivered) != other;
    assert StatusName(Db.Cancelled) != other;
  }

  /** Every payment status has a badge of its own, and different payment
      statuses show different captions. */
  lemma PaymentBadgesCoverPaymentStatuses(s: Db.PaymentStatus, t: Db.PaymentStatus)
    ensures PaymentStatusName(s) in PaymentConfig
    ensures s != t ==> GetPaymentStatusBadge(PaymentStatusName(s)).caption != GetPaymentStatusBadge(PaymentStatusName(t)).caption
  {
  }

  /** A string that names no payment status gets the Pending badge. */
  lemma UnknownPaymentStatusShowsPending(other: string)
    requires forall t :: PaymentStatusName(t) != other
    ensures GetPaymentStatusBadge(other) == GetPaymentStatusBadge(PaymentStatusName(Db.PaymentPending))
  {
    assert PaymentStatusName(Db.PaymentPending) != other && PaymentStatusName(Db.Paid) != other;
    assert PaymentStatusName(Db.Failed) != other && PaymentStatusName(Db.Refunded) != other;
  }
}
