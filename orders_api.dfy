/** The orders endpoint. GET lists the signed-in user's orders, newest first.
    POST turns the user's cart into an order: it refuses an empty cart, prices
    every line from the catalogue (10% tax, caller-chosen shipping), copies
    the lines into order items, attaches a payment row when a payment method
    is named, deletes the cart's lines and finally lowers the stock of every
    variant the cart referenced, one line at a time. */
module OrdersApi {
  import opened Common
  import opened Db

  datatype PaymentDetails = PaymentDetails(bankName: Option<string>, accountNumber: Option<string>,
                                           receiptImage: Option<string>)

  /** The fields of the POST body that the handler reads. */
  datatype OrderRequest = OrderRequest(addressId: Option<Id>, shipping: Option<real>, notes: Option<string>,
                                       paymentMethod: Option<string>, paymentDetails: Option<PaymentDetails>)

  const TaxRate: real := 0.1
  const BankTransferMethod: string := "BANK_TRANSFER"
  const CartIsEmptyMessage: string := "Cart is empty"
  const CreateFailed: string := "Failed to create order"

  // ---------------------------------------------------------------------
  // GET

  /** The order `createdAt: "desc"`. */
  predicate NewestFirst(a: Order, b: Order) { a.createdAt >= b.createdAt }

  lemma NewestFirstIsTotal()
    ensures TotalPreorder(NewestFirst)
  {
  }

  function OfUser(userId: Id): Order -> bool
  {
    (o: Order) => o.userId == userId
  }

  /** The orders of the session user, newest first; 401 without a session user. */
  function ListOrders(orders: seq<Order>, session: Option<Id>): (r: Reply<seq<Order>>)
    ensures r.Failure? <==> session.None?
    ensures r.Failure? ==> r.status == 401
    ensures r.Success? ==> r.status == 200
    ensures r.Success? ==> multiset(r.value) == multiset(Filter(orders, OfUser(session.value)))
    ensures r.Success? ==> forall o :: o in r.value <==> o in orders && o.userId == session.value
    ensures r.Success? ==> SortedBy(r.value, NewestFirst)
  {
    match session
    case None => Failure(401, Unauthorized)
    case Some(u) =>
      var mine := Filter(orders, OfUser(u));
      NewestFirstIsTotal();
      SortBySorted(mine, NewestFirst);
      var sorted := SortBy(mine, NewestFirst);
      assert forall o :: o in sorted <==> o in multiset(mine);
      Success(200, sorted)
  }

  // ---------------------------------------------------------------------
  // Order number

  const OrderNumberPrefix: string := "ORD-"

  /** `Math.floor(Math.random() * 1000)`. */
  function RandomSuffix(random: real): (n: nat)
    requires 0.0 <= random < 1.0
    ensures n < 1000
  {
    (random * 1000.0).Floor
  }

  /** `ORD-${timestamp}-${n}`. */
  function OrderNumber(timestamp: nat, n: nat): string
  {
    OrderNumberPrefix + DecimalString(timestamp) + "-" + DecimalString(n)
  }

  /** Reads the timestamp and the random number back out of an order number. */
  function ParseOrderNumber(s: string): Option<(nat, nat)>
  {
    if |s| < |OrderNumberPrefix| || s[..|OrderNumberPrefix|] != OrderNumberPrefix then None
    else
      var rest := s[|OrderNumberPrefix|..];
      match IndexOf(rest, '-')
      case None => None
      case Some(k) => Some((DecimalValue(rest[..k]), DecimalValue(rest[k + 1..])))
  }

  /** The timestamp and the random number can be recovered from the order number. */
  lemma OrderNumberRoundTrip(timestamp: nat, n: nat)
    ensures ParseOrderNumber(OrderNumber(timestamp, n)) == Some((timestamp, n))
  {
    var t := DecimalString(timestamp);
    var s := OrderNumber(timestamp, n);
    var rest := t + "-" + DecimalString(n);
    assert s == OrderNumberPrefix + rest;
    assert s[..|OrderNumberPrefix|] == OrderNumberPrefix;
    assert s[|OrderNumberPrefix|..] == rest;
    assert rest[|t|] == '-';
    assert forall j :: 0 <= j < |t| ==> rest[j] == t[j] && rest[j] != '-';
    assert IndexOf(rest, '-') == Some(|t|);
    assert rest[..|t|] == t;
    assert rest[|t| + 1..] == DecimalString(n);
    DecimalRoundTrip(timestamp);
    DecimalRoundTrip(n);
  }

  // ---------------------------------------------------------------------
  // The order built from the cart

  /** The order items: one per cart line, with the line's product, variant and
      quantity and the unit price at the time of the order. */
  function Snapshot(products: seq<Product>, variants: seq<Variant>, lines: seq<CartItem>): (r: seq<OrderItem>)
    ensures |r| == |lines|
    ensures forall i :: 0 <= i < |lines| ==>
      r[i] == OrderItem(lines[i].productId, lines[i].variantId, lines[i].quantity, LinePrice(products, variants, lines[i]))
  {
    if lines == [] then []
    else
      [OrderItem(lines[0].productId, lines[0].variantId, lines[0].quantity, LinePrice(products, variants, lines[0]))]
      + Snapshot(products, variants, lines[1..])
  }

  function ItemAmount(i: OrderItem): real { Amount(i.price, i.quantity) }

  /** The order items add up to the subtotal charged for the cart. */
  lemma {:induction false} SnapshotMatchesSubtotal(products: seq<Product>, variants: seq<Variant>, lines: seq<CartItem>)
    ensures SumReal(Snapshot(products, variants, lines), ItemAmount) == LinesSubtotal(products, variants, lines)
  {
    if lines != [] {
      var n := |lines| - 1;
      var init, last := lines[..n], lines[n];
      var snap := Snapshot(products, variants, lines);
      SnapshotMatchesSubtotal(products, variants, init);
      assert snap[..n] == Snapshot(products, variants, init);
      assert lines[..n] == init;
      assert ItemAmount(snap[n]) == LineAmounts(products, variants)(last);
    }
  }

  /** A bank transfer copies the bank fields out of `paymentDetails`. */
  predicate NeedsBankDetails(paymentMethod: Option<string>)
  {
    TruthyString(paymentMethod) && paymentMethod.value == BankTransferMethod
  }

  /** The payment row created with the order: only for a truthy method, for
      the order total, with the bank fields only for a bank transfer. */
  function MakePayment(paymentMethod: Option<string>, details: Option<PaymentDetails>, total: real): (r: Option<Payment>)
    requires NeedsBankDetails(paymentMethod) ==> details.Some?
    ensures r.Some? <==> TruthyString(paymentMethod)
    ensures r.Some? ==> r.value.paymentMethod == paymentMethod.value && r.value.amount == total
    ensures r.Some? ==> r.value.status == PaymentPending
    ensures r.Some? && !NeedsBankDetails(paymentMethod) ==>
      r.value.bankName.None? && r.value.accountNumber.None? && r.value.receiptImage.None?
    ensures NeedsBankDetails(paymentMethod) ==>
      && r.value.bankName == details.value.bankName
      && r.value.accountNumber == details.value.accountNumber
      && r.value.receiptImage == details.value.receiptImage
  {
    if !TruthyString(paymentMethod) then None
    else if paymentMethod.value == BankTransferMethod then
      Some(Payment(paymentMethod.value, total, PaymentPending,
                   details.value.bankName, details.value.accountNumber, details.value.receiptImage))
    else
      Some(Payment(paymentMethod.value, total, PaymentPending, None, None, None))
  }

  /** The row `order.create` writes. */
  function NewOrder(id: Id, userId: Id, orderNumber: string, products: seq<Product>, variants: seq<Variant>,
                    lines: seq<CartItem>, req: OrderRequest, now: int): Order
    requires NeedsBankDetails(req.paymentMethod) ==> req.paymentDetails.Some?
  {
    var subtotal := LinesSubtotal(products, variants, lines);
    var tax := subtotal * TaxRate;
    var shipping := RealOr(req.shipping, 0.0);
    var total := subtotal + shipping + tax;
    Order(id, userId, orderNumber, Pending, subtotal, shipping, tax, total, req.notes, req.addressId,
          Snapshot(products, variants, lines), MakePayment(req.paymentMethod, req.paymentDetails, total), now)
  }

  /** A new order is pending, has one item per cart line whose amounts add up
      to its subtotal, charges 10% tax and the requested shipping (0 when
      none or zero is given), and its payment, if any, is for its total. */
  lemma NewOrderConsistent(id: Id, userId: Id, orderNumber: string, products: seq<Product>, variants: seq<Variant>,
                           lines: seq<CartItem>, req: OrderRequest, now: int)
    requires NeedsBankDetails(req.paymentMethod) ==> req.paymentDetails.Some?
    ensures var o := NewOrder(id, userId, orderNumber, products, variants, lines, req, now);
      && o.status == Pending && o.userId == userId && o.orderNumber == orderNumber
      && |o.items| == |lines| && SumReal(o.items, ItemAmount) == o.subtotal
      && o.total == o.subtotal * (1.0 + TaxRate) + o.shipping
      && (o.shipping == 0.0 <==> !TruthyReal(req.shipping))
      && (o.payment.Some? ==> o.payment.value.amount == o.total)
  {
    SnapshotMatchesSubtotal(products, variants, lines);
  }

  // ---------------------------------------------------------------------
  // Stock

  /** The request that decrements the stock of one variant. */
  function QtyOf(variantId: Id): CartItem -> int
  {
    (l: CartItem) => if l.variantId == Some(variantId) then l.quantity else 0
  }

  /** The quantity the lines take from one variant. */
  function QtyFor(lines: seq<CartItem>, variantId: Id): int
  {
    SumInt(lines, QtyOf(variantId))
  }

  /** The stock of every variant is lowered by the quantity the lines take from it. */
  predicate StockAfter(after: seq<Variant>, before: seq<Variant>, lines: seq<CartItem>)
  {
    && |after| == |before|
    && forall i :: 0 <= i < |before| ==>
      after[i] == before[i].(stock := before[i].stock - QtyFor(lines, before[i].id))
  }

  /** `productVariant.update({ where: { id }, data: { stock: { decrement: q } } })`. */
  function Decrement(variants: seq<Variant>, variantId: Id, q: int): (r: seq<Variant>)
    ensures |r| == |variants|
    ensures forall i :: 0 <= i < |variants| ==>
      r[i] == if variants[i].id == variantId then variants[i].(stock := variants[i].stock - q) else variants[i]
  {
    if variants == [] then []
    else
      var head := if variants[0].id == variantId then variants[0].(stock := variants[0].stock - q) else variants[0];
      [head] + Decrement(variants[1..], variantId, q)
  }

  /** A variant that no line names keeps its stock. */
  lemma {:induction false} QtyForUnreferenced(lines: seq<CartItem>, variantId: Id)
    requires forall l :: l in lines ==> l.variantId != Some(variantId)
    ensures QtyFor(lines, variantId) == 0
  {
    if lines != [] {
      assert forall l :: l in lines[..|lines| - 1] ==> l in lines;
      QtyForUnreferenced(lines[..|lines| - 1], variantId);
    }
  }

  /** With positive quantities on the lines, stock only goes down, and with no
      floor: it drops by the full quantity even below zero. */
  lemma {:induction false} QtyForNonNegative(lines: seq<CartItem>, variantId: Id)
    requires forall l :: l in lines ==> l.quantity >= 1
    ensures QtyFor(lines, variantId) >= 0
  {
    if lines != [] {
      assert forall l :: l in lines[..|lines| - 1] ==> l in lines;
      QtyForNonNegative(lines[..|lines| - 1], variantId);
    }
  }

  lemma StockAfterKeepsIds(after: seq<Variant>, before: seq<Variant>, lines: seq<CartItem>)
    requires StockAfter(after, before, lines)
    ensures VariantIds(after) == VariantIds(before)
  {
    forall x | x in VariantIds(before) ensures x in VariantIds(after) {
      var v :| v in before && v.id == x;
      var i :| 0 <= i < |before| && before[i] == v;
      assert after[i].id == x;
    }
    forall x | x in VariantIds(after) ensures x in VariantIds(before) {
      var v :| v in after && v.id == x;
      var i :| 0 <= i < |after| && after[i] == v;
      assert before[i].id == x;
    }
  }

  /** The loop over the cart lines that lowers the stock of each named variant. */
  method DecrementStock(db: Database, lines: seq<CartItem>)
    modifies db`variants
    ensures StockAfter(db.variants, old(db.variants), lines)
  {
    var k := 0;
    while k < |lines|
      invariant 0 <= k <= |lines|
      invariant StockAfter(db.variants, old(db.variants), lines[..k])
    {
      var item := lines[k];
      ghost var prev := db.variants;
      if item.variantId.Some? {
        db.variants := Decrement(db.variants, item.variantId.value, item.quantity);
      }
      assert lines[..k + 1][..k] == lines[..k];
      forall i | 0 <= i < |old(db.variants)|
        ensures db.variants[i] == old(db.variants)[i].(stock := old(db.variants)[i].stock - QtyFor(lines[..k + 1], old(db.variants)[i].id))
      {
        assert prev[i].id == old(db.variants)[i].id;
      }
      k := k + 1;
    }
    assert lines[..k] == lines;
  }

  /** The stock table after the order: every variant lowered by the quantity
      the lines take from it, in one step. */
  function StockLowered(variants: seq<Variant>, lines: seq<CartItem>): seq<Variant>
  {
    seq(|variants|, i requires 0 <= i < |variants| =>
      variants[i].(stock := variants[i].stock - QtyFor(lines, variants[i].id)))
  }

  /** The loop's outcome is the one-step table. */
  lemma StockAfterIsLowered(after: seq<Variant>, before: seq<Variant>, lines: seq<CartItem>)
    requires StockAfter(after, before, lines)
    ensures after == StockLowered(before, lines)
  {
  }

  // ---------------------------------------------------------------------
  // POST

  /** The reply of a POST and the tables it leaves behind. */
  datatype OrderOutcome = OrderOutcome(reply: Reply<Order>, nextId: Id, orders: seq<Order>,
                                       cartItems: seq<CartItem>, variants: seq<Variant>)

  /** The user has no cart, or a cart without lines. */
  predicate CartIsEmpty(carts: seq<Cart>, cartItems: seq<CartItem>, userId: Id)
  {
    CartOf(carts, userId).None? || LinesOf(cartItems, CartOf(carts, userId).value.id) == []
  }

  /** A bank transfer without `paymentDetails`: reading its bank fields throws. */
  predicate MissingBankDetails(req: OrderRequest)
  {
    NeedsBankDetails(req.paymentMethod) && req.paymentDetails.None?
  }

  /** The POST handler on table values: the guards, then the order row, the
      cleared cart and the lowered stock. */
  function PostOrder(products: seq<Product>, variants: seq<Variant>, carts: seq<Cart>, cartItems: seq<CartItem>,
                     orders: seq<Order>, nextId: Id, session: Option<Id>, req: OrderRequest, now: nat,
                     random: real): OrderOutcome
    requires 0.0 <= random < 1.0
  {
    if session.None? then OrderOutcome(Failure(401, Unauthorized), nextId, orders, cartItems, variants)
    else if CartIsEmpty(carts, cartItems, session.value) then
      OrderOutcome(Failure(400, CartIsEmptyMessage), nextId, orders, cartItems, variants)
    else if MissingBankDetails(req) then
      OrderOutcome(Failure(500, CreateFailed), nextId, orders, cartItems, variants)
    else
      var cart := CartOf(carts, session.value).value;
      var lines := LinesOf(cartItems, cart.id);
      var order := NewOrder(nextId, session.value, OrderNumber(now, RandomSuffix(random)),
                            products, variants, lines, req, now);
      OrderOutcome(Success(201, order), nextId + 1, orders + [order], Filter(cartItems, NotInCart(cart.id)),
                   StockLowered(variants, lines))
  }

  /** The three refusals: 401 without a session user, 400 for an empty or
      missing cart, 500 for a bank transfer without details; each leaves
      every table as it was, and there is no other failure. */
  lemma PostOrderRefusals(products: seq<Product>, variants: seq<Variant>, carts: seq<Cart>, cartItems: seq<CartItem>,
                          orders: seq<Order>, nextId: Id, session: Option<Id>, req: OrderRequest, now: nat,
                          random: real)
    requires 0.0 <= random < 1.0
    ensures var o := PostOrder(products, variants, carts, cartItems, orders, nextId, session, req, now, random);
      && (o.reply.Failure? <==>
            session.None? || CartIsEmpty(carts, cartItems, session.value) || MissingBankDetails(req))
      && (o.reply.Failure? ==>
            o.nextId == nextId && o.orders == orders && o.cartItems == cartItems && o.variants == variants)
      && (session.None? ==> o.reply == Failure(401, Unauthorized))
      && (session.Some? && CartIsEmpty(carts, cartItems, session.value) ==>
            o.reply == Failure(400, CartIsEmptyMessage))
      && (session.Some? && !CartIsEmpty(carts, cartItems, session.value) && MissingBankDetails(req) ==>
            o.reply == Failure(500, CreateFailed))
  {
  }

  /** A placed order: it is the user's, pending, numbered `ORD-<now>-<n>` with
      n < 1000, has one item per cart line adding up to its subtotal and a
      total of subtotal + 10% tax + shipping, and it is appended to the
      orders under a fresh id. */
  lemma PostOrderPlaces(products: seq<Product>, variants: seq<Variant>, carts: seq<Cart>, cartItems: seq<CartItem>,
                        orders: seq<Order>, nextId: Id, session: Option<Id>, req: OrderRequest, now: nat,
                        random: real)
    requires 0.0 <= random < 1.0
    requires session.Some? && !CartIsEmpty(carts, cartItems, session.value) && !MissingBankDetails(req)
    ensures var o := PostOrder(products, variants, carts, cartItems, orders, nextId, session, req, now, random);
      var lines := LinesOf(cartItems, CartOf(carts, session.value).value.id);
      && o.reply.Success? && o.reply.status == 201
      && o.reply.value.id == nextId && o.nextId == nextId + 1 && o.orders == orders + [o.reply.value]
      && o.reply.value.userId == session.value && o.reply.value.status == Pending
      && ParseOrderNumber(o.reply.value.orderNumber) == Some((now, RandomSuffix(random)))
      && |o.reply.value.items| == |lines| && SumReal(o.reply.value.items, ItemAmount) == o.reply.value.subtotal
      && o.reply.value.subtotal == LinesSubtotal(products, variants, lines)
      && o.reply.value.total == o.reply.value.subtotal * (1.0 + TaxRate) + o.reply.value.shipping
  {
    var lines := LinesOf(cartItems, CartOf(carts, session.value).value.id);
    OrderNumberRoundTrip(now, RandomSuffix(random));
    NewOrderConsistent(nextId, session.value, OrderNumber(now, RandomSuffix(random)), products, variants, lines, req, now);
  }

  /** After a placed order the user's cart has no lines while every other
      cart keeps its lines, and each variant's stock drops by the quantity
      the cart's lines took from it. */
  lemma PostOrderClearsCart(products: seq<Product>, variants: seq<Variant>, carts: seq<Cart>, cartItems: seq<CartItem>,
                            orders: seq<Order>, nextId: Id, session: Option<Id>, req: OrderRequest, now: nat,
                            random: real)
    requires 0.0 <= random < 1.0
    requires session.Some? && !CartIsEmpty(carts, cartItems, session.value) && !MissingBankDetails(req)
    ensures var o := PostOrder(products, variants, carts, cartItems, orders, nextId, session, req, now, random);
      var cart := CartOf(carts, session.value).value;
      && LinesOf(o.cartItems, cart.id) == []
      && (forall c :: c != cart.id ==> LinesOf(o.cartItems, c) == LinesOf(cartItems, c))
      && StockAfter(o.variants, variants, LinesOf(cartItems, cart.id))
  {
    ClearCartLines(cartItems, CartOf(carts, session.value).value.id);
  }

  /** The writes of a successful POST: insert the order, delete the cart's
      lines, lower the stock. */
  method Commit(db: Database, order: Order, cartId: Id, lines: seq<CartItem>)
    requires db.Valid() && order.id < db.nextId
    modifies db`orders, db`cartItems, db`variants
    ensures db.Valid()
    ensures db.orders == old(db.orders) + [order]
    ensures db.cartItems == Filter(old(db.cartItems), NotInCart(cartId))
    ensures db.variants == StockLowered(old(db.variants), lines)
  {
    db.orders := db.orders + [order];
    db.cartItems := Filter(db.cartItems, NotInCart(cartId));
    assert CartItemsValid(db.carts, db.products, db.variants, db.cartItems, db.nextId);
    ghost var variantsBefore := db.variants;
    DecrementStock(db, lines);
    StockAfterKeepsIds(db.variants, variantsBefore, lines);
    forall v | v in db.variants
      ensures v.id < db.nextId
    {
      assert v.id in VariantIds(variantsBefore);
    }
    StockAfterIsLowered(db.variants, variantsBefore, lines);
  }

  /** Past the guards: number the order, insert it under a fresh id, then write. */
  method Place(db: Database, userId: Id, cartId: Id, lines: seq<CartItem>, req: OrderRequest, now: nat,
               random: real)
    returns (order: Order)
    requires db.Valid() && 0.0 <= random < 1.0 && !MissingBankDetails(req)
    modifies db`nextId, db`orders, db`cartItems, db`variants
    ensures db.Valid()
    ensures order == NewOrder(old(db.nextId), userId, OrderNumber(now, RandomSuffix(random)),
                              db.products, old(db.variants), lines, req, now)
    ensures db.nextId == old(db.nextId) + 1 && db.orders == old(db.orders) + [order]
    ensures db.cartItems == Filter(old(db.cartItems), NotInCart(cartId))
    ensures db.variants == StockLowered(old(db.variants), lines)
  {
    var number := OrderNumber(now, RandomSuffix(random));
    var id := db.NewId();
    order := NewOrder(id, userId, number, db.products, db.variants, lines, req, now);
    Commit(db, order, cartId, lines);
  }

  /** The POST handler: guard, build the order, then write. */
  method PlaceOrder(db: Database, session: Option<Id>, req: OrderRequest, now: nat, random: real)
    returns (r: Reply<Order>)
    requires db.Valid() && 0.0 <= random < 1.0
    modifies db`nextId, db`orders, db`cartItems, db`variants
    ensures db.Valid()
    ensures OrderOutcome(r, db.nextId, db.orders, db.cartItems, db.variants)
      == PostOrder(db.products, old(db.variants), db.carts, old(db.cartItems), old(db.orders), old(db.nextId),
                   session, req, now, random)
    ensures r.Success? ==> forall o :: o in old(db.orders) ==> o.id != r.value.id
  {
    if session.None? {
      return Failure(401, Unauthorized);
    }
    var userId := session.value;
    var cart := CartOf(db.carts, userId);
    if cart.None? || LinesOf(db.cartItems, cart.value.id) == [] {
      return Failure(400, CartIsEmptyMessage);
    }
    var lines := LinesOf(db.cartItems, cart.value.id);
    if NeedsBankDetails(req.paymentMethod) && req.paymentDetails.None? {
      // reading the bank fields of a missing paymentDetails throws before any write
      return Failure(500, CreateFailed);
    }
    var order := Place(db, userId, cart.value.id, lines, req, now, random);
    r := Success(201, order);
  }
}
