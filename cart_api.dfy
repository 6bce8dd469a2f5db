/** The cart endpoint. GET returns the signed-in user's cart with its lines,
    subtotal and item count, creating an empty cart first when the user has
    none. POST checks the product and, when a variant is named, that the
    variant belongs to the product and has the requested quantity in stock;
    it then merges the request into a matching line or appends a new line. */
module CartApi {
  import opened Common
  import opened Db

  const ProductNotFound: string := "Product not found"
  const InsufficientStock: string := "Insufficient stock"
  const FetchFailed: string := "Failed to fetch cart"
  const AddFailed: string := "Failed to add to cart"

  /** The cart as returned: its lines with `subtotal` and `itemCount`. */
  datatype CartView = CartView(cart: Cart, lines: seq<CartItem>, subtotal: real, itemCount: int)

  /** The fields of the POST body; an absent `productVariantId` is None. */
  datatype AddRequest = AddRequest(productId: Id, variantId: Option<Id>, quantity: int)

  // ---------------------------------------------------------------------
  // Totals

  function Quantity(l: CartItem): int { l.quantity }

  /** `items.reduce((sum, item) => sum + item.quantity, 0)`. */
  function ItemCount(lines: seq<CartItem>): int
  {
    SumInt(lines, Quantity)
  }

  function View(products: seq<Product>, variants: seq<Variant>, cartItems: seq<CartItem>, cart: Cart): CartView
  {
    var lines := LinesOf(cartItems, cart.id);
    CartView(cart, lines, LinesSubtotal(products, variants, lines), ItemCount(lines))
  }

  /** The units of one cart, counted over the whole table. */
  function UnitsIn(cartId: Id): CartItem -> int
  {
    (l: CartItem) => if l.cartId == cartId then l.quantity else 0
  }

  /** The item count of a cart is the sum of the quantities of the rows that belong to it. */
  lemma {:induction false} ItemCountOfCart(cartItems: seq<CartItem>, cartId: Id)
    ensures ItemCount(LinesOf(cartItems, cartId)) == SumInt(cartItems, UnitsIn(cartId))
  {
    if cartItems != [] {
      var n := |cartItems| - 1;
      var init, last := cartItems[..n], cartItems[n];
      assert cartItems == init + [last];
      ItemCountOfCart(init, cartId);
      FilterAppend(init, [last], InCart(cartId));
      SumIntAppend(LinesOf(init, cartId), LinesOf([last], cartId), Quantity);
      LastRowUnits(last, cartId);
      assert SumInt(cartItems, UnitsIn(cartId)) == SumInt(init, UnitsIn(cartId)) + UnitsIn(cartId)(last);
    }
  }

  /** A single row counts towards a cart exactly when it belongs to it. */
  lemma LastRowUnits(last: CartItem, cartId: Id)
    ensures ItemCount(LinesOf([last], cartId)) == UnitsIn(cartId)(last)
  {
    assert [last][1..] == [];
    if last.cartId == cartId {
      assert LinesOf([last], cartId) == [last];
      assert [last][..0] == [];
      assert ItemCount([last]) == SumInt([], Quantity) + Quantity(last);
    } else {
      assert LinesOf([last], cartId) == [];
    }
  }

  /** With at least one unit on every line, a cart holds at least as many units as lines. */
  lemma ItemCountAtLeastLines(lines: seq<CartItem>)
    requires forall l :: l in lines ==> l.quantity >= 1
    ensures ItemCount(lines) >= |lines|
  {
    SumIntAtLeast(lines, Quantity, 1);
  }

  // ---------------------------------------------------------------------
  // Get-or-create

  /** `cart.create({ data: { userId } })` for a registered user without a cart. */
  method CreateCart(db: Database, userId: Id) returns (cart: Cart)
    requires db.Valid() && CartOf(db.carts, userId).None? && userId in UserIds(db.users)
    modifies db`carts, db`nextId
    ensures db.Valid()
    ensures cart == Cart(old(db.nextId), userId) && db.carts == old(db.carts) + [cart]
    ensures db.nextId == old(db.nextId) + 1
    ensures cart.id < db.nextId && CartOf(db.carts, userId) == Some(cart)
    ensures LinesOf(db.cartItems, cart.id) == []
  {
    CartsStayValid(db.users, db.carts, db.nextId, userId);
    CartItemsValidWhenTablesGrow(db.carts, db.products, db.variants, [Cart(db.nextId, userId)], [], [], db.cartItems,
                                 db.nextId, db.nextId + 1);
    AddressesValidWhenCounterGrows(db.users, db.addresses, db.nextId, db.nextId + 1);
    var id := db.NewId();
    assert id !in CartIds(db.carts);
    FilterKeepsNone(db.cartItems, InCart(id));
    cart := Cart(id, userId);
    CartOfAppend(db.carts, cart, userId);
    db.carts := db.carts + [cart];
  }

  /** `cart.findUnique({ where: { userId } })`, then `cart.create` when there
      is none; the create fails on the foreign key when the user is unknown. */
  method GetOrCreateCart(db: Database, userId: Id) returns (cart: Option<Cart>)
    requires db.Valid()
    modifies db`carts, db`nextId
    ensures db.Valid()
    ensures old(CartOf(db.carts, userId)).Some? ==> cart == old(CartOf(db.carts, userId)) && db.carts == old(db.carts) && db.nextId == old(db.nextId)
    ensures old(CartOf(db.carts, userId)).None? && userId in UserIds(db.users) ==>
      && cart == Some(Cart(old(db.nextId), userId))
      && db.carts == old(db.carts) + [cart.value]
      && db.nextId == old(db.nextId) + 1
      && LinesOf(db.cartItems, cart.value.id) == []
    ensures old(CartOf(db.carts, userId)).None? && userId !in UserIds(db.users) ==> cart.None? && db.carts == old(db.carts) && db.nextId == old(db.nextId)
    ensures cart.Some? ==> cart.value.userId == userId && CartOf(db.carts, userId) == cart
    ensures cart.Some? ==> cart.value in db.carts && cart.value.id < db.nextId
    ensures cart.Some? ==> |CartsOf(db.carts, userId)| == 1
  {
    cart := CartOf(db.carts, userId);
    if cart.None? {
      if userId !in UserIds(db.users) {
        return;
      }
      var c := CreateCart(db, userId);
      cart := Some(c);
    }
    ExactlyOneCart(db.carts, userId);
  }

  lemma {:induction false} CartOfAppend(carts: seq<Cart>, c: Cart, userId: Id)
    requires CartOf(carts, userId).None? && c.userId == userId
    ensures CartOf(carts + [c], userId) == Some(c)
  {
    if carts != [] {
      assert (carts + [c])[1..] == carts[1..] + [c];
      CartOfAppend(carts[1..], c, userId);
    }
  }

  // ---------------------------------------------------------------------
  // GET

  method GetCart(db: Database, session: Option<Id>) returns (r: Reply<CartView>)
    requires db.Valid()
    modifies db`carts, db`nextId
    ensures db.Valid()
    ensures r.Failure? ==> db.carts == old(db.carts) && db.nextId == old(db.nextId)
    ensures session.None? ==> r == Failure(401, Unauthorized)
    ensures session.Some? && old(CartOf(db.carts, session.value)).Some? ==>
      r == Success(200, View(db.products, db.variants, db.cartItems, old(CartOf(db.carts, session.value)).value))
    ensures session.Some? && old(CartOf(db.carts, session.value)).None? && session.value !in UserIds(db.users) ==>
      r == Failure(500, FetchFailed)
    ensures session.Some? && old(CartOf(db.carts, session.value)).None? && session.value in UserIds(db.users) ==>
      r == Success(200, CartView(Cart(old(db.nextId), session.value), [], 0.0, 0))
    ensures r.Success? ==> |CartsOf(db.carts, session.value)| == 1
  {
    if session.None? {
      return Failure(401, Unauthorized);
    }
    var cart := GetOrCreateCart(db, session.value);
    if cart.None? {
      return Failure(500, FetchFailed);
    }
    r := Success(200, View(db.products, db.variants, db.cartItems, cart.value));
  }

  // ---------------------------------------------------------------------
  // POST: checks

  /** `product.variants.find(v => v.id === productVariantId)`. */
  function VariantOfProduct(variants: seq<Variant>, productId: Id, variantId: Id): (r: Option<Variant>)
    ensures r.Some? <==> exists v :: v in variants && v.productId == productId && v.id == variantId
    ensures r.Some? ==> r.value in variants && r.value.productId == productId && r.value.id == variantId
  {
    if variants == [] then None
    else if variants[0].productId == productId && variants[0].id == variantId then Some(variants[0])
    else VariantOfProduct(variants[1..], productId, variantId)
  }

  /** The product of the request exists, and so does its variant when one is named. */
  predicate Addable(products: seq<Product>, variants: seq<Variant>, req: AddRequest)
  {
    req.productId in ProductIds(products) && (req.variantId.Some? ==> req.variantId.value in VariantIds(variants))
  }

  /** The guard of a POST: None when the request may proceed, otherwise the
      status and message it is refused with. */
  function CheckAdd(products: seq<Product>, variants: seq<Variant>, req: AddRequest): (r: Option<(nat, string)>)
    ensures r == Some((404, ProductNotFound)) <==> req.productId !in ProductIds(products)
    ensures r == Some((400, InsufficientStock)) <==>
      && req.productId in ProductIds(products)
      && req.variantId.Some?
      && (VariantOfProduct(variants, req.productId, req.variantId.value).None?
          || VariantOfProduct(variants, req.productId, req.variantId.value).value.stock < req.quantity)
    ensures r.None? ==> Addable(products, variants, req)
    ensures r.None? || r == Some((404, ProductNotFound)) || r == Some((400, InsufficientStock))
  {
    if FindProduct(products, req.productId).None? then Some((404, ProductNotFound))
    else if req.variantId.Some? then
      match VariantOfProduct(variants, req.productId, req.variantId.value)
      case None => Some((400, InsufficientStock))
      case Some(v) => if v.stock < req.quantity then Some((400, InsufficientStock)) else None
    else None
  }

  // ---------------------------------------------------------------------
  // POST: add or merge

  /** The `findFirst` filter `{ cartId, productId, productVariantId }`; an
      absent variant id puts no condition on the line's variant. */
  predicate LineMatches(l: CartItem, cartId: Id, productId: Id, variantId: Option<Id>)
  {
    l.cartId == cartId && l.productId == productId && (variantId.None? || l.variantId == variantId)
  }

  /** The index of the first matching line. */
  function FindLine(cartItems: seq<CartItem>, cartId: Id, productId: Id, variantId: Option<Id>): (r: Option<nat>)
    ensures r.Some? ==> r.value < |cartItems| && LineMatches(cartItems[r.value], cartId, productId, variantId)
    ensures r.Some? ==> forall j :: 0 <= j < r.value ==> !LineMatches(cartItems[j], cartId, productId, variantId)
    ensures r.None? ==> forall j :: 0 <= j < |cartItems| ==> !LineMatches(cartItems[j], cartId, productId, variantId)
  {
    if cartItems == [] then None
    else if LineMatches(cartItems[0], cartId, productId, variantId) then Some(0)
    else match FindLine(cartItems[1..], cartId, productId, variantId)
      case None => None
      case Some(k) => Some(k + 1)
  }

  /** The table after the merge or the insert; `newId` is used only by an insert. */
  function AddLine(cartItems: seq<CartItem>, cartId: Id, req: AddRequest, newId: Id): seq<CartItem>
  {
    match FindLine(cartItems, cartId, req.productId, req.variantId)
    case Some(k) => cartItems[k := cartItems[k].(quantity := cartItems[k].quantity + req.quantity)]
    case None => cartItems + [CartItem(newId, cartId, req.productId, req.variantId, req.quantity)]
  }

  /** The cart-item table `after` is `before` with the request added to cart `cartId`. */
  predicate Added(before: seq<CartItem>, after: seq<CartItem>, cartId: Id, req: AddRequest, newId: Id)
  {
    after == AddLine(before, cartId, req, newId)
  }

  /** A merge changes only the quantity of the first matching line and adds
      no line; an insert appends exactly one line and changes no other. */
  lemma AddLineShape(cartItems: seq<CartItem>, cartId: Id, req: AddRequest, newId: Id)
    ensures var r := AddLine(cartItems, cartId, req, newId);
      var k := FindLine(cartItems, cartId, req.productId, req.variantId);
      && (k.Some? ==>
            && |r| == |cartItems|
            && r[k.value] == cartItems[k.value].(quantity := cartItems[k.value].quantity + req.quantity)
            && forall j :: 0 <= j < |r| && j != k.value ==> r[j] == cartItems[j])
      && (k.None? ==>
            && r[..|cartItems|] == cartItems && |r| == |cartItems| + 1
            && r[|cartItems|] == CartItem(newId, cartId, req.productId, req.variantId, req.quantity))
  {
  }

  /** Either way the cart's item count grows by exactly the requested quantity. */
  lemma AddLineAddsQuantity(cartItems: seq<CartItem>, cartId: Id, req: AddRequest, newId: Id)
    ensures ItemCount(LinesOf(AddLine(cartItems, cartId, req, newId), cartId))
         == ItemCount(LinesOf(cartItems, cartId)) + req.quantity
  {
    var r := AddLine(cartItems, cartId, req, newId);
    ItemCountOfCart(cartItems, cartId);
    ItemCountOfCart(r, cartId);
    match FindLine(cartItems, cartId, req.productId, req.variantId)
    case Some(k) =>
      SumIntUpdate(cartItems, k, cartItems[k].(quantity := cartItems[k].quantity + req.quantity), UnitsIn(cartId));
    case None =>
      var line := CartItem(newId, cartId, req.productId, req.variantId, req.quantity);
      SumIntAppend(cartItems, [line], UnitsIn(cartId));
      assert SumInt([line], UnitsIn(cartId)) == req.quantity by {
        assert [line][..0] == [];
      }
  }

  /** The lines of every other cart are left as they were. */
  lemma AddLineKeepsOtherCarts(cartItems: seq<CartItem>, cartId: Id, req: AddRequest, newId: Id, other: Id)
    requires other != cartId
    ensures LinesOf(AddLine(cartItems, cartId, req, newId), other) == LinesOf(cartItems, other)
  {
    var k := FindLine(cartItems, cartId, req.productId, req.variantId);
    if k.Some? {
      var line := cartItems[k.value];
      var merged := line.(quantity := line.quantity + req.quantity);
      assert AddLine(cartItems, cartId, req, newId) == cartItems[k.value := merged];
      FilterUpdateDropped(cartItems, k.value, merged, InCart(other));
    } else {
      var line := CartItem(newId, cartId, req.productId, req.variantId, req.quantity);
      assert AddLine(cartItems, cartId, req, newId) == cartItems + [line];
      FilterAppend(cartItems, [line], InCart(other));
      FilterKeepsNone([line], InCart(other));
    }
  }

  /** The stock check looks at the requested quantity alone: with 3 units of
      a variant in the cart and 5 in stock, a request for 3 more passes the
      check and the merged line asks for 6. */
  lemma MergeCanExceedStock()
    ensures var variants := [Variant(1, 0, "M", "Black", 5, "SKU-M", None)];
      var products := [Product(0, "Thobe", "", 100.0, None, "SKU", 0, true, false, 0)];
      var cartItems := [CartItem(2, 3, 0, Some(1), 3)];
      var req := AddRequest(0, Some(1), 3);
      && CheckAdd(products, variants, req).None?
      && AddLine(cartItems, 3, req, 4)[0].quantity == 6 > variants[0].stock
  {
    var cartItems := [CartItem(2, 3, 0, Some(1), 3)];
    assert FindLine(cartItems, 3, 0, Some(1)) == Some(0);
  }

  // ---------------------------------------------------------------------
  // POST

  /** The tables a POST may change, with its reply. */
  datatype AddOutcome = AddOutcome(reply: Reply<CartView>, carts: seq<Cart>, cartItems: seq<CartItem>, nextId: Id)

  /** Whether the request merges into an existing line of cart `cartId`. */
  predicate Merges(cartItems: seq<CartItem>, cartId: Id, req: AddRequest)
  {
    FindLine(cartItems, cartId, req.productId, req.variantId).Some?
  }

  /** Add or merge into cart `c` (ids from `nextId` on), then read the cart back. */
  function AddTo(products: seq<Product>, variants: seq<Variant>, carts: seq<Cart>, cartItems: seq<CartItem>,
                 nextId: Id, c: Cart, req: AddRequest): AddOutcome
  {
    var items := AddLine(cartItems, c.id, req, nextId);
    AddOutcome(Success(200, View(products, variants, items, c)), carts, items,
               if Merges(cartItems, c.id, req) then nextId else nextId + 1)
  }

  /** A POST that has passed its checks: find the user's cart, or create it
      (the create fails on the foreign key for an unknown user), then add. */
  function PostFor(products: seq<Product>, variants: seq<Variant>, users: seq<User>, carts: seq<Cart>,
                   cartItems: seq<CartItem>, nextId: Id, userId: Id, req: AddRequest): AddOutcome
  {
    match CartOf(carts, userId)
    case Some(c) => AddTo(products, variants, carts, cartItems, nextId, c, req)
    case None =>
      if userId !in UserIds(users) then AddOutcome(Failure(500, AddFailed), carts, cartItems, nextId)
      else
        var c := Cart(nextId, userId);
        AddTo(products, variants, carts + [c], cartItems, nextId + 1, c, req)
  }

  /** The whole POST: 401 without a session user, the refusals of the validation,
      then the add. A refusal changes nothing. */
  function Post(products: seq<Product>, variants: seq<Variant>, users: seq<User>, carts: seq<Cart>,
                cartItems: seq<CartItem>, nextId: Id, session: Option<Id>, req: AddRequest): AddOutcome
  {
    if session.None? then AddOutcome(Failure(401, Unauthorized), carts, cartItems, nextId)
    else match CheckAdd(products, variants, req)
      case Some(e) => AddOutcome(Failure(e.0, e.1), carts, cartItems, nextId)
      case None => PostFor(products, variants, users, carts, cartItems, nextId, session.value, req)
  }

  /** A successful POST adds the request to the cart it returns: the line
      table is the old one with the request merged or appended under the
      last id drawn, and the reply shows that cart's lines and totals. */
  lemma PostForAdds(products: seq<Product>, variants: seq<Variant>, users: seq<User>, carts: seq<Cart>,
                    cartItems: seq<CartItem>, nextId: Id, userId: Id, req: AddRequest)
    requires CartsValid(users, carts, nextId)
    ensures var o := PostFor(products, variants, users, carts, cartItems, nextId, userId, req);
      o.reply.Success? ==>
        && o.reply.status == 200
        && o.reply.value.cart.id < o.nextId && nextId <= o.nextId <= nextId + 2
        && Added(cartItems, o.cartItems, o.reply.value.cart.id, req, o.nextId - 1)
        && o.reply.value == View(products, variants, o.cartItems, o.reply.value.cart)
        && ItemCount(o.reply.value.lines) == ItemCount(LinesOf(cartItems, o.reply.value.cart.id)) + req.quantity
  {
    var o := PostFor(products, variants, users, carts, cartItems, nextId, userId, req);
    if o.reply.Success? {
      var c := o.reply.value.cart;
      var n := if CartOf(carts, userId).Some? then nextId else nextId + 1;
      assert o == AddTo(products, variants, o.carts, cartItems, n, c, req);
      AddLineAddsQuantity(cartItems, c.id, req, n);
    }
  }

  /** A POST past the validation fails exactly when the user has no cart and is
      not a registered user, and then with 500 and no change. */
  lemma PostForFails(products: seq<Product>, variants: seq<Variant>, users: seq<User>, carts: seq<Cart>,
                     cartItems: seq<CartItem>, nextId: Id, userId: Id, req: AddRequest)
    ensures var o := PostFor(products, variants, users, carts, cartItems, nextId, userId, req);
      && (o.reply.Failure? <==> CartOf(carts, userId).None? && userId !in UserIds(users))
      && (o.reply.Failure? ==> o == AddOutcome(Failure(500, AddFailed), carts, cartItems, nextId))
  {
  }

  /** After a successful POST the user owns exactly one cart, the returned
      one; it is the one found, or a new cart with the next id. */
  lemma {:induction false} PostForOneCart(products: seq<Product>, variants: seq<Variant>, users: seq<User>,
                                          carts: seq<Cart>, cartItems: seq<CartItem>, nextId: Id, userId: Id,
                                          req: AddRequest)
    requires CartsValid(users, carts, nextId)
    ensures var o := PostFor(products, variants, users, carts, cartItems, nextId, userId, req);
      o.reply.Success? ==>
        && CartOf(o.carts, userId) == Some(o.reply.value.cart)
        && |CartsOf(o.carts, userId)| == 1
        && (o.carts == carts || o.carts == carts + [Cart(nextId, userId)])
  {
    var o := PostFor(products, variants, users, carts, cartItems, nextId, userId, req);
    if o.reply.Success? {
      if CartOf(carts, userId).None? {
        CartOfAppend(carts, Cart(nextId, userId), userId);
        CartsStayValid(users, carts, nextId, userId);
      }
      ExactlyOneCart(o.carts, userId);
    }
  }

  /** A new cart for a registered user without one keeps one cart per user. */
  lemma CartsStayValid(users: seq<User>, carts: seq<Cart>, nextId: Id, userId: Id)
    requires CartsValid(users, carts, nextId) && CartOf(carts, userId).None? && userId in UserIds(users)
    ensures CartsValid(users, carts + [Cart(nextId, userId)], nextId + 1)
  {
    var r := carts + [Cart(nextId, userId)];
    forall i, j | 0 <= i < j < |r| ensures r[i].userId != r[j].userId {
      if j == |carts| {
        assert r[i] in carts;
      }
    }
  }

  /** The POST refuses without a session user (401) and on a failed check,
      and changes nothing then; with both passed it is the add. */
  lemma PostRefusals(products: seq<Product>, variants: seq<Variant>, users: seq<User>, carts: seq<Cart>,
                     cartItems: seq<CartItem>, nextId: Id, session: Option<Id>, req: AddRequest)
    ensures var o := Post(products, variants, users, carts, cartItems, nextId, session, req);
      && (session.None? ==> o == AddOutcome(Failure(401, Unauthorized), carts, cartItems, nextId))
      && (session.Some? && CheckAdd(products, variants, req).Some? ==>
            o.reply == Failure(CheckAdd(products, variants, req).value.0, CheckAdd(products, variants, req).value.1)
            && o.reply.status != 200 && o.carts == carts && o.cartItems == cartItems && o.nextId == nextId)
      && (session.Some? && CheckAdd(products, variants, req).None? ==>
            o == PostFor(products, variants, users, carts, cartItems, nextId, session.value, req))
  {
  }

  /** `cartItem.findFirst`, then `cartItem.update` of the match or `cartItem.create`. */
  method AddOrMerge(db: Database, c: Cart, req: AddRequest)
    requires db.Valid() && c in db.carts && Addable(db.products, db.variants, req)
    modifies db`cartItems, db`nextId
    ensures db.Valid()
    ensures db.cartItems == AddLine(old(db.cartItems), c.id, req, old(db.nextId))
    ensures db.nextId == if Merges(old(db.cartItems), c.id, req) then old(db.nextId) else old(db.nextId) + 1
  {
    var k := FindLine(db.cartItems, c.id, req.productId, req.variantId);
    if k.Some? {
      var line := db.cartItems[k.value];
      assert line in old(db.cartItems);
      db.cartItems := db.cartItems[k.value := line.(quantity := line.quantity + req.quantity)];
      assert forall l :: l in db.cartItems ==> l in old(db.cartItems) || l == line.(quantity := line.quantity + req.quantity);
    } else {
      CartItemsValidAppend(db.carts, db.products, db.variants, db.cartItems,
                           CartItem(db.nextId, c.id, req.productId, req.variantId, req.quantity), db.nextId);
      AddressesValidWhenCounterGrows(db.users, db.addresses, db.nextId, db.nextId + 1);
      CounterGrows(db.users, db.carts, db.nextId, db.nextId + 1);
      var id := db.NewId();
      db.cartItems := db.cartItems + [CartItem(id, c.id, req.productId, req.variantId, req.quantity)];
    }
  }

  /** Add or merge the line, then read the cart back with its lines. */
  method AddAndView(db: Database, c: Cart, req: AddRequest) returns (r: Reply<CartView>)
    requires db.Valid() && c in db.carts && Addable(db.products, db.variants, req)
    modifies db`nextId, db`cartItems
    ensures db.Valid()
    ensures AddOutcome(r, db.carts, db.cartItems, db.nextId)
         == AddTo(db.products, db.variants, db.carts, old(db.cartItems), old(db.nextId), c, req)
  {
    AddOrMerge(db, c, req);
    var lines := LinesOf(db.cartItems, c.id);
    r := Success(200, CartView(c, lines, LinesSubtotal(db.products, db.variants, lines), ItemCount(lines)));
  }

  /** The user has no cart yet: create it, then add to it. */
  method AddToNewCart(db: Database, userId: Id, req: AddRequest) returns (r: Reply<CartView>)
    requires db.Valid() && Addable(db.products, db.variants, req)
    requires CartOf(db.carts, userId).None? && userId in UserIds(db.users)
    modifies db`carts, db`nextId, db`cartItems
    ensures db.Valid()
    ensures AddOutcome(r, db.carts, db.cartItems, db.nextId)
         == AddTo(db.products, db.variants, old(db.carts) + [Cart(old(db.nextId), userId)], old(db.cartItems),
                  old(db.nextId) + 1, Cart(old(db.nextId), userId), req)
  {
    var c := CreateCart(db, userId);
    r := AddAndView(db, c, req);
  }

  /** POST once the request has passed its checks. */
  method AddForUser(db: Database, userId: Id, req: AddRequest) returns (r: Reply<CartView>)
    requires db.Valid() && Addable(db.products, db.variants, req)
    modifies db`carts, db`nextId, db`cartItems
    ensures db.Valid()
    ensures AddOutcome(r, db.carts, db.cartItems, db.nextId)
         == PostFor(db.products, db.variants, db.users, old(db.carts), old(db.cartItems), old(db.nextId), userId, req)
  {
    var found := CartOf(db.carts, userId);
    if found.Some? {
      r := AddAndView(db, found.value, req);
    } else if userId in UserIds(db.users) {
      r := AddToNewCart(db, userId, req);
    } else {
      r := Failure(500, AddFailed);
    }
  }

  method AddToCart(db: Database, session: Option<Id>, req: AddRequest) returns (r: Reply<CartView>)
    requires db.Valid()
    modifies db`carts, db`nextId, db`cartItems
    ensures db.Valid()
    ensures AddOutcome(r, db.carts, db.cartItems, db.nextId)
         == Post(db.products, db.variants, db.users, old(db.carts), old(db.cartItems), old(db.nextId), session, req)
  {
    if session.None? {
      return Failure(401, Unauthorized);
    }
    var check := CheckAdd(db.products, db.variants, req);
    if check.Some? {
      return Failure(check.value.0, check.value.1);
    }
    r := AddForUser(db, session.value, req);
  }
}
