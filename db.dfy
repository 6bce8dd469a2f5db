/** The relational tables the API routes read and write, as rows in `seq`
    fields of one Database object, and the integrity constraints of the
    schema that the routes rely on or maintain (unique keys, the foreign keys
    of carts and cart items). Row ids are naturals handed out by a counter. */
module Db {
  import opened Common

  type Id = nat

  datatype Role = Customer | Admin

  datatype User = User(id: Id, name: string, email: string, phone: Option<string>,
                       password: Option<string>, role: Role, createdAt: int)

  datatype Category = Category(id: Id, name: string, description: Option<string>, slug: string,
                               image: Option<string>, isActive: bool, createdAt: int)

  datatype Product = Product(id: Id, name: string, description: string, price: real,
                             salePrice: Option<real>, sku: string, categoryId: Id,
                             isActive: bool, isFeatured: bool, createdAt: int)

  datatype Variant = Variant(id: Id, productId: Id, size: string, color: string, stock: int,
                             sku: string, price: Option<real>)

  datatype Image = Image(id: Id, productId: Id, url: string, alt: string, position: int)

  datatype Cart = Cart(id: Id, userId: Id)

  datatype CartItem = CartItem(id: Id, cartId: Id, productId: Id, variantId: Option<Id>, quantity: int)

  datatype OrderStatus = Pending | Processing | Shipped | Delivered | Cancelled

  datatype PaymentStatus = PaymentPending | Paid | Failed | Refunded

  datatype Payment = Payment(paymentMethod: string, amount: real, status: PaymentStatus,
                             bankName: Option<string>, accountNumber: Option<string>,
                             receiptImage: Option<string>)

  /** An order line: the unit price is copied when the order is placed. */
  datatype OrderItem = OrderItem(productId: Id, variantId: Option<Id>, quantity: int, price: real)

  datatype Order = Order(id: Id, userId: Id, orderNumber: string, status: OrderStatus,
                         subtotal: real, shipping: real, tax: real, total: real,
                         notes: Option<string>, addressId: Option<Id>,
                         items: seq<OrderItem>, payment: Option<Payment>, createdAt: int)

  datatype AddressType = ShippingAddress | BillingAddress

  datatype Address = Address(id: Id, userId: Id, addressType: AddressType,
                             firstName: string, lastName: string, phone: string, address: string,
                             city: string, state: string, country: string, zipCode: string,
                             isDefault: bool, createdAt: int)

  datatype Review = Review(id: Id, userId: Id, productId: Id, rating: int,
                           comment: Option<string>, createdAt: int)

  // ---------------------------------------------------------------------
  // Keys

  function UserIds(users: seq<User>): set<Id> { set u | u in users :: u.id }

  function ProductIds(products: seq<Product>): set<Id> { set p | p in products :: p.id }

  function VariantIds(variants: seq<Variant>): set<Id> { set v | v in variants :: v.id }

  function CartIds(carts: seq<Cart>): set<Id> { set c | c in carts :: c.id }

  /** `findUnique({ where: { id } })` on products. */
  function FindProduct(products: seq<Product>, id: Id): (r: Option<Product>)
    ensures r.Some? <==> id in ProductIds(products)
    ensures r.Some? ==> r.value in products && r.value.id == id
  {
    if products == [] then None
    else if products[0].id == id then Some(products[0])
    else FindProduct(products[1..], id)
  }

  /** `findUnique({ where: { id } })` on variants. */
  function FindVariant(variants: seq<Variant>, id: Id): (r: Option<Variant>)
    ensures r.Some? <==> id in VariantIds(variants)
    ensures r.Some? ==> r.value in variants && r.value.id == id
  {
    if variants == [] then None
    else if variants[0].id == id then Some(variants[0])
    else FindVariant(variants[1..], id)
  }

  // ---------------------------------------------------------------------
  // Integrity constraints

  /** Users: ids below the id counter, emails unique. */
  predicate UsersValid(users: seq<User>, nextId: nat)
  {
    && (forall u :: u in users ==> u.id < nextId)
    && (forall i, j :: 0 <= i < j < |users| ==> users[i].email != users[j].email)
  }

  /** Carts belong to existing users, one cart per user; ids below the counter. */
  predicate CartsValid(users: seq<User>, carts: seq<Cart>, nextId: nat)
  {
    && (forall c :: c in carts ==> c.userId in UserIds(users) && c.id < nextId)
    && (forall i, j :: 0 <= i < j < |carts| ==> carts[i].userId != carts[j].userId)
  }

  /** Cart lines name an existing cart, product and (when given) variant;
      ids below the counter. */
  predicate CartItemsValid(carts: seq<Cart>, products: seq<Product>, variants: seq<Variant>,
                           cartItems: seq<CartItem>, nextId: nat)
  {
    forall l :: l in cartItems ==>
      && l.id < nextId
      && l.cartId in CartIds(carts)
      && l.productId in ProductIds(products)
      && (l.variantId.Some? ==> l.variantId.value in VariantIds(variants))
  }

  /** Addresses belong to existing users; ids below the counter. */
  predicate AddressesValid(users: seq<User>, addresses: seq<Address>, nextId: nat)
  {
    forall a :: a in addresses ==> a.userId in UserIds(users) && a.id < nextId
  }

  /** Product SKUs are unique. */
  predicate SkusUnique(products: seq<Product>)
  {
    forall i, j :: 0 <= i < j < |products| ==> products[i].sku != products[j].sku
  }

  /** Category names are unique and so are slugs. */
  predicate CategoriesUnique(categories: seq<Category>)
  {
    forall i, j :: 0 <= i < j < |categories| ==>
      categories[i].name != categories[j].name && categories[i].slug != categories[j].slug
  }

  /** Raising the id counter keeps the users and carts below it. */
  lemma CounterGrows(users: seq<User>, carts: seq<Cart>, nextId: nat, m: nat)
    requires UsersValid(users, nextId) && CartsValid(users, carts, nextId) && nextId <= m
    ensures UsersValid(users, m) && CartsValid(users, carts, m)
  {
  }

  /** Cart lines stay valid when rows are added to the tables they refer to. */
  lemma CartItemsValidWhenTablesGrow(carts: seq<Cart>, products: seq<Product>, variants: seq<Variant>,
                                     moreCarts: seq<Cart>, moreProducts: seq<Product>, moreVariants: seq<Variant>,
                                     cartItems: seq<CartItem>, nextId: nat, m: nat)
    requires CartItemsValid(carts, products, variants, cartItems, nextId) && nextId <= m
    ensures CartItemsValid(carts + moreCarts, products + moreProducts, variants + moreVariants, cartItems, m)
  {
    assert CartIds(carts) <= CartIds(carts + moreCarts);
    assert ProductIds(products) <= ProductIds(products + moreProducts);
    assert VariantIds(variants) <= VariantIds(variants + moreVariants);
  }

  /** A line of an existing cart, product and variant, inserted under the next id,
      keeps the cart lines valid. */
  lemma CartItemsValidAppend(carts: seq<Cart>, products: seq<Product>, variants: seq<Variant>,
                             cartItems: seq<CartItem>, l: CartItem, nextId: nat)
    requires CartItemsValid(carts, products, variants, cartItems, nextId) && l.id == nextId
    requires l.cartId in CartIds(carts) && l.productId in ProductIds(products)
    requires l.variantId.Some? ==> l.variantId.value in VariantIds(variants)
    ensures CartItemsValid(carts, products, variants, cartItems + [l], nextId + 1)
  {
  }

  /** Raising the id counter keeps the addresses below it. */
  lemma AddressesValidWhenCounterGrows(users: seq<User>, addresses: seq<Address>, nextId: nat, m: nat)
    requires AddressesValid(users, addresses, nextId) && nextId <= m
    ensures AddressesValid(users, addresses, m)
  {
  }

  /** At most one review per (user, product). */
  predicate ReviewsUnique(reviews: seq<Review>)
  {
    forall i, j :: 0 <= i < j < |reviews| ==>
      (reviews[i].userId, reviews[i].productId) != (reviews[j].userId, reviews[j].productId)
  }

  /** At most one default address per (user, address type). */
  predicate DefaultsUnique(addresses: seq<Address>)
  {
    forall i, j :: 0 <= i < j < |addresses| && addresses[i].isDefault && addresses[j].isDefault ==>
      (addresses[i].userId, addresses[i].addressType) != (addresses[j].userId, addresses[j].addressType)
  }

  /** The carts of one user. */
  function OfUser(userId: Id): Cart -> bool
  {
    (c: Cart) => c.userId == userId
  }

  function CartsOf(carts: seq<Cart>, userId: Id): seq<Cart>
  {
    Filter(carts, OfUser(userId))
  }

  /** Under the one-cart-per-user constraint a user's carts number at most one. */
  lemma {:induction false} AtMostOneCart(carts: seq<Cart>, userId: Id)
    requires forall i, j :: 0 <= i < j < |carts| ==> carts[i].userId != carts[j].userId
    ensures |CartsOf(carts, userId)| <= 1
  {
    if carts != [] {
      var rest := carts[1..];
      assert forall i, j :: 0 <= i < j < |rest| ==> rest[i].userId != rest[j].userId by {
        forall i, j | 0 <= i < j < |rest| ensures rest[i].userId != rest[j].userId {
          assert rest[i] == carts[i + 1] && rest[j] == carts[j + 1];
        }
      }
      AtMostOneCart(rest, userId);
      if carts[0].userId == userId {
        assert forall c :: c in rest ==> c.userId != userId by {
          forall c | c in rest ensures c.userId != userId {
            var k :| 0 <= k < |rest| && rest[k] == c;
            assert carts[k + 1] == c;
          }
        }
        FilterKeepsNone(rest, OfUser(userId));
      }
    }
  }

  // ---------------------------------------------------------------------
  // Carts and their lines

  /** `cart.findUnique({ where: { userId } })`. */
  function CartOf(carts: seq<Cart>, userId: Id): (r: Option<Cart>)
    ensures r.Some? <==> exists c :: c in carts && c.userId == userId
    ensures r.Some? ==> r.value in carts && r.value.userId == userId
  {
    if carts == [] then None
    else if carts[0].userId == userId then Some(carts[0])
    else CartOf(carts[1..], userId)
  }

  /** With one cart per user, a user who has a cart has exactly one. */
  lemma ExactlyOneCart(carts: seq<Cart>, userId: Id)
    requires forall i, j :: 0 <= i < j < |carts| ==> carts[i].userId != carts[j].userId
    requires CartOf(carts, userId).Some?
    ensures |CartsOf(carts, userId)| == 1
  {
    AtMostOneCart(carts, userId);
    assert CartOf(carts, userId).value in CartsOf(carts, userId);
  }

  /** The filter `{ cartId }` on cart items. */
  function InCart(cartId: Id): CartItem -> bool
  {
    (l: CartItem) => l.cartId == cartId
  }

  /** The filter `{ cartId: { not: cartId } }`: what `deleteMany({ where: { cartId } })` keeps. */
  function NotInCart(cartId: Id): CartItem -> bool
  {
    (l: CartItem) => l.cartId != cartId
  }

  /** The lines of a cart, in table order. */
  function LinesOf(cartItems: seq<CartItem>, cartId: Id): seq<CartItem>
  {
    Filter(cartItems, InCart(cartId))
  }

  /** Deleting a cart's lines empties that cart and leaves every other cart's lines as they were. */
  lemma ClearCartLines(cartItems: seq<CartItem>, cartId: Id)
    ensures LinesOf(Filter(cartItems, NotInCart(cartId)), cartId) == []
    ensures forall c :: c != cartId ==> LinesOf(Filter(cartItems, NotInCart(cartId)), c) == LinesOf(cartItems, c)
  {
    var kept := Filter(cartItems, NotInCart(cartId));
    FilterKeepsNone(kept, InCart(cartId));
    forall c | c != cartId
      ensures LinesOf(kept, c) == LinesOf(cartItems, c)
    {
      FilterThenFilter(cartItems, NotInCart(cartId), InCart(c), InCart(c));
    }
  }

  // ---------------------------------------------------------------------
  // The catalogue price of a cart line

  /** `item.productVariant?.price || item.product.price`: the variant's own
      price when it is set and not zero, else the product's list price (the
      product's sale price plays no part). A line whose rows are missing,
      which the foreign keys exclude, is priced at 0. */
  function LinePrice(products: seq<Product>, variants: seq<Variant>, l: CartItem): real
  {
    var base := match FindProduct(products, l.productId)
      case Some(p) => p.price
      case None => 0.0;
    var own := match l.variantId
      case None => None
      case Some(v) => (match FindVariant(variants, v)
        case Some(x) => x.price
        case None => None);
    RealOr(own, base)
  }

  /** `price * quantity`. */
  function Amount(price: real, quantity: int): real
  {
    price * quantity as real
  }

  function LineAmounts(products: seq<Product>, variants: seq<Variant>): CartItem -> real
  {
    (l: CartItem) => Amount(LinePrice(products, variants, l), l.quantity)
  }

  /** `items.reduce((sum, item) => sum + price * item.quantity, 0)`. */
  function LinesSubtotal(products: seq<Product>, variants: seq<Variant>, lines: seq<CartItem>): real
  {
    SumReal(lines, LineAmounts(products, variants))
  }

  /** Two product tables that differ at most in sale prices. */
  predicate SameButSalePrices(p1: seq<Product>, p2: seq<Product>)
  {
    |p1| == |p2| && forall i :: 0 <= i < |p1| ==> p1[i].(salePrice := None) == p2[i].(salePrice := None)
  }

  lemma {:induction false} FindProductSameButSalePrices(p1: seq<Product>, p2: seq<Product>, id: Id)
    requires SameButSalePrices(p1, p2)
    ensures FindProduct(p1, id).Some? == FindProduct(p2, id).Some?
    ensures FindProduct(p1, id).Some? ==> FindProduct(p1, id).value.price == FindProduct(p2, id).value.price
  {
    if p1 != [] {
      assert p1[0].id == p2[0].id by {
        assert p1[0].(salePrice := None).id == p2[0].(salePrice := None).id;
      }
      assert SameButSalePrices(p1[1..], p2[1..]) by {
        forall i | 0 <= i < |p1[1..]|
          ensures p1[1..][i].(salePrice := None) == p2[1..][i].(salePrice := None)
        {
          assert p1[1..][i] == p1[i + 1] && p2[1..][i] == p2[i + 1];
        }
      }
      FindProductSameButSalePrices(p1[1..], p2[1..], id);
      assert p1[0].price == p2[0].price by {
        assert p1[0].(salePrice := None).price == p2[0].(salePrice := None).price;
      }
    }
  }

  /** The sale price of a product never changes what a cart line costs. */
  lemma SalePriceIgnored(p1: seq<Product>, p2: seq<Product>, variants: seq<Variant>, l: CartItem)
    requires SameButSalePrices(p1, p2)
    ensures LinePrice(p1, variants, l) == LinePrice(p2, variants, l)
  {
    FindProductSameButSalePrices(p1, p2, l.productId);
  }

  class Database {
    var nextId: nat
    var users: seq<User>
    var categories: seq<Category>
    var products: seq<Product>
    var variants: seq<Variant>
    var images: seq<Image>
    var carts: seq<Cart>
    var cartItems: seq<CartItem>
    var orders: seq<Order>
    var addresses: seq<Address>
    var reviews: seq<Review>

    ghost predicate Valid()
      reads this
    {
      && UsersValid(users, nextId)
      && CartsValid(users, carts, nextId)
      && CartItemsValid(carts, products, variants, cartItems, nextId)
      && SkusUnique(products)
      && CategoriesUnique(categories)
      && ReviewsUnique(reviews)
      && AddressesValid(users, addresses, nextId)
      && DefaultsUnique(addresses)
      && IdsBelowCounter()
    }

    /** Products, variants, images and orders were created under ids the
        counter has passed, so the next id is fresh in those tables (users,
        carts, cart lines and addresses carry the same bound in their own rules). */
    ghost predicate IdsBelowCounter()
      reads this
    {
      && (forall i {:trigger products[i].id} :: 0 <= i < |products| ==> products[i].id < nextId)
      && (forall i {:trigger variants[i].id} :: 0 <= i < |variants| ==> variants[i].id < nextId)
      && (forall i {:trigger images[i].id} :: 0 <= i < |images| ==> images[i].id < nextId)
      && (forall i {:trigger orders[i].id} :: 0 <= i < |orders| ==> orders[i].id < nextId)
    }

    constructor ()
      ensures Valid()
      ensures nextId == 0 && users == [] && categories == [] && products == [] && variants == []
      ensures images == [] && carts == [] && cartItems == [] && orders == [] && addresses == [] && reviews == []
    {
      nextId := 0;
      users, categories, products, variants, images := [], [], [], [], [];
      carts, cartItems, orders, addresses, reviews := [], [], [], [], [];
    }

    /** The database assigns a new row id. */
    method NewId() returns (id: Id)
      modifies this`nextId
      ensures id == old(nextId) && nextId == old(nextId) + 1
    {
      id := nextId;
      nextId := nextId + 1;
    }
  }
}
