/** The cart page: quantity edits and removal of lines, the promo code, and
    the order summary (subtotal, free shipping over SAR 200, 15% VAT, promo
    discount). The page keeps its lines and promo state in component state,
    modelled as the fields of a CartPageState object. */
module CartPage {
  import opened Common

  datatype CartLine = CartLine(id: string, productId: string, name: string, price: real,
                               salePrice: Option<real>, size: string, color: string,
                               quantity: int, stock: int, variantId: string)

  const FreeShippingThreshold: real := 200.0
  const ShippingFee: real := 25.0
  const VatRate: real := 0.15
  const InvalidPromoMessage: string := "Invalid promo code"

  /** `item.salePrice || item.price`. */
  function UnitPrice(l: CartLine): real
  {
    RealOr(l.salePrice, l.price)
  }

  function LineAmount(l: CartLine): real
  {
    UnitPrice(l) * l.quantity as real
  }

  // ---------------------------------------------------------------------
  // Order summary

  function Subtotal(items: seq<CartLine>): real
  {
    SumReal(items, LineAmount)
  }

  function Shipping(subtotal: real): real
  {
    if subtotal > FreeShippingThreshold then 0.0 else ShippingFee
  }

  function Tax(subtotal: real): real
  {
    subtotal * VatRate
  }

  function Discount(subtotal: real, rate: real): real
  {
    subtotal * rate
  }

  /** The total of the summary; never negative while the discount rate is at
      most 100% and the subtotal is not negative. */
  function Total(items: seq<CartLine>, rate: real): (r: real)
    ensures Subtotal(items) >= 0.0 && 0.0 <= rate <= 1.0 ==> r >= Tax(Subtotal(items)) >= 0.0
  {
    var s := Subtotal(items);
    s + Shipping(s) + Tax(s) - Discount(s, rate)
  }

  /** The "Add SAR x more for free shipping" notice: the amount still missing,
      shown while the subtotal is below 200. */
  function FreeShippingHint(subtotal: real): Option<real>
  {
    if subtotal < FreeShippingThreshold then Some(FreeShippingThreshold - subtotal) else None
  }

  /** Prices and quantities a customer can actually see. */
  predicate NonNegativeLine(l: CartLine)
  {
    l.price >= 0.0 && (l.salePrice.Some? ==> l.salePrice.value >= 0.0) && l.quantity >= 0
  }

  lemma SubtotalNonNegative(items: seq<CartLine>)
    requires forall l :: l in items ==> NonNegativeLine(l)
    ensures Subtotal(items) >= 0.0
  {
    forall l | l in items ensures LineAmount(l) >= 0.0 {
      assert UnitPrice(l) >= 0.0;
    }
    SumRealNonNegative(items, LineAmount);
  }

  /** An empty cart costs only the flat shipping fee. */
  lemma EmptyCartTotal(rate: real)
    ensures Subtotal([]) == 0.0 && Total([], rate) == ShippingFee
  {
  }

  /** The notice and the fee agree except at exactly 200: below 200 the notice
      asks for the missing amount and shipping is charged; above 200 shipping
      is free and there is no notice; at exactly 200 there is neither a notice
      nor free shipping. */
  lemma HintAgreesWithShipping(subtotal: real)
    ensures FreeShippingHint(subtotal).Some? <==> subtotal < FreeShippingThreshold
    ensures FreeShippingHint(subtotal).Some? ==>
      Shipping(subtotal) == ShippingFee && subtotal + FreeShippingHint(subtotal).value == FreeShippingThreshold
    ensures Shipping(subtotal) == 0.0 <==> subtotal > FreeShippingThreshold
    ensures subtotal == FreeShippingThreshold ==>
      FreeShippingHint(subtotal).None? && Shipping(subtotal) == ShippingFee
  {
  }

  // ---------------------------------------------------------------------
  // Promo codes

  /** The discount rate of a promo code, matched after upper-casing. */
  function PromoRate(code: string): (r: Option<real>)
    ensures r.Some? <==> Upper(code) == "WELCOME10" || Upper(code) == "SAVE20"
    ensures r.Some? ==> 0.0 < r.value <= 0.2
    ensures Upper(code) == "WELCOME10" ==> r == Some(0.1)
    ensures Upper(code) == "SAVE20" ==> r == Some(0.2)
  {
    var c := Upper(code);
    if c == "WELCOME10" then Some(0.1) else if c == "SAVE20" then Some(0.2) else None
  }

  /** A code is accepted however it is capitalised. */
  lemma PromoRateIgnoresCase(code: string)
    ensures PromoRate(Lower(code)) == PromoRate(code)
  {
    UpperOfLower(code);
  }

  // ---------------------------------------------------------------------
  // Line edits

  /** `items.map(item => item.id === id ? { ...item, quantity: Math.min(q, item.stock) } : item)`. */
  function WithQuantity(items: seq<CartLine>, id: string, q: int): (r: seq<CartLine>)
    ensures |r| == |items|
    ensures forall i :: 0 <= i < |items| ==>
      r[i] == if items[i].id == id then items[i].(quantity := Min(q, items[i].stock)) else items[i]
  {
    if items == [] then []
    else
      var head := if items[0].id == id then items[0].(quantity := Min(q, items[0].stock)) else items[0];
      [head] + WithQuantity(items[1..], id, q)
  }

  /** The filter predicate `item => item.id !== id`. */
  function OtherThan(id: string): CartLine -> bool
  {
    (l: CartLine) => l.id != id
  }

  /** `items.filter(item => item.id !== id)`. */
  function WithoutItem(items: seq<CartLine>, id: string): seq<CartLine>
  {
    Filter(items, OtherThan(id))
  }

  /** After an update every edited line holds at most its stock, and at least
      one item when the stock allows it. */
  lemma UpdatedQuantityWithinStock(items: seq<CartLine>, id: string, q: int, i: int)
    requires q >= 1 && 0 <= i < |items| && items[i].id == id
    ensures WithQuantity(items, id, q)[i].quantity <= items[i].stock
    ensures items[i].stock >= 1 ==> WithQuantity(items, id, q)[i].quantity >= 1
  {
  }

  /** Removal keeps exactly the lines with another id, each as often as
      before, in their original order. */
  lemma RemoveKeepsOtherLines(items: seq<CartLine>, id: string)
    ensures forall l :: l in WithoutItem(items, id) <==> l in items && l.id != id
    ensures forall l: CartLine :: l.id != id ==> multiset(WithoutItem(items, id))[l] == multiset(items)[l]
    ensures IsSubseq(WithoutItem(items, id), items)
  {
    var p := OtherThan(id);
    forall l: CartLine | l.id != id ensures multiset(WithoutItem(items, id))[l] == multiset(items)[l] {
      FilterCounts(items, p, l);
    }
    FilterIsSubseq(items, p);
  }

  /** Removing a line whose id is unique leaves the lines around it. */
  lemma {:induction false} RemoveUniqueLine(before: seq<CartLine>, l: CartLine, after: seq<CartLine>)
    requires forall x :: x in before ==> x.id != l.id
    requires forall x :: x in after ==> x.id != l.id
    ensures WithoutItem(before + [l] + after, l.id) == before + after
  {
    var p := OtherThan(l.id);
    assert forall x :: x in before ==> p(x);
    assert forall x :: x in after ==> p(x);
    FilterKeepsAll(before, p);
    FilterKeepsAll(after, p);
    assert !p(l);
    assert Filter([l], p) == [] by {
      assert [l][1..] == [];
    }
    FilterAppend(before, [l], p);
    assert Filter(before + [l], p) == before;
    FilterAppend(before + [l], after, p);
  }

  /** Removing a line takes its amount off the subtotal. */
  lemma RemoveLowersSubtotal(before: seq<CartLine>, l: CartLine, after: seq<CartLine>)
    requires forall x :: x in before ==> x.id != l.id
    requires forall x :: x in after ==> x.id != l.id
    ensures Subtotal(WithoutItem(before + [l] + after, l.id)) == Subtotal(before + [l] + after) - LineAmount(l)
  {
    RemoveUniqueLine(before, l, after);
    SumRealAppend(before + [l], after, LineAmount);
    SumRealAppend(before, [l], LineAmount);
    SumRealAppend(before, after, LineAmount);
    assert SumReal([l], LineAmount) == LineAmount(l) by {
      assert [l][..0] == [];
    }
  }

  // ---------------------------------------------------------------------
  // Page state

  class CartPageState {
    var cartItems: seq<CartLine>
    var promoCode: string
    var discount: real
    var promoError: string

    /** The discount is one of the rates the page can set. */
    ghost predicate Valid()
      reads this
    {
      discount == 0.0 || discount == 0.1 || discount == 0.2
    }

    constructor ()
      ensures Valid()
      ensures cartItems == [] && promoCode == "" && discount == 0.0 && promoError == ""
    {
      cartItems, promoCode, discount, promoError := [], "", 0.0, "";
    }

    /** The cart arrives (the page's simulated fetch). */
    method Load(items: seq<CartLine>)
      modifies this`cartItems
      ensures cartItems == items
    {
      cartItems := items;
    }

    /** The promo code input. */
    method EnterPromoCode(code: string)
      modifies this`promoCode
      ensures promoCode == code
    {
      promoCode := code;
    }

    method UpdateQuantity(itemId: string, newQuantity: int)
      modifies this`cartItems
      ensures newQuantity < 1 ==> cartItems == old(cartItems)
      ensures newQuantity >= 1 ==> cartItems == WithQuantity(old(cartItems), itemId, newQuantity)
    {
      if newQuantity < 1 {
        return;
      }
      cartItems := WithQuantity(cartItems, itemId, newQuantity);
    }

    method RemoveItem(itemId: string)
      modifies this`cartItems
      ensures cartItems == WithoutItem(old(cartItems), itemId)
    {
      cartItems := WithoutItem(cartItems, itemId);
    }

    method ApplyPromoCode()
      requires Valid()
      modifies this`discount, this`promoError
      ensures Valid()
      ensures PromoRate(promoCode).Some? ==> discount == PromoRate(promoCode).value && promoError == ""
      ensures PromoRate(promoCode).None? ==> discount == 0.0 && promoError == InvalidPromoMessage
    {
      var code := Upper(promoCode);
      if code == "WELCOME10" {
        discount := 0.1;
        promoError := "";
      } else if code == "SAVE20" {
        discount := 0.2;
        promoError := "";
      } else {
        promoError := InvalidPromoMessage;
        discount := 0.0;
      }
    }

    /** The total shown in the summary. */
    function CalculateTotal(): (r: real)
      reads this
      requires Valid()
      ensures Subtotal(cartItems) >= 0.0 ==> r >= 0.0
    {
      Total(cartItems, discount)
    }
  }
}
