/** The checkout page: the order summary over its fixed cart (subtotal, free
    shipping over SAR 200, 15% VAT, no discount) and the two-step flow from
    the shipping form to the payment form and the order confirmation. The
    component state is modelled as the fields of a CheckoutPageState object;
    the two-second processing delay is split into the submit handler and a
    separate completion step that receives the random order suffix. */
module CheckoutPage {
  import opened Common

  datatype CheckoutLine = CheckoutLine(id: string, name: string, price: real, salePrice: Option<real>,
                                       size: string, color: string, quantity: int)

  /** The page's built-in cart. */
  const MockCart: seq<CheckoutLine> := [
    CheckoutLine("1", "Premium Thobe", 299.0, Some(249.0), "L", "Black", 1),
    CheckoutLine("2", "Elegant Abaya", 399.0, None, "M", "Black", 2)
  ]

  const FreeShippingThreshold: real := 200.0
  const ShippingFee: real := 25.0
  const VatRate: real := 0.15

  function LineAmount(l: CheckoutLine): real
  {
    RealOr(l.salePrice, l.price) * l.quantity as real
  }

  // ---------------------------------------------------------------------
  // Order summary

  function Subtotal(items: seq<CheckoutLine>): real
  {
    SumReal(items, LineAmount)
  }

  function Shipping(subtotal: real): real
  {
    if subtotal > FreeShippingThreshold then 0.0 else ShippingFee
  }

  function Tax(subtotal: real): real
  {
    subtotal * VatRate
  }

  /** The total adds shipping and 15% VAT to the subtotal and takes nothing
      off: it is at least 115% of the subtotal and at most that plus the fee. */
  function Total(items: seq<CheckoutLine>): (r: real)
    ensures r == Subtotal(items) * 1.15 || r == Subtotal(items) * 1.15 + ShippingFee
    ensures r == Subtotal(items) * 1.15 <==> Subtotal(items) > FreeShippingThreshold
    ensures Subtotal(items) >= 0.0 ==> r >= Subtotal(items)
  {
    var s := Subtotal(items);
    s + Shipping(s) + Tax(s)
  }

  /** The amounts the summary shows next to each line. */
  function ShownAmounts(items: seq<CheckoutLine>): (r: seq<real>)
    ensures |r| == |items| && forall i :: 0 <= i < |items| ==> r[i] == LineAmount(items[i])
  {
    if items == [] then [] else [LineAmount(items[0])] + ShownAmounts(items[1..])
  }

  function Identity(x: real): real { x }

  /** The per-line amounts on display add up to the subtotal shown below them. */
  lemma {:induction false} ShownAmountsAddUp(items: seq<CheckoutLine>)
    ensures SumReal(ShownAmounts(items), Identity) == Subtotal(items)
  {
    if items != [] {
      var init := items[..|items| - 1];
      ShownAmountsAddUp(init);
      assert ShownAmounts(items)[..|items| - 1] == ShownAmounts(init);
    }
  }

  /** The built-in cart: 249 + 2 x 399 = 1047, so shipping is free and the
      total is 1047 plus 15% VAT. */
  lemma MockCartTotal()
    ensures Subtotal(MockCart) == 1047.0 && Shipping(Subtotal(MockCart)) == 0.0
    ensures Total(MockCart) == 1204.05
  {
    assert MockCart[..1][..0] == [];
    assert MockCart[..|MockCart| - 1] == MockCart[..1];
    assert LineAmount(MockCart[0]) == 249.0;
    assert Subtotal(MockCart[..1]) == Subtotal([]) + LineAmount(MockCart[0]);
    assert LineAmount(MockCart[1]) == 798.0;
  }

  // ---------------------------------------------------------------------
  // Order number

  /** A character of `Math.random().toString(36)` after the "0.". */
  predicate Base36Char(c: char) { '0' <= c <= '9' || 'a' <= c <= 'z' }

  /** A character of the upper-cased suffix. */
  predicate OrderNumberChar(c: char) { '0' <= c <= '9' || 'A' <= c <= 'Z' }

  const OrderPrefix: string := "KSA-"

  /** "KSA-" followed by at most nine digits or capital letters. */
  predicate IsOrderNumber(s: string)
  {
    && |OrderPrefix| <= |s| <= |OrderPrefix| + 9
    && s[..|OrderPrefix|] == OrderPrefix
    && forall i :: |OrderPrefix| <= i < |s| ==> OrderNumberChar(s[i])
  }

  lemma Base36Upper(c: char)
    requires Base36Char(c)
    ensures OrderNumberChar(UpperChar(c)) && LowerChar(UpperChar(c)) == c
  {
  }

  /** The order number made from a random base-36 suffix of up to nine characters. */
  function OrderNumber(suffix: string): (r: string)
    requires |suffix| <= 9 && forall i :: 0 <= i < |suffix| ==> Base36Char(suffix[i])
    ensures IsOrderNumber(r)
    ensures |r| == |OrderPrefix| + |suffix|
    ensures Lower(r[|OrderPrefix|..]) == suffix
  {
    var u := Upper(suffix);
    forall i | 0 <= i < |u| ensures OrderNumberChar(u[i]) && LowerChar(u[i]) == suffix[i] {
      Base36Upper(suffix[i]);
    }
    assert Lower(u) == suffix;
    var r := OrderPrefix + u;
    assert r[|OrderPrefix|..] == u;
    r
  }

  // ---------------------------------------------------------------------
  // Page state

  datatype ShippingInfo = ShippingInfo(firstName: string, lastName: string, email: string, phone: string,
                                       address: string, city: string, state: string, country: string,
                                       zipCode: string, saveAddress: bool)

  const InitialShippingInfo: ShippingInfo :=
    ShippingInfo("", "", "", "", "", "", "", "Saudi Arabia", "", false)

  /** The fields marked `required` in the shipping form; the country select and
      the save-address box are not. */
  predicate RequiredFilled(info: ShippingInfo)
  {
    && info.firstName != "" && info.lastName != "" && info.email != "" && info.phone != ""
    && info.address != "" && info.city != "" && info.state != "" && info.zipCode != ""
  }

  // ---------------------------------------------------------------------
  // The browser's check of the `type="email"` input (a valid e-mail address
  // as defined in section 4.10.5.1.5 of the HTML Living Standard)

  predicate IsAsciiAlnum(c: char) { 'a' <= c <= 'z' || 'A' <= c <= 'Z' || IsDigit(c) }

  /** A character allowed before the "@". */
  predicate LocalPartChar(c: char) { IsAsciiAlnum(c) || c in "!#$%&'*+/=?^_`{|}~.-" }

  /** A domain label: 1 to 63 letters, digits and hyphens, beginning and
      ending with a letter or digit. */
  predicate IsLabel(s: string)
  {
    && 1 <= |s| <= 63
    && (forall i :: 0 <= i < |s| ==> IsAsciiAlnum(s[i]) || s[i] == '-')
    && IsAsciiAlnum(s[0]) && IsAsciiAlnum(s[|s| - 1])
  }

  /** Labels separated by single dots. */
  predicate IsDomain(s: string)
    decreases |s|
  {
    match IndexOf(s, '.')
    case None => IsLabel(s)
    case Some(k) => IsLabel(s[..k]) && IsDomain(s[k + 1..])
  }

  predicate IsLocalPart(s: string)
  {
    |s| > 0 && forall i :: 0 <= i < |s| ==> LocalPartChar(s[i])
  }

  /** What the browser accepts in the e-mail field: a local part, "@", a domain. */
  predicate IsEmail(s: string)
  {
    match IndexOf(s, '@')
    case None => false
    case Some(k) => IsLocalPart(s[..k]) && IsDomain(s[k + 1..])
  }

  /** A domain holds no "@". */
  lemma {:induction false} DomainHasNoAt(s: string)
    requires IsDomain(s)
    ensures forall i :: 0 <= i < |s| ==> s[i] != '@'
    decreases |s|
  {
    match IndexOf(s, '.')
    case None =>
    case Some(k) =>
      DomainHasNoAt(s[k + 1..]);
      forall i | 0 <= i < |s| ensures s[i] != '@' {
        if i > k {
          assert s[i] == s[k + 1..][i - k - 1];
        } else if i < k {
          assert s[i] == s[..k][i];
        }
      }
  }

  /** An accepted address has a non-empty local part and domain around its
      one and only "@". */
  lemma EmailShape(s: string)
    requires IsEmail(s)
    ensures exists k :: 0 < k < |s| - 1 && s[k] == '@' && IsLocalPart(s[..k]) && IsDomain(s[k + 1..])
    ensures forall i, j :: 0 <= i < |s| && 0 <= j < |s| && s[i] == '@' && s[j] == '@' ==> i == j
  {
    var k := IndexOf(s, '@').value;
    DomainHasNoAt(s[k + 1..]);
    assert |s[k + 1..]| >= 1 by {
      if IndexOf(s[k + 1..], '.').None? {
        assert IsLabel(s[k + 1..]);
      } else {
        assert IsLabel(s[k + 1..][..IndexOf(s[k + 1..], '.').value]);
      }
    }
    forall i | k < i < |s| ensures s[i] != '@' {
      assert s[i] == s[k + 1..][i - k - 1];
    }
  }

  /** Conversely, a local part, "@" and a domain make an accepted address. */
  lemma EmailFromParts(local: string, domain: string)
    requires IsLocalPart(local) && IsDomain(domain)
    ensures IsEmail(local + "@" + domain)
  {
    var s := local + "@" + domain;
    assert forall j :: 0 <= j < |local| ==> s[j] == local[j] && s[j] != '@';
    assert s[|local|] == '@';
    assert IndexOf(s, '@') == Some(|local|);
    assert s[..|local|] == local;
    assert s[|local| + 1..] == domain;
  }

  /** A filled-in but malformed address such as "abc" is refused. */
  lemma MalformedEmailRefused()
    ensures !IsEmail("abc")
  {
    assert IndexOf("abc", '@').None?;
  }

  /** "b.co" is two labels joined by a dot. */
  lemma SampleDomain()
    ensures IsDomain("b.co")
  {
    assert IndexOf("co", '.').None? && IsLabel("co");
    assert IndexOf("b.co", '.') == Some(1) && "b.co"[..1] == "b" && "b.co"[2..] == "co";
  }

  /** A well-formed address such as "a@b.co" is accepted. */
  lemma WellFormedEmailAccepted()
    ensures IsEmail("a@b.co")
  {
    SampleDomain();
    assert IndexOf("a@b.co", '@') == Some(1) && "a@b.co"[..1] == "a" && "a@b.co"[2..] == "b.co";
  }

  const BankTransfer: string := "bank_transfer"
  const CashOnDelivery: string := "cash_on_delivery"

  class CheckoutPageState {
    var step: int
    var isProcessing: bool
    var orderComplete: bool
    var orderNumber: string
    var paymentMethod: string
    var shippingInfo: ShippingInfo

    /** The page is on step 1 or 2 (no handler reaches the third indicator),
        pays by bank transfer, is never processing once complete, and holds
        a well-formed order number once complete. */
    ghost predicate Valid()
      reads this
    {
      && (step == 1 || step == 2)
      && paymentMethod == BankTransfer
      && (orderComplete ==> !isProcessing && IsOrderNumber(orderNumber))
    }

    constructor ()
      ensures Valid()
      ensures step == 1 && !isProcessing && !orderComplete && orderNumber == ""
      ensures paymentMethod == BankTransfer && shippingInfo == InitialShippingInfo
    {
      step, isProcessing, orderComplete, orderNumber := 1, false, false, "";
      paymentMethod, shippingInfo := BankTransfer, InitialShippingInfo;
    }

    /** Typing into the shipping form. */
    method EditShipping(info: ShippingInfo)
      modifies this`shippingInfo
      ensures shippingInfo == info
    {
      shippingInfo := info;
    }

    /** Submitting the shipping form: the browser blocks the submit while a
        required field is empty or the e-mail field holds no valid address;
        otherwise the page moves to step 2. */
    method ShippingSubmit()
      requires Valid() && step == 1 && !orderComplete
      modifies this`step
      ensures Valid()
      ensures step == if RequiredFilled(shippingInfo) && IsEmail(shippingInfo.email) then 2 else 1
    {
      if RequiredFilled(shippingInfo) && IsEmail(shippingInfo.email) {
        step := 2;
      }
    }

    /** The "Back to Shipping" button of the payment form. */
    method BackToShipping()
      requires Valid() && step == 2 && !orderComplete
      modifies this`step
      ensures Valid() && step == 1
    {
      step := 1;
    }

    /** A choice in the payment radio group; the cash-on-delivery option is
        disabled and cannot be chosen. */
    method SelectPaymentMethod(choice: string)
      requires Valid() && (choice == BankTransfer || choice == CashOnDelivery)
      modifies this`paymentMethod
      ensures Valid() && paymentMethod == BankTransfer
    {
      if choice == BankTransfer {
        paymentMethod := choice;
      }
    }

    /** Clicking "Place Order": the button is disabled while processing, so a
        click then does nothing; otherwise processing starts. */
    method PaymentSubmit()
      requires Valid() && step == 2 && !orderComplete
      modifies this`isProcessing
      ensures Valid() && isProcessing
    {
      if !isProcessing {
        isProcessing := true;
      }
    }

    /** The delayed completion of a submitted order, with the random suffix. */
    method CompleteProcessing(suffix: string)
      requires Valid() && isProcessing
      requires |suffix| <= 9 && forall i :: 0 <= i < |suffix| ==> Base36Char(suffix[i])
      modifies this`orderNumber, this`orderComplete, this`isProcessing
      ensures Valid()
      ensures orderNumber == OrderNumber(suffix) && orderComplete && !isProcessing
    {
      orderNumber := OrderNumber(suffix);
      orderComplete := true;
      isProcessing := false;
    }

    /** The total shown in the summary: the built-in cart's 1047 passes the
        free-shipping threshold, so the page shows 115% of it, SAR 1204.05. */
    function CalculateTotal(): (r: real)
      ensures r == 1204.05
      ensures r == Subtotal(MockCart) * 1.15 && r >= Subtotal(MockCart)
    {
      MockCartTotal();
      Total(MockCart)
    }
  }
}
