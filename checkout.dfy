/**
  The checkout page: the price breakdown it shows, the three guards of its
  "Place Order" handler, the order record it inserts, and what the handler
  does to the cart and the loading flag once the backend has answered.
 */
module Checkout {
  import opened Nullable

  /** A line of the cart as the cart store hands it to the page. */
  datatype CartItem = CartItem(id: string, name: string, price: real, salePrice: Option<real>, quantity: int)

  /** The signed-in user, when there is one. */
  datatype User = User(id: string, email: string)

  datatype ShippingForm = ShippingForm(
    email: string,
    fullName: string,
    phone: string,
    addressLine1: string,
    addressLine2: string,
    city: string,
    postalCode: string,
    country: string)

  /** The amount shown for one line: `(sale_price || price) * quantity`, so a zero sale price falls back to the price. */
  function LineAmount(item: CartItem): (r: real)
    ensures item.salePrice.Some? && item.salePrice.value != 0.0 ==>
      r == item.salePrice.value * item.quantity as real
    ensures item.salePrice.None? || item.salePrice.value == 0.0 ==>
      r == item.price * item.quantity as real
  {
    var unit := if item.salePrice.Some? && item.salePrice.value != 0.0 then item.salePrice.value else item.price;
    unit * item.quantity as real
  }

  const FlatShipping: real := 12.0
  const VatRate: real := 0.20

  datatype Totals = Totals(subtotal: real, shipping: real, tax: real, total: real)

  /** The breakdown, from the cart's lines and the cart store's total price. */
  function ComputeTotals(cart: seq<CartItem>, subtotal: real): (t: Totals)
    ensures t.subtotal == subtotal
    ensures t.shipping == 12.0 <==> cart != []
    ensures t.shipping == 0.0 <==> cart == []
    ensures 5.0 * t.tax == subtotal
    ensures t.total == 6.0 * subtotal / 5.0 + t.shipping
  {
    var shipping := if |cart| > 0 then FlatShipping else 0.0;
    var tax := subtotal * VatRate;
    Totals(subtotal, shipping, tax, subtotal + shipping + tax)
  }

  /** A subtotal of 210 gives VAT 42 and a total of 264. */
  lemma TotalsExample(cart: seq<CartItem>)
    requires cart != []
    ensures ComputeTotals(cart, 210.0) == Totals(210.0, 12.0, 42.0, 264.0)
  {
  }

  /** Why an order is refused, in the order the guards are tried. */
  datatype Reason = AuthenticationRequired | CartEmpty | MissingInformation

  const PendingStatus: string := "pending"

  /** The row inserted into the orders table. */
  datatype OrderRecord = OrderRecord(
    userId: string,
    email: string,
    fullName: string,
    phone: Option<string>,
    addressLine1: string,
    addressLine2: Option<string>,
    city: string,
    postalCode: string,
    country: string,
    orderItems: seq<CartItem>,
    subtotal: real,
    shippingCost: real,
    taxAmount: real,
    totalAmount: real,
    status: string)

  datatype Decision = Reject(reason: Reason) | Insert(record: OrderRecord)

  /** The four fields the handler checks; email, phone, address line 2 and country are not checked. */
  predicate RequiredFieldsFilled(f: ShippingForm): (b: bool)
    ensures b <==> "" !in [f.fullName, f.addressLine1, f.city, f.postalCode]
  {
    f.fullName != "" && f.addressLine1 != "" && f.city != "" && f.postalCode != ""
  }

  /** The record the handler inserts. */
  function BuildOrder(user: User, form: ShippingForm, cart: seq<CartItem>, t: Totals): (r: OrderRecord)
    ensures r.status == PendingStatus
    ensures r.userId == user.id && r.orderItems == cart
    ensures r.subtotal == t.subtotal && r.shippingCost == t.shipping
    ensures r.taxAmount == t.tax && r.totalAmount == t.total
    ensures r.email == form.email && r.fullName == form.fullName && r.addressLine1 == form.addressLine1
    ensures r.city == form.city && r.postalCode == form.postalCode && r.country == form.country
    ensures r.phone.None? <==> form.phone == ""
    ensures r.addressLine2.None? <==> form.addressLine2 == ""
    ensures r.phone.Some? ==> r.phone.value == form.phone
    ensures r.addressLine2.Some? ==> r.addressLine2.value == form.addressLine2
  {
    OrderRecord(
      user.id, form.email, form.fullName, NullIfEmpty(form.phone), form.addressLine1,
      NullIfEmpty(form.addressLine2), form.city, form.postalCode, form.country, cart,
      t.subtotal, t.shipping, t.tax, t.total, PendingStatus)
  }

  /** What "Place Order" does with the user, the cart, the form and the cart store's total price. */
  function Decide(user: Option<User>, cart: seq<CartItem>, form: ShippingForm, subtotal: real): (d: Decision)
    ensures d == Reject(AuthenticationRequired) <==> user.None?
    ensures d == Reject(CartEmpty) <==> user.Some? && cart == []
    ensures d == Reject(MissingInformation) <==> user.Some? && cart != [] && !RequiredFieldsFilled(form)
    ensures d.Insert? <==> user.Some? && cart != [] && RequiredFieldsFilled(form)
    ensures d.Insert? ==> d.record == BuildOrder(user.value, form, cart, ComputeTotals(cart, subtotal))
  {
    if user.None? then Reject(AuthenticationRequired)
    else if |cart| == 0 then Reject(CartEmpty)
    else if !RequiredFieldsFilled(form) then Reject(MissingInformation)
    else Insert(BuildOrder(user.value, form, cart, ComputeTotals(cart, subtotal)))
  }

  /**
    Only the four required fields decide whether an order goes through:
    two forms that agree on them get the same verdict, whatever their email,
    phone, second address line and country.
   */
  lemma OnlyRequiredFieldsChecked(user: Option<User>, cart: seq<CartItem>, f: ShippingForm, g: ShippingForm, subtotal: real)
    requires f.fullName == g.fullName && f.addressLine1 == g.addressLine1
    requires f.city == g.city && f.postalCode == g.postalCode
    ensures Decide(user, cart, f, subtotal).Insert? == Decide(user, cart, g, subtotal).Insert?
    ensures Decide(user, cart, f, subtotal).Reject? ==> Decide(user, cart, f, subtotal) == Decide(user, cart, g, subtotal)
  {
  }

  /** An inserted order is priced at 12 shipping plus 20% VAT on the subtotal, and is pending. */
  lemma InsertedOrderPricing(user: Option<User>, cart: seq<CartItem>, form: ShippingForm, subtotal: real)
    requires Decide(user, cart, form, subtotal).Insert?
    ensures var r := Decide(user, cart, form, subtotal).record;
      && r.status == "pending"
      && r.shippingCost == 12.0
      && r.totalAmount == r.subtotal + r.shippingCost + r.taxAmount
      && r.totalAmount == 6.0 * subtotal / 5.0 + 12.0
  {
  }

  /** What the handler does that is visible outside the page state. */
  datatype Effect =
    | Toast(title: string, destructive: bool)
    | LoadingSet(on: bool)
    | InsertRequested(record: OrderRecord)
    | ErrorLogged
    | CartCleared
    | NavigatedTo(path: string)

  function RejectTitle(reason: Reason): string
  {
    match reason
    case AuthenticationRequired => "Authentication required"
    case CartEmpty => "Cart is empty"
    case MissingInformation => "Missing information"
  }

  /** The effects of one click on "Place Order", given the decision and whether the insert succeeded. */
  function PlaceOrderEffects(d: Decision, insertOk: bool): (es: seq<Effect>)
    ensures d.Reject? ==> |es| == 1 && es[0].Toast? && es[0].destructive
    ensures d.Insert? ==> |es| >= 5 && es[1] == InsertRequested(d.record)
    ensures d.Insert? ==> (Toast("Order placed successfully!", false) in es <==> insertOk)
    ensures d.Insert? ==> (Toast("Order failed", true) in es <==> !insertOk)
  {
    match d
    case Reject(reason) => [Toast(RejectTitle(reason), true)]
    case Insert(record) =>
      [LoadingSet(true), InsertRequested(record)]
      + (if insertOk then [Toast("Order placed successfully!", false), CartCleared, NavigatedTo("/")]
         else [ErrorLogged, Toast("Order failed", true)])
      + [LoadingSet(false)]
  }

  /** A rejected order shows one destructive toast and does nothing else: no loading, no insert, no clearing. */
  lemma RejectionHasNoOtherEffect(d: Decision, insertOk: bool)
    requires d.Reject?
    ensures PlaceOrderEffects(d, insertOk) == [Toast(RejectTitle(d.reason), true)]
    ensures forall r :: InsertRequested(r) !in PlaceOrderEffects(d, insertOk)
    ensures LoadingSet(true) !in PlaceOrderEffects(d, insertOk)
  {
  }

  /**
    Loading is switched on exactly when all guards pass, and then it is the
    first effect and switching it off again is the last, whatever the
    backend answered.
   */
  lemma LoadingOnlyAfterGuards(d: Decision, insertOk: bool)
    ensures LoadingSet(true) in PlaceOrderEffects(d, insertOk) <==> d.Insert?
    ensures d.Insert? ==> PlaceOrderEffects(d, insertOk)[0] == LoadingSet(true)
    ensures d.Insert? ==>
      var es := PlaceOrderEffects(d, insertOk);
      es[|es| - 1] == LoadingSet(false)
  {
    var es := PlaceOrderEffects(d, insertOk);
    if d.Insert? {
      assert es[0] == LoadingSet(true);
    }
  }

  /** The cart is cleared exactly when an insert was sent and succeeded. */
  lemma CartClearedOnlyOnSuccess(d: Decision, insertOk: bool)
    ensures CartCleared in PlaceOrderEffects(d, insertOk) <==> d.Insert? && insertOk
  {
    var es := PlaceOrderEffects(d, insertOk);
    if d.Insert? && insertOk {
      assert es[3] == CartCleared;
    }
  }

  /** The page, with the cart store's lines it reads and clears. */
  class CheckoutPage {
    var cartItems: seq<CartItem>
    var formData: ShippingForm
    var isLoading: bool
    var effects: seq<Effect>

    constructor (user: Option<User>, cart: seq<CartItem>)
      ensures cartItems == cart && !isLoading && effects == []
      ensures formData == ShippingForm(if user.Some? then user.value.email else "", "", "", "", "", "", "", "UK")
    {
      cartItems := cart;
      formData := ShippingForm(if user.Some? then user.value.email else "", "", "", "", "", "", "", "UK");
      isLoading := false;
      effects := [];
    }

    /** Editing one input replaces the form. */
    method ChangeForm(f: ShippingForm)
      modifies this
      ensures formData == f
      ensures cartItems == old(cartItems) && isLoading == old(isLoading) && effects == old(effects)
    {
      formData := f;
    }

    /**
      The "Place Order" handler, run to completion with the cart store's
      total price and the backend's answer to the insert.
     */
    method PlaceOrder(user: Option<User>, subtotal: real, insertOk: bool)
      modifies this
      ensures formData == old(formData)
      ensures effects == old(effects) + PlaceOrderEffects(Decide(user, old(cartItems), old(formData), subtotal), insertOk)
      ensures cartItems ==
        if Decide(user, old(cartItems), old(formData), subtotal).Insert? && insertOk then [] else old(cartItems)
      ensures isLoading ==
        if Decide(user, old(cartItems), old(formData), subtotal).Insert? then false else old(isLoading)
    {
      if user.None? {
        effects := effects + [Toast("Authentication required", true)];
        return;
      }
      if |cartItems| == 0 {
        effects := effects + [Toast("Cart is empty", true)];
        return;
      }
      if formData.fullName == "" || formData.addressLine1 == "" || formData.city == "" || formData.postalCode == "" {
        effects := effects + [Toast("Missing information", true)];
        return;
      }
      isLoading := true;
      effects := effects + [LoadingSet(true)];
      var totals := ComputeTotals(cartItems, subtotal);
      var record := BuildOrder(user.value, formData, cartItems, totals);
      effects := effects + [InsertRequested(record)];
      if insertOk {
        effects := effects + [Toast("Order placed successfully!", false)];
        cartItems := [];
        effects := effects + [CartCleared, NavigatedTo("/")];
      } else {
        effects := effects + [ErrorLogged, Toast("Order failed", true)];
      }
      isLoading := false;
      effects := effects + [LoadingSet(false)];
    }
  }
}
