/**
 * The checkout page: a four-step machine (shipping → payment → review →
 * confirmation) over a shipping draft and a payment draft, with pricing derived
 * from the cart on every read and an order placement that clears the cart.
 */
module Checkout {
  import opened Wrappers
  import opened Seqs
  import opened Text
  import Auth
  import Cart

  datatype Step = ShippingStep | PaymentStep | ReviewStep | ConfirmationStep

  datatype ShippingMethod = Standard | Express

  datatype PayMethod = CreditCard | PayPal

  datatype ShippingInfo = ShippingInfo(
    email: string, firstName: string, lastName: string, address: string, city: string,
    state: string, postalCode: string, country: string, phone: string)

  datatype PaymentInfo = PaymentInfo(
    cardName: string, cardNumber: string, expiryDate: string, cvv: string, savePaymentInfo: bool)

  /** The inputs of the shipping form, by their `name` attribute. */
  datatype ShippingField = Email | FirstName | LastName | Street | City | State | PostalCode | Country | Phone

  /** The text inputs of the card form, by their `name` attribute. */
  datatype PaymentField = CardName | CardNumber | ExpiryDate | Cvv

  const EmptyShipping := ShippingInfo("", "", "", "", "", "", "", "", "")
  const EmptyPayment := PaymentInfo("", "", "", "", false)

  /** `handleShippingInfoChange`: `{ ...prev, [name]: value }`. */
  function WithShippingField(info: ShippingInfo, field: ShippingField, value: string): ShippingInfo
  {
    match field
    case Email => info.(email := value)
    case FirstName => info.(firstName := value)
    case LastName => info.(lastName := value)
    case Street => info.(address := value)
    case City => info.(city := value)
    case State => info.(state := value)
    case PostalCode => info.(postalCode := value)
    case Country => info.(country := value)
    case Phone => info.(phone := value)
  }

  /** `info[name]`. */
  function FieldValue(info: ShippingInfo, field: ShippingField): string
  {
    match field
    case Email => info.email
    case FirstName => info.firstName
    case LastName => info.lastName
    case Street => info.address
    case City => info.city
    case State => info.state
    case PostalCode => info.postalCode
    case Country => info.country
    case Phone => info.phone
  }

  /** A change to one input sets that field and leaves every other field as it was. */
  lemma ChangeOneField(info: ShippingInfo, field: ShippingField, value: string, other: ShippingField)
    ensures FieldValue(WithShippingField(info, field, value), other) == if other == field then value else FieldValue(info, other)
  {
  }

  /** `handlePaymentInfoChange`: `{ ...prev, [name]: value }`. */
  function WithPaymentField(info: PaymentInfo, field: PaymentField, value: string): PaymentInfo
  {
    match field
    case CardName => info.(cardName := value)
    case CardNumber => info.(cardNumber := value)
    case ExpiryDate => info.(expiryDate := value)
    case Cvv => info.(cvv := value)
  }

  /** The fields the shipping step insists on; email and phone are optional. */
  predicate Required(field: ShippingField)
  {
    field != Email && field != Phone
  }

  predicate ShippingComplete(info: ShippingInfo)
  {
    && info.firstName != "" && info.lastName != "" && info.address != "" && info.city != ""
    && info.state != "" && info.postalCode != "" && info.country != ""
  }

  predicate PaymentComplete(choice: PayMethod, info: PaymentInfo)
  {
    choice == PayPal || (info.cardName != "" && info.cardNumber != "" && info.expiryDate != "" && info.cvv != "")
  }

  /** `canProceed`: the guard that enables the Continue / Place Order button. */
  function CanProceed(step: Step, shipping: ShippingInfo, choice: PayMethod, payment: PaymentInfo): (r: bool)
    ensures step == ShippingStep ==> (r <==> forall f :: Required(f) ==> FieldValue(shipping, f) != "")
    ensures step == PaymentStep && choice == PayPal ==> r
    ensures step == PaymentStep && choice == CreditCard ==>
      (r <==> payment.cardName != "" && payment.cardNumber != "" && payment.expiryDate != "" && payment.cvv != "")
    ensures step == ReviewStep || step == ConfirmationStep ==> r
  {
    match step
    case ShippingStep =>
      assert FieldValue(shipping, FirstName) == shipping.firstName && FieldValue(shipping, LastName) == shipping.lastName;
      assert FieldValue(shipping, Street) == shipping.address && FieldValue(shipping, City) == shipping.city;
      assert FieldValue(shipping, State) == shipping.state && FieldValue(shipping, PostalCode) == shipping.postalCode;
      assert FieldValue(shipping, Country) == shipping.country;
      ShippingComplete(shipping)
    case PaymentStep => PaymentComplete(choice, payment)
    case _ => true
  }

  /** Clearing any required shipping field blocks the step; editing email or phone never changes the verdict. */
  lemma ShippingGuardFields(shipping: ShippingInfo, choice: PayMethod, payment: PaymentInfo, field: ShippingField, value: string)
    ensures Required(field) ==> !CanProceed(ShippingStep, WithShippingField(shipping, field, ""), choice, payment)
    ensures !Required(field) ==>
      CanProceed(ShippingStep, WithShippingField(shipping, field, value), choice, payment) == CanProceed(ShippingStep, shipping, choice, payment)
  {
  }

  /**
   * Paying by card, clearing any of the four card inputs blocks the payment
   * step; paying with PayPal, the card inputs never matter.
   */
  lemma PaymentGuardFields(shipping: ShippingInfo, payment: PaymentInfo, field: PaymentField, value: string)
    ensures !CanProceed(PaymentStep, shipping, CreditCard, WithPaymentField(payment, field, ""))
    ensures CanProceed(PaymentStep, shipping, PayPal, WithPaymentField(payment, field, value))
  {
  }

  /** Every required shipping field set to `value`. */
  function FillRequired(info: ShippingInfo, value: string): ShippingInfo
  {
    info.(firstName := value, lastName := value, address := value, city := value,
          state := value, postalCode := value, country := value)
  }

  /** Filling every required field with a non-empty value opens the shipping step, whatever came before. */
  lemma FillingAllRequiredProceeds(shipping: ShippingInfo, choice: PayMethod, payment: PaymentInfo, value: string)
    requires value != ""
    ensures CanProceed(ShippingStep, FillRequired(shipping, value), choice, payment)
  {
  }

  // ---------------------------------------------------------------------------
  // Pricing, in cents; tax is the one non-integral amount.

  function Subtotal(items: seq<Cart.CartItem>): int
  {
    Cart.Sum(items)
  }

  function ShippingCost(choice: ShippingMethod): (r: int)
    ensures r == 500 || r == 1500
    ensures r == 1500 <==> choice == Express
  {
    if choice == Express then 1500 else 500
  }

  /** 10% of the subtotal, or 0 for an empty cart. */
  function TaxAmount(items: seq<Cart.CartItem>): real
  {
    if |items| > 0 then Subtotal(items) as real * 0.1 else 0.0
  }

  /** Subtotal + shipping + tax; an empty cart costs the shipping alone. */
  function OrderTotal(items: seq<Cart.CartItem>, choice: ShippingMethod): (r: real)
    ensures |items| > 0 ==> r == Subtotal(items) as real * 1.1 + ShippingCost(choice) as real
    ensures |items| == 0 ==> r == ShippingCost(choice) as real
  {
    if |items| > 0 then Subtotal(items) as real + ShippingCost(choice) as real + TaxAmount(items)
    else ShippingCost(choice) as real
  }

  // ---------------------------------------------------------------------------
  // The order number: "ORD-" and the floor of 100000 + random × 900000.

  /** `Math.floor(100000 + r * 900000)` for `r = Math.random()` in [0, 1). */
  function OrderDigits(r: real): (n: nat)
    requires 0.0 <= r < 1.0
    ensures 100000 <= n <= 999999
  {
    (100000.0 + r * 900000.0).Floor
  }

  /** `ORD-\d{6}`. */
  predicate IsOrderNumber(s: string)
  {
    |s| == 10 && s[..4] == "ORD-" && AllDigits(s[4..])
  }

  function OrderNumber(r: real): (s: string)
    requires 0.0 <= r < 1.0
    ensures IsOrderNumber(s)
    ensures DigitsValue(s[4..]) == OrderDigits(r)
  {
    var n := OrderDigits(r);
    assert Pow10(5) == 100000 && Pow10(6) == 1000000;
    NatToStringLength(n, 6);
    NatToStringRoundTrip(n);
    var s := "ORD-" + NatToString(n);
    assert s[4..] == NatToString(n);
    s
  }

  /** Copies a saved address into the shipping draft's address fields; names, email and phone stay. */
  function FillAddress(info: ShippingInfo, a: Auth.Address): ShippingInfo
  {
    info.(address := a.street, city := a.city, state := a.state, postalCode := a.postalCode, country := a.country)
  }

  class CheckoutPage {
    const cart: Cart.CartStore
    var step: Step
    var orderNumber: string
    var selectedAddress: Option<string>
    var shippingMethod: ShippingMethod
    var paymentMethod: PayMethod
    var shipping: ShippingInfo
    var payment: PaymentInfo

    constructor (cart: Cart.CartStore)
      ensures this.cart == cart
      ensures step == ShippingStep && orderNumber == "" && selectedAddress == None
      ensures shippingMethod == Standard && paymentMethod == CreditCard
      ensures shipping == EmptyShipping && payment == EmptyPayment
    {
      this.cart := cart;
      step := ShippingStep;
      orderNumber := "";
      selectedAddress := None;
      shippingMethod := Standard;
      paymentMethod := CreditCard;
      shipping := EmptyShipping;
      payment := EmptyPayment;
    }

    predicate CanProceedNow()
      reads this
    {
      CanProceed(step, shipping, paymentMethod, payment)
    }

    /** The empty-cart guard: it sends the user back to the cart page. */
    predicate EmptyCartRedirect()
      reads this, cart
    {
      |cart.items| == 0 && step != ConfirmationStep
    }

    /** What the summary (and, after placement, the confirmation screen) shows as the total. */
    function DisplayedTotal(): real
      reads this, cart
    {
      OrderTotal(cart.items, shippingMethod)
    }

    method ChooseShippingMethod(choice: ShippingMethod)
      modifies this
      ensures shippingMethod == choice
      ensures step == old(step) && shipping == old(shipping) && payment == old(payment)
      ensures paymentMethod == old(paymentMethod) && selectedAddress == old(selectedAddress) && orderNumber == old(orderNumber)
    {
      shippingMethod := choice;
    }

    method ChoosePaymentMethod(choice: PayMethod)
      modifies this
      ensures paymentMethod == choice
      ensures step == old(step) && shipping == old(shipping) && payment == old(payment)
      ensures shippingMethod == old(shippingMethod) && selectedAddress == old(selectedAddress) && orderNumber == old(orderNumber)
    {
      paymentMethod := choice;
    }

    method HandleShippingChange(field: ShippingField, value: string)
      modifies this
      ensures shipping == WithShippingField(old(shipping), field, value)
      ensures step == old(step) && payment == old(payment) && selectedAddress == old(selectedAddress)
      ensures shippingMethod == old(shippingMethod) && paymentMethod == old(paymentMethod) && orderNumber == old(orderNumber)
    {
      shipping := WithShippingField(shipping, field, value);
    }

    method HandlePaymentChange(field: PaymentField, value: string)
      modifies this
      ensures payment == WithPaymentField(old(payment), field, value)
      ensures step == old(step) && shipping == old(shipping) && selectedAddress == old(selectedAddress)
      ensures shippingMethod == old(shippingMethod) && paymentMethod == old(paymentMethod) && orderNumber == old(orderNumber)
    {
      payment := WithPaymentField(payment, field, value);
    }

    /** The "save payment information" checkbox. */
    method SetSavePaymentInfo(checked: bool)
      modifies this
      ensures payment == old(payment).(savePaymentInfo := checked)
      ensures step == old(step) && shipping == old(shipping) && selectedAddress == old(selectedAddress)
      ensures shippingMethod == old(shippingMethod) && paymentMethod == old(paymentMethod) && orderNumber == old(orderNumber)
    {
      payment := payment.(savePaymentInfo := checked);
    }

    /**
     * `handlePlaceOrder` (its delay taken as immediate): a fresh `ORD-` number,
     * the confirmation step, and an empty cart. The displayed total is then
     * the shipping cost alone, and the empty-cart guard stays quiet.
     */
    method PlaceOrder(r: real)
      requires 0.0 <= r < 1.0
      modifies this, cart
      ensures orderNumber == OrderNumber(r) && IsOrderNumber(orderNumber)
      ensures step == ConfirmationStep
      ensures cart.items == [] && cart.total == 0
      ensures DisplayedTotal() == ShippingCost(shippingMethod) as real
      ensures !EmptyCartRedirect()
      ensures shipping == old(shipping) && payment == old(payment) && selectedAddress == old(selectedAddress)
      ensures shippingMethod == old(shippingMethod) && paymentMethod == old(paymentMethod)
    {
      orderNumber := OrderNumber(r);
      step := ConfirmationStep;
      cart.ClearCart();
    }

    /** `nextStep`: shipping → payment → review → (place the order); nothing from confirmation. */
    method NextStep(r: real)
      requires 0.0 <= r < 1.0
      modifies this, cart
      ensures old(step) == ShippingStep ==> step == PaymentStep && unchanged(cart)
      ensures old(step) == PaymentStep ==> step == ReviewStep && unchanged(cart)
      ensures old(step) == ReviewStep ==>
        step == ConfirmationStep && orderNumber == OrderNumber(r) && cart.items == [] && cart.total == 0
      ensures old(step) == ConfirmationStep ==> step == ConfirmationStep && unchanged(this) && unchanged(cart)
      ensures old(step) != ReviewStep ==> orderNumber == old(orderNumber)
      ensures shipping == old(shipping) && payment == old(payment) && selectedAddress == old(selectedAddress)
      ensures shippingMethod == old(shippingMethod) && paymentMethod == old(paymentMethod)
    {
      if step == ShippingStep {
        step := PaymentStep;
      } else if step == PaymentStep {
        step := ReviewStep;
      } else if step == ReviewStep {
        PlaceOrder(r);
      }
    }

    /** `prevStep`: payment → shipping and review → payment; a no-op on shipping and confirmation. */
    method PrevStep()
      modifies this
      ensures step == match old(step)
        case PaymentStep => ShippingStep
        case ReviewStep => PaymentStep
        case s => s
      ensures shipping == old(shipping) && payment == old(payment) && selectedAddress == old(selectedAddress)
      ensures shippingMethod == old(shippingMethod) && paymentMethod == old(paymentMethod) && orderNumber == old(orderNumber)
    {
      if step == PaymentStep {
        step := ShippingStep;
      } else if step == ReviewStep {
        step := PaymentStep;
      }
    }

    /** The Continue / Place Order button: disabled unless `canProceed`. */
    method PressContinue(r: real)
      requires 0.0 <= r < 1.0
      modifies this, cart
      ensures !old(CanProceedNow()) ==> unchanged(this) && unchanged(cart)
      ensures old(CanProceedNow()) && old(step) == ShippingStep ==> step == PaymentStep && unchanged(cart)
      ensures old(CanProceedNow()) && old(step) == PaymentStep ==> step == ReviewStep && unchanged(cart)
      ensures old(step) == ReviewStep ==>
        step == ConfirmationStep && orderNumber == OrderNumber(r) && cart.items == [] && cart.total == 0
      ensures old(step) == ConfirmationStep ==> step == ConfirmationStep && unchanged(this) && unchanged(cart)
      ensures old(step) != ReviewStep ==> orderNumber == old(orderNumber)
      ensures shipping == old(shipping) && payment == old(payment) && selectedAddress == old(selectedAddress)
      ensures shippingMethod == old(shippingMethod) && paymentMethod == old(paymentMethod)
    {
      if CanProceedNow() {
        NextStep(r);
      }
    }

    /** The two Edit links on the review step jump straight back. */
    method EditShipping()
      requires step == ReviewStep
      modifies this
      ensures step == ShippingStep
      ensures shipping == old(shipping) && payment == old(payment) && selectedAddress == old(selectedAddress)
      ensures shippingMethod == old(shippingMethod) && paymentMethod == old(paymentMethod) && orderNumber == old(orderNumber)
    {
      step := ShippingStep;
    }

    method EditPayment()
      requires step == ReviewStep
      modifies this
      ensures step == PaymentStep
      ensures shipping == old(shipping) && payment == old(payment) && selectedAddress == old(selectedAddress)
      ensures shippingMethod == old(shippingMethod) && paymentMethod == old(paymentMethod) && orderNumber == old(orderNumber)
    {
      step := PaymentStep;
    }

    /**
     * `handleAddressSelect`: always records the id; a matching saved address
     * overwrites only the five address fields of the draft.
     */
    method AddressSelect(addressId: string, addresses: seq<Auth.Address>)
      modifies this
      ensures selectedAddress == Some(addressId)
      ensures match FindFirst(addresses, (a: Auth.Address) => a.id == addressId)
        case Some(k) => shipping == FillAddress(old(shipping), addresses[k])
        case None => shipping == old(shipping)
      ensures shipping.firstName == old(shipping).firstName && shipping.lastName == old(shipping).lastName
      ensures shipping.email == old(shipping).email && shipping.phone == old(shipping).phone
      ensures step == old(step) && payment == old(payment) && orderNumber == old(orderNumber)
      ensures shippingMethod == old(shippingMethod) && paymentMethod == old(paymentMethod)
    {
      selectedAddress := Some(addressId);
      var found := FindFirst(addresses, (a: Auth.Address) => a.id == addressId);
      if found.Some? {
        shipping := FillAddress(shipping, addresses[found.value]);
      }
    }

    /**
     * The mount-time prefill: for a signed-in user with a default address,
     * select the first default, copy its address fields and blank both names.
     */
    method PrefillDefaultAddress(isAuthenticated: bool, addresses: seq<Auth.Address>)
      modifies this
      ensures var found := FindFirst(addresses, (a: Auth.Address) => a.isDefault);
        if isAuthenticated && found.Some? then
          && selectedAddress == Some(addresses[found.value].id)
          && shipping == FillAddress(old(shipping), addresses[found.value]).(firstName := "", lastName := "")
        else
          selectedAddress == old(selectedAddress) && shipping == old(shipping)
      ensures step == old(step) && payment == old(payment) && orderNumber == old(orderNumber)
      ensures shippingMethod == old(shippingMethod) && paymentMethod == old(paymentMethod)
    {
      if isAuthenticated && |addresses| > 0 {
        var found := FindFirst(addresses, (a: Auth.Address) => a.isDefault);
        if found.Some? {
          var d := addresses[found.value];
          selectedAddress := Some(d.id);
          shipping := FillAddress(shipping, d).(firstName := "", lastName := "");
        }
      }
    }
  }

  /** Nothing leaves confirmation: neither button moves it. */
  method ConfirmationIsFinal(page: CheckoutPage, r: real)
    requires page.step == ConfirmationStep && 0.0 <= r < 1.0
    modifies page, page.cart
    ensures page.step == ConfirmationStep
  {
    page.NextStep(r);
    page.PrevStep();
    page.PressContinue(r);
  }
}
