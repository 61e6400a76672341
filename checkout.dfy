/**
 * The checkout wizard (app/checkout/page.js): the form state, the validators
 * that guard `handleNextStep`, the three-step transition system, the
 * empty-cart redirect guard, and `handlePlaceOrder` with the order and STK
 * push requests it builds.
 */
module Checkout {
  import opened Wrappers
  import opened Chars
  import opened Storage
  import opened Http
  import Cart

  // ---------------------------------------------------------------------------
  // Form state
  // ---------------------------------------------------------------------------

  datatype ShippingInfo = ShippingInfo(
    fullName: string, addressLine1: string, addressLine2: string, city: string,
    state: string, postalCode: string, country: string, phone: string)

  /** The radio buttons set one of four strings; `''` (nothing chosen) is `Unselected`. */
  datatype PaymentMethod = Unselected | CreditCard | PayPal | Mpesa | Cod

  datatype CardDetails = CardDetails(cardNumber: string, expiryDate: string, cvv: string)

  /** Everything the user types or picks on steps 1 and 2. */
  datatype Form = Form(shipping: ShippingInfo, payment: PaymentMethod, card: CardDetails, mpesaPhone: string)

  const EmptyForm := Form(ShippingInfo("", "", "", "", "", "", "", ""), Unselected, CardDetails("", "", ""), "")

  // ---------------------------------------------------------------------------
  // Validators
  // ---------------------------------------------------------------------------

  /** The required shipping fields are non-empty; addressLine2, state and postalCode are not checked. */
  predicate ShippingComplete(s: ShippingInfo) {
    s.fullName != "" && s.addressLine1 != "" && s.city != "" && s.country != "" && s.phone != ""
  }

  /** `(0[1-9]|1[0-2])` on two characters. */
  predicate MonthField(a: char, b: char) {
    (a == '0' && '1' <= b <= '9') || (a == '1' && '0' <= b <= '2')
  }

  /** `^(0[1-9]|1[0-2])\/?([0-9]{2})$`. */
  predicate ExpiryMatches(s: string) {
    && |s| >= 2 && MonthField(s[0], s[1])
    && (var rest := s[2..];
        (|rest| == 2 && AllDigits(rest)) || (|rest| == 3 && rest[0] == '/' && AllDigits(rest[1..])))
  }

  /** `^\d{3,4}$`. */
  predicate CvvMatches(s: string) {
    (|s| == 3 || |s| == 4) && AllDigits(s)
  }

  /** `(?:7|10|11)\d{8}` on what follows the country code. */
  predicate SubscriberPart(t: string) {
    || (|t| == 9 && t[0] == '7' && AllDigits(t[1..]))
    || (|t| == 10 && (t[..2] == "10" || t[..2] == "11") && AllDigits(t[2..]))
  }

  /** `^(254(?:7|10|11)\d{8})$`. */
  predicate MpesaMatches(s: string) {
    |s| >= 3 && s[..3] == "254" && SubscriberPart(s[3..])
  }

  /** What step 2 needs before it may advance. */
  predicate PaymentReady(f: Form) {
    match f.payment
    case Unselected => false
    case PayPal => false
    case CreditCard =>
      && f.card.cardNumber != "" && f.card.expiryDate != "" && f.card.cvv != ""
      && ExpiryMatches(f.card.expiryDate) && CvvMatches(f.card.cvv)
    case Mpesa => f.mpesaPhone != "" && MpesaMatches(f.mpesaPhone)
    case Cod => true
  }

  /** Why `handleNextStep` returned early; each comes with its own error toast. */
  datatype Block =
    | MissingShipping | NoPaymentMethod | MissingCardDetails | BadExpiry | BadCvv
    | MissingMpesaNumber | BadMpesaNumber | UsePayPalButton

  datatype StepCheck = Advance | Blocked(reason: Block)

  /** The step-2 checks in the order the handler makes them. */
  function CheckPayment(f: Form): StepCheck {
    if f.payment == Unselected then Blocked(NoPaymentMethod)
    else if f.payment == CreditCard && (f.card.cardNumber == "" || f.card.expiryDate == "" || f.card.cvv == "")
    then Blocked(MissingCardDetails)
    else if f.payment == CreditCard && !ExpiryMatches(f.card.expiryDate) then Blocked(BadExpiry)
    else if f.payment == CreditCard && !CvvMatches(f.card.cvv) then Blocked(BadCvv)
    else if f.payment == Mpesa && f.mpesaPhone == "" then Blocked(MissingMpesaNumber)
    else if f.payment == Mpesa && !MpesaMatches(f.mpesaPhone) then Blocked(BadMpesaNumber)
    else if f.payment == PayPal then Blocked(UsePayPalButton)
    else Advance
  }

  /**
   * `handleNextStep`'s decision. It advances exactly when the current step's
   * requirements hold; steps other than 1 and 2 are not checked.
   */
  function CheckNext(step: int, f: Form): (r: StepCheck)
    ensures r.Advance? <==> (step == 1 ==> ShippingComplete(f.shipping)) && (step == 2 ==> PaymentReady(f))
    ensures step == 1 && !ShippingComplete(f.shipping) ==> r == Blocked(MissingShipping)
    ensures step == 2 && f.payment == Unselected ==> r == Blocked(NoPaymentMethod)
    ensures step == 2 && f.payment == PayPal ==> r == Blocked(UsePayPalButton)
  {
    if step == 1 && !ShippingComplete(f.shipping) then Blocked(MissingShipping)
    else if step == 2 then CheckPayment(f)
    else Advance
  }

  // ---------------------------------------------------------------------------
  // What the validators accept
  // ---------------------------------------------------------------------------

  /** The two-digit rendering of a month number. */
  function MonthText(m: int): (t: string)
    requires 1 <= m <= 12
    ensures |t| == 2 && IsDigit(t[0]) && IsDigit(t[1]) && 10 * DigitValue(t[0]) + DigitValue(t[1]) == m
  {
    [DigitChar(m / 10), DigitChar(m % 10)]
  }

  /** The month field reads as a month number from 1 to 12. */
  lemma MonthFieldIsMonth(a: char, b: char)
    ensures MonthField(a, b) <==> IsDigit(a) && IsDigit(b) && 1 <= 10 * DigitValue(a) + DigitValue(b) <= 12
  {
  }

  /** Every month 01 to 12 followed by two digits is accepted, with or without the slash. */
  lemma ExpiryAcceptsMonthYear(m: int, yy: string)
    requires 1 <= m <= 12 && |yy| == 2 && AllDigits(yy)
    ensures ExpiryMatches(MonthText(m) + "/" + yy)
    ensures ExpiryMatches(MonthText(m) + yy)
  {
    var mm := MonthText(m);
    MonthFieldIsMonth(mm[0], mm[1]);
    assert (mm + "/" + yy)[2..] == "/" + yy;
    assert ("/" + yy)[1..] == yy;
    assert (mm + yy)[2..] == yy;
  }

  /** Everything accepted is a month 01 to 12, an optional slash and two digits. */
  lemma ExpiryAcceptedIsMonthYear(s: string)
    requires ExpiryMatches(s)
    ensures var m := 10 * DigitValue(s[0]) + DigitValue(s[1]);
      && 1 <= m <= 12 && AllDigits(s[|s| - 2..])
      && (s == MonthText(m) + s[|s| - 2..] || s == MonthText(m) + "/" + s[|s| - 2..])
  {
    MonthFieldIsMonth(s[0], s[1]);
    var m := 10 * DigitValue(s[0]) + DigitValue(s[1]);
    var mm := MonthText(m);
    assert mm[0] == s[0] && mm[1] == s[1];
    if |s| == 4 {
      assert s == mm + s[2..];
    } else {
      assert s[2..][1..] == s[3..];
      assert s == mm + "/" + s[3..];
    }
  }

  lemma ExpiryExamples()
    ensures ExpiryMatches("09/26") && ExpiryMatches("0926")
    ensures !ExpiryMatches("13/25") && !ExpiryMatches("00/25") && !ExpiryMatches("9/26")
  {
    assert "09/26"[2..] == "/26" && "/26"[1..] == "26";
    assert "0926"[2..] == "26";
  }

  lemma CvvExamples()
    ensures CvvMatches("123") && CvvMatches("1234")
    ensures !CvvMatches("12") && !CvvMatches("12345") && !CvvMatches("12a")
  {
    assert !IsDigit("12a"[2]);
  }

  /**
   * Accepted numbers are all digits: `2547` and eight digits (12 in all), or
   * `25410`/`25411` and eight digits (13 in all, although the error message
   * says 12 digits).
   */
  lemma MpesaAcceptedShape(s: string)
    requires MpesaMatches(s)
    ensures AllDigits(s)
    ensures (|s| == 12 && s[..4] == "2547") || (|s| == 13 && (s[..5] == "25410" || s[..5] == "25411"))
  {
    var t := s[3..];
    assert s == "254" + t;
    if |t| == 9 {
      assert s[..4] == "254" + [t[0]];
      forall i | 0 <= i < |s| ensures IsDigit(s[i]) {
        if i >= 4 { assert s[i] == t[1..][i - 4]; }
      }
    } else {
      assert s[..5] == "254" + t[..2];
      forall i | 0 <= i < |s| ensures IsDigit(s[i]) {
        if i >= 5 { assert s[i] == t[2..][i - 5]; }
        else if i >= 3 { assert s[i] == t[..2][i - 3]; }
      }
    }
  }

  /** Each of the three prefixes followed by exactly eight digits is accepted. */
  lemma MpesaAcceptsPrefixes(d: string)
    requires |d| == 8 && AllDigits(d)
    ensures MpesaMatches("2547" + d) && MpesaMatches("25410" + d) && MpesaMatches("25411" + d)
  {
    assert ("2547" + d)[3..] == "7" + d && ("7" + d)[1..] == d;
    assert ("25410" + d)[3..] == "10" + d && ("10" + d)[..2] == "10" && ("10" + d)[2..] == d;
    assert ("25411" + d)[3..] == "11" + d && ("11" + d)[..2] == "11" && ("11" + d)[2..] == d;
  }

  /**
   * "254712345678" passes; a short number and the 12-digit `25410`
   * example of the M-Pesa input's `title` attribute do not.
   */
  lemma MpesaExamples()
    ensures MpesaMatches("254712345678")
    ensures !MpesaMatches("254712345")
    ensures !MpesaMatches("254101234567")
    ensures MpesaMatches("2541012345678")
  {
    var twelve, thirteen := "254712345678", "2541012345678";
    assert twelve[..3] == "254" && twelve[3..] == "712345678" && "712345678"[1..] == "12345678";
    assert thirteen[..3] == "254" && thirteen[3..] == "1012345678";
    assert "1012345678"[..2] == "10" && "1012345678"[2..] == "12345678";
    var short, hint := "254712345", "254101234567";
    assert |short[3..]| == 6;
    assert |hint[3..]| == 9 && hint[3..][0] == '1';
  }

  // ---------------------------------------------------------------------------
  // The step transition system
  // ---------------------------------------------------------------------------

  /** "Next" is rendered on steps 1 and 2; "Previous" on steps 2 and 3. */
  predicate NextShown(step: int) { step == 1 || step == 2 }
  predicate PreviousShown(step: int) { step == 2 || step == 3 }

  /** The wizard's state: the step on screen and the form behind it. */
  datatype Wizard = Wizard(step: int, form: Form)

  const InitialWizard := Wizard(1, EmptyForm)

  /**
   * What the user can do: type into the shipping inputs, pick a payment
   * method and fill its fields, or click Next or Previous.
   */
  datatype WizardEvent =
    | EnterShipping(shipping: ShippingInfo)
    | EnterPayment(payment: PaymentMethod, card: CardDetails, mpesaPhone: string)
    | ClickNext
    | ClickPrevious

  /**
   * Whether the control behind an event is rendered: the shipping inputs on
   * step 1 only, the payment inputs on step 2 only, and the buttons as above.
   */
  predicate Enabled(step: int, e: WizardEvent) {
    match e
    case EnterShipping(_) => step == 1
    case EnterPayment(_, _, _) => step == 2
    case ClickNext => NextShown(step)
    case ClickPrevious => PreviousShown(step)
  }

  /** One event; a control that is not rendered cannot be used, so it changes nothing. */
  function StepAfter(w: Wizard, e: WizardEvent): Wizard {
    if !Enabled(w.step, e) then w
    else match e
      case EnterShipping(s) => w.(form := w.form.(shipping := s))
      case EnterPayment(m, c, p) => w.(form := w.form.(payment := m, card := c, mpesaPhone := p))
      case ClickNext => if CheckNext(w.step, w.form).Advance? then w.(step := w.step + 1) else w
      case ClickPrevious => w.(step := w.step - 1)
  }

  function Replay(w: Wizard, events: seq<WizardEvent>): Wizard
    decreases |events|
  {
    if events == [] then w else Replay(StepAfter(w, events[0]), events[1..])
  }

  /**
   * The wizard's reachable states: steps 1 to 3; past step 1 the shipping
   * fields on record are complete, and on the review step the payment on
   * record is ready.
   */
  predicate WizardInvariant(w: Wizard) {
    && 1 <= w.step <= 3
    && (w.step >= 2 ==> ShippingComplete(w.form.shipping))
    && (w.step == 3 ==> PaymentReady(w.form))
  }

  /** Every event keeps the invariant. */
  lemma StepKeepsInvariant(w: Wizard, e: WizardEvent)
    requires WizardInvariant(w)
    ensures WizardInvariant(StepAfter(w, e))
  {
  }

  /** Any run of events from a reachable state ends in a reachable state. */
  lemma {:induction false} ReplayInvariant(w: Wizard, events: seq<WizardEvent>)
    requires WizardInvariant(w)
    ensures WizardInvariant(Replay(w, events))
    decreases |events|
  {
    if events != [] {
      StepKeepsInvariant(w, events[0]);
      ReplayInvariant(StepAfter(w, events[0]), events[1..]);
    }
  }

  /**
   * Whatever the user does from the empty form, the review step shows complete
   * shipping and a payment method other than PayPal, with a well-formed expiry
   * and CVV for a card and a well-formed number for M-Pesa.
   */
  lemma ReviewStepIsValidated(events: seq<WizardEvent>)
    ensures var w := Replay(InitialWizard, events);
      w.step == 3 ==>
        && ShippingComplete(w.form.shipping)
        && w.form.payment != Unselected && w.form.payment != PayPal
        && (w.form.payment == CreditCard ==> ExpiryMatches(w.form.card.expiryDate) && CvvMatches(w.form.card.cvv))
        && (w.form.payment == Mpesa ==> MpesaMatches(w.form.mpesaPhone))
  {
    ReplayInvariant(InitialWizard, events);
  }

  // ---------------------------------------------------------------------------
  // The order request
  // ---------------------------------------------------------------------------

  datatype OrderItem = OrderItem(productId: string, name: string, quantity: int, price: int)

  /** `paymentDetails`: the card fields for a card payment, `{}` otherwise. */
  datatype PaymentDetails = CardPayment(card: CardDetails) | NoDetails

  datatype OrderRequest = OrderRequest(
    orderItems: seq<OrderItem>, shippingAddress: ShippingInfo, paymentMethod: PaymentMethod,
    totalAmount: int, paymentDetails: PaymentDetails)

  /** The M-Pesa STK push payload. */
  datatype StkPush = StkPush(phoneNumber: string, amount: int, orderId: string, description: string)

  const OrdersUrl := "http://localhost:5000/api/orders"
  const StkPushUrl := "http://localhost:5000/api/mpesa/stk-push"

  /** `cartItems.map(item => ({ productId: item._id, name: item.title, quantity, price }))`. */
  function OrderItems(cart: seq<Cart.LineItem>): seq<OrderItem> {
    seq(|cart|, i requires 0 <= i < |cart| =>
      OrderItem(cart[i].id, cart[i].title, cart[i].quantity, cart[i].price))
  }

  function BuildOrder(cart: seq<Cart.LineItem>, f: Form): OrderRequest {
    OrderRequest(OrderItems(cart), f.shipping, f.payment, Cart.TotalPrice(cart),
                 if f.payment == CreditCard then CardPayment(f.card) else NoDetails)
  }

  /** The amount a server would recompute from the order's lines. */
  function LinesTotal(items: seq<OrderItem>): int {
    if items == [] then 0 else items[0].price * items[0].quantity + LinesTotal(items[1..])
  }

  lemma {:induction false} LinesTotalOfCart(cart: seq<Cart.LineItem>)
    ensures LinesTotal(OrderItems(cart)) == Cart.TotalPrice(cart)
  {
    if cart != [] {
      assert OrderItems(cart)[1..] == OrderItems(cart[1..]);
      LinesTotalOfCart(cart[1..]);
    }
  }

  /**
   * The order mirrors the cart line by line, in order; its total is the cart's
   * `totalPrice` and agrees with its own lines; card details travel only with
   * a card payment.
   */
  lemma BuildOrderFaithful(cart: seq<Cart.LineItem>, f: Form)
    ensures var o := BuildOrder(cart, f);
      && |o.orderItems| == |cart|
      && (forall i :: 0 <= i < |cart| ==>
            && o.orderItems[i].productId == cart[i].id && o.orderItems[i].name == cart[i].title
            && o.orderItems[i].quantity == cart[i].quantity && o.orderItems[i].price == cart[i].price)
      && o.totalAmount == Cart.TotalPrice(cart) == LinesTotal(o.orderItems)
      && o.shippingAddress == f.shipping && o.paymentMethod == f.payment
      && (o.paymentDetails == CardPayment(f.card) <==> f.payment == CreditCard)
      && (o.paymentDetails == NoDetails <==> f.payment != CreditCard)
  {
    LinesTotalOfCart(cart);
  }

  // ---------------------------------------------------------------------------
  // handlePlaceOrder's guards and notices
  // ---------------------------------------------------------------------------

  /** Why `handlePlaceOrder` returned before sending anything. */
  datatype PlaceBlock = EmptyCart | NotLoggedIn | PayWithPayPalButton | MissingMpesa | InvalidMpesa

  /** The pre-submission guards, in order. */
  function PlaceGuard(cart: seq<Cart.LineItem>, token: Option<string>, f: Form): Option<PlaceBlock> {
    if |cart| == 0 then Some(EmptyCart)
    else if !Present(token) then Some(NotLoggedIn)
    else if f.payment == PayPal then Some(PayWithPayPalButton)
    else if f.payment == Mpesa && f.mpesaPhone == "" then Some(MissingMpesa)
    else if f.payment == Mpesa && !MpesaMatches(f.mpesaPhone) then Some(InvalidMpesa)
    else None
  }

  /** No order is requested for an empty cart, without a token, for PayPal, or for a missing or malformed M-Pesa number. */
  lemma PlaceGuardBlocks(cart: seq<Cart.LineItem>, token: Option<string>, f: Form)
    ensures PlaceGuard(cart, token, f).None? <==>
      && |cart| > 0 && Present(token) && f.payment != PayPal
      && (f.payment == Mpesa ==> f.mpesaPhone != "" && MpesaMatches(f.mpesaPhone))
    ensures |cart| == 0 ==> PlaceGuard(cart, token, f) == Some(EmptyCart)
  {
  }

  /** From the review step the PayPal and M-Pesa refusals of the order guards cannot fire. */
  lemma ReviewGuard(cart: seq<Cart.LineItem>, token: Option<string>, w: Wizard)
    requires WizardInvariant(w) && w.step == 3
    ensures PlaceGuard(cart, token, w.form).None? <==> |cart| > 0 && Present(token)
  {
  }

  /** The error toast of the catch block. */
  function FailureNotice(e: HttpError): string {
    match e
    case ErrorResponse(message) =>
      "Operation Failed: " + (if Present(message) then message.value else "Server error")
    case NoResponse => "Operation failed: No response from server. Check your internet connection."
    case SetupError(reason) => "Operation failed: " + reason
  }

  lemma FailureNoticeExample()
    ensures FailureNotice(ErrorResponse(Some("Out of stock"))) == "Operation Failed: Out of stock"
    ensures FailureNotice(ErrorResponse(Some(""))) == "Operation Failed: Server error"
  {
  }

  /** `mpesaResponse.data.response` with its `ResponseCode` and `CustomerMessage`, each possibly missing. */
  datatype PushReply = PushReply(responseCode: Option<string>, customerMessage: Option<string>)

  /** What the user is told about the STK push. */
  datatype PushNotice = NoPush | PushSent | PushFailed(message: string)

  function PushNoticeOf(r: PushReply): PushNotice {
    if r.responseCode == Some("0") then PushSent
    else PushFailed("M-Pesa STK Push failed: " + (if Present(r.customerMessage) then r.customerMessage.value else "Unknown error"))
  }

  datatype PlaceOutcome =
    | Refused(reason: PlaceBlock)
    | Failed(notice: string)
    | Placed(orderId: string, push: PushNotice)

  /**
   * The `message` of the TypeError thrown when the created-order reply has no
   * `order` and `createdOrder.order._id` is read (the wording is the browser's;
   * this is V8's).
   */
  const MissingOrderMessage := "Cannot read properties of undefined (reading '_id')"

  // ---------------------------------------------------------------------------
  // The page
  // ---------------------------------------------------------------------------

  class CheckoutPage {
    /** The cart store the page reads through `useCart`. */
    const cart: Cart.CartStore
    var currentStep: int
    var form: Form
    var orderPlaced: bool

    constructor (cart: Cart.CartStore)
      ensures this.cart == cart && State() == InitialWizard && !orderPlaced
      ensures Valid()
    {
      this.cart := cart;
      currentStep := 1;
      form := EmptyForm;
      orderPlaced := false;
    }

    /** The step and the form, as the transition system sees them. */
    function State(): Wizard
      reads this
    {
      Wizard(currentStep, form)
    }

    /** The page is in a state the wizard can reach. */
    ghost predicate Valid()
      reads this
    {
      WizardInvariant(State())
    }

    /** The shipping inputs' change handlers, rendered on step 1 only. */
    method EditShipping(s: ShippingInfo)
      requires Valid() && currentStep == 1
      modifies this`form
      ensures form == old(form).(shipping := s)
      ensures State() == StepAfter(old(State()), EnterShipping(s))
      ensures Valid()
    {
      form := form.(shipping := s);
    }

    /** The payment radios' and fields' change handlers, rendered on step 2 only. */
    method EditPayment(payment: PaymentMethod, card: CardDetails, mpesaPhone: string)
      requires Valid() && currentStep == 2
      modifies this`form
      ensures form == old(form).(payment := payment, card := card, mpesaPhone := mpesaPhone)
      ensures State() == StepAfter(old(State()), EnterPayment(payment, card, mpesaPhone))
      ensures Valid()
    {
      form := form.(payment := payment, card := card, mpesaPhone := mpesaPhone);
    }

    /** The redirect effect's condition: not loading, no items and no order just placed. */
    predicate RedirectsToShop(isLoading: bool)
      reads this, cart
    {
      !isLoading && Cart.TotalItems(cart.cartItems) == 0 && !orderPlaced
    }

    /** `handleNextStep`, from a rendered Next button: one step forward if the checks pass, otherwise no change. */
    method HandleNextStep() returns (check: StepCheck)
      requires Valid() && NextShown(currentStep)
      modifies this`currentStep
      ensures check == CheckNext(old(currentStep), form)
      ensures currentStep == if check.Advance? then old(currentStep) + 1 else old(currentStep)
      ensures State() == StepAfter(old(State()), ClickNext)
      ensures Valid()
    {
      check := CheckNext(currentStep, form);
      if check.Advance? {
        currentStep := currentStep + 1;
      }
    }

    /** `handlePreviousStep`, from a rendered Previous button: one step back. */
    method HandlePreviousStep()
      requires Valid() && PreviousShown(currentStep)
      modifies this`currentStep
      ensures currentStep == old(currentStep) - 1
      ensures State() == StepAfter(old(State()), ClickPrevious)
      ensures Valid()
    {
      currentStep := currentStep - 1;
    }

    /**
     * `handlePlaceOrder`, from the Place Order button of the review step,
     * given the auth token and the two replies it would
     * await. A created-order reply carries `order._id`, or `None` when it has
     * no `order`, so reading the id throws. The order-placed flag is set
     * before the cart is cleared, so the redirect guard stays off once the cart
     * is empty: `trace` records the guard after each of the two updates. A push
     * that throws lands in the catch block: the order exists but the cart is
     * kept. For a card or COD order without `order`, the id is first read
     * after the flag is set and the cart cleared, so those stay done although
     * the catch block reports a failure; for M-Pesa it is read before the push.
     */
    method PlaceOrder(token: Option<string>, created: Reply<Option<string>>, pushed: Reply<PushReply>)
      returns (outcome: PlaceOutcome, order: Option<Request<OrderRequest>>, push: Option<Request<StkPush>>,
               ghost trace: seq<bool>)
      requires Valid() && currentStep == 3 && cart.Valid()
      modifies this`orderPlaced, cart`cartItems, cart`storedCart
      ensures Valid() && cart.Valid()
      ensures order.Some? ==>
        && ShippingComplete(order.value.body.shippingAddress)
        && order.value.body.paymentMethod != Unselected && order.value.body.paymentMethod != PayPal
        && (order.value.body.paymentDetails.CardPayment? ==>
              ExpiryMatches(order.value.body.paymentDetails.card.expiryDate)
              && CvvMatches(order.value.body.paymentDetails.card.cvv))
      ensures var guard := PlaceGuard(old(cart.cartItems), token, form);
        && (guard.Some? <==> outcome.Refused?)
        && (guard.Some? ==> outcome == Refused(guard.value))
        && (order.Some? <==> guard.None?)
      ensures order.Some? ==> order.value == Request(OrdersUrl, token, BuildOrder(old(cart.cartItems), form))
      ensures push.Some? <==> order.Some? && created.Replied? && created.body.Some? && form.payment == Mpesa
      ensures push.Some? ==> push.value == Request(StkPushUrl, token,
        StkPush(form.mpesaPhone, Cart.TotalPrice(old(cart.cartItems)), created.body.value,
                "Managaverse - Order: " + created.body.value))
      ensures outcome.Placed? <==>
        order.Some? && created.Replied? && created.body.Some? && (form.payment == Mpesa ==> pushed.Replied?)
      ensures outcome.Placed? ==>
        && outcome.orderId == created.body.value
        && outcome.push == (if form.payment == Mpesa then PushNoticeOf(pushed.body) else NoPush)
      ensures outcome.Failed? ==>
        outcome.notice == (if created.Threw? then FailureNotice(created.error)
                           else if created.body.None? then FailureNotice(SetupError(MissingOrderMessage))
                           else FailureNotice(pushed.error))
      ensures var committed := order.Some? && created.Replied?
                               && (form.payment == Mpesa ==> created.body.Some? && pushed.Replied?);
        && (committed ==> orderPlaced && cart.cartItems == [] && !RedirectsToShop(false)
                          && |trace| == 2 && forall i :: 0 <= i < |trace| ==> !trace[i])
        && (!committed ==> orderPlaced == old(orderPlaced) && cart.cartItems == old(cart.cartItems)
                           && cart.storedCart == old(cart.storedCart) && trace == [])
    {
      order, push, trace := None, None, [];
      var items := cart.cartItems;
      var guard := PlaceGuard(items, token, form);
      if guard.Some? {
        outcome := Refused(guard.value);
        return;
      }
      order := Some(Request(OrdersUrl, token, BuildOrder(items, form)));
      if created.Threw? {
        outcome := Failed(FailureNotice(created.error));
        return;
      }
      var notice := NoPush;
      if form.payment == Mpesa {
        if created.body.None? {
          outcome := Failed(FailureNotice(SetupError(MissingOrderMessage)));
          return;
        }
        var orderId := created.body.value;
        push := Some(Request(StkPushUrl, token,
          StkPush(form.mpesaPhone, Cart.TotalPrice(items), orderId, "Managaverse - Order: " + orderId)));
        if pushed.Threw? {
          outcome := Failed(FailureNotice(pushed.error));
          return;
        }
        notice := PushNoticeOf(pushed.body);
      }
      orderPlaced := true;
      trace := trace + [RedirectsToShop(false)];
      cart.ClearCart();
      trace := trace + [RedirectsToShop(false)];
      if created.body.None? {
        outcome := Failed(FailureNotice(SetupError(MissingOrderMessage)));
      } else {
        outcome := Placed(created.body.value, notice);
      }
    }
  }
}
