/**
 * The checkout page: a seven-field shipping form, a submit handler that checks
 * the six required fields and then simulates payment, and the guard that sends
 * a visitor with an empty cart back to the cart. The two `setTimeout` delays
 * become explicit steps: the page records that a callback is due, and the
 * event loop later runs it.
 */
module Checkout {
  import opened Wrappers
  import Cart

  datatype Form = Form(
    name: string,
    email: string,
    address: string,
    city: string,
    state: string,
    zip: string,
    country: string)

  /** The form as the page first shows it. */
  const InitialForm: Form := Form("", "", "", "", "", "", "United States")

  datatype Field = Name | Email | Address | City | State | Zip | Country

  /** The `name` attribute of each input, as `handleInputChange` reads it. */
  function FieldNamed(key: string): (f: Option<Field>)
    ensures f.Some? ==> key == KeyOf(f.value)
  {
    match key
    case "name" => Some(Name)
    case "email" => Some(Email)
    case "address" => Some(Address)
    case "city" => Some(City)
    case "state" => Some(State)
    case "zip" => Some(Zip)
    case "country" => Some(Country)
    case _ => None
  }

  function KeyOf(f: Field): string
  {
    match f
    case Name => "name"
    case Email => "email"
    case Address => "address"
    case City => "city"
    case State => "state"
    case Zip => "zip"
    case Country => "country"
  }

  function Get(form: Form, f: Field): string
  {
    match f
    case Name => form.name
    case Email => form.email
    case Address => form.address
    case City => form.city
    case State => form.state
    case Zip => form.zip
    case Country => form.country
  }

  /**
   * `{...formData, [name]: value}`. A key that is none of the seven adds a
   * property nothing reads, so the seven fields stay as they were.
   */
  function UpdateField(form: Form, key: string, value: string): Form
  {
    match FieldNamed(key)
    case Some(Name) => form.(name := value)
    case Some(Email) => form.(email := value)
    case Some(Address) => form.(address := value)
    case Some(City) => form.(city := value)
    case Some(State) => form.(state := value)
    case Some(Zip) => form.(zip := value)
    case Some(Country) => form.(country := value)
    case None => form
  }

  /** An input change sets the field it names and no other. */
  lemma UpdateFieldChangesOnlyThatField(form: Form, f: Field, g: Field, value: string)
    ensures Get(UpdateField(form, KeyOf(f), value), f) == value
    ensures g != f ==> Get(UpdateField(form, KeyOf(f), value), g) == Get(form, g)
  {
  }

  /** A change event for an input with no known name changes none of the seven fields. */
  lemma UpdateUnknownKey(form: Form, key: string, value: string)
    requires forall f: Field :: key != KeyOf(f)
    ensures UpdateField(form, key, value) == form
  {
    assert key != KeyOf(Name) && key != KeyOf(Country);
  }

  /** `requiredFields`: every field but the country. */
  const RequiredFields: seq<Field> := [Name, Email, Address, City, State, Zip]

  /** `requiredFields.filter(field => !formData[field])`. */
  function EmptyFields(form: Form, fields: seq<Field>): (r: seq<Field>)
    ensures |r| <= |fields|
    ensures forall f :: f in r <==> f in fields && Get(form, f) == ""
  {
    if fields == [] then []
    else
      var rest := EmptyFields(form, fields[1..]);
      if Get(form, fields[0]) == "" then [fields[0]] + rest else rest
  }

  predicate CanSubmit(form: Form)
  {
    EmptyFields(form, RequiredFields) == []
  }

  /** The form passes exactly when none of the six required fields is empty. */
  lemma CanSubmitIff(form: Form)
    ensures CanSubmit(form) <==>
      form.name != "" && form.email != "" && form.address != "" &&
      form.city != "" && form.state != "" && form.zip != ""
  {
    var r := EmptyFields(form, RequiredFields);
    if r != [] {
      assert r[0] in RequiredFields && Get(form, r[0]) == "";
    }
    if form.name == "" { assert Name in r; }
    if form.email == "" { assert Email in r; }
    if form.address == "" { assert Address in r; }
    if form.city == "" { assert City in r; }
    if form.state == "" { assert State in r; }
    if form.zip == "" { assert Zip in r; }
  }

  /** The country does not take part in the check. */
  lemma CountryNotRequired(form: Form, country: string)
    ensures CanSubmit(form.(country := country)) == CanSubmit(form)
  {
    CanSubmitIff(form);
    CanSubmitIff(form.(country := country));
  }

  /**
   * The browser's constraint check, which runs before `submit` reaches the
   * handler, assuming the inputs pass their attributes through: all seven
   * inputs are `required`, and the email input is `type="email"`, whose
   * address syntax is the parameter `isEmail`.
   */
  predicate BrowserAccepts(form: Form, isEmail: string -> bool)
  {
    && form.name != "" && form.email != "" && form.address != ""
    && form.city != "" && form.state != "" && form.zip != "" && form.country != ""
    && isEmail(form.email)
  }

  /**
   * A form the browser lets through always passes the handler's own check, and
   * the browser, unlike the handler, refuses an empty country.
   */
  lemma BrowserCheckIsStricter(form: Form, isEmail: string -> bool)
    ensures BrowserAccepts(form, isEmail) ==> CanSubmit(form)
    ensures form.country == "" ==> !BrowserAccepts(form, isEmail)
  {
    CanSubmitIff(form);
  }

  /** A freshly opened form cannot be submitted. */
  lemma InitialFormBlocked()
    ensures !CanSubmit(InitialForm)
  {
    CanSubmitIff(InitialForm);
  }

  // ---------------------------------------------------------------------------
  // The order summary beside the form

  datatype Summary = Summary(lineAmounts: seq<nat>, subtotal: nat, shippingFree: bool, total: nat)

  /** Each line shows price times quantity; shipping is free, so the total is the subtotal. */
  function OrderSummary(items: seq<Cart.CartLine>, subtotal: nat): (s: Summary)
    ensures |s.lineAmounts| == |items|
    ensures forall i :: 0 <= i < |items| ==> s.lineAmounts[i] == items[i].price * items[i].quantity
    ensures s.shippingFree && s.subtotal == subtotal && s.total == subtotal
  {
    Summary(seq(|items|, i requires 0 <= i < |items| => Cart.LineAmount(items[i])), subtotal, true, subtotal)
  }

  function Sum(xs: seq<nat>): nat
  {
    if xs == [] then 0 else xs[0] + Sum(xs[1..])
  }

  /** With the store's subtotal, the total shown is the sum of the line amounts shown. */
  lemma {:induction false} TotalIsSumOfLines(items: seq<Cart.CartLine>)
    ensures Sum(OrderSummary(items, Cart.Subtotal(items)).lineAmounts) == OrderSummary(items, Cart.Subtotal(items)).total
    decreases |items|
  {
    var s := OrderSummary(items, Cart.Subtotal(items));
    if items != [] {
      TotalIsSumOfLines(items[1..]);
      var t := OrderSummary(items[1..], Cart.Subtotal(items[1..]));
      assert s.lineAmounts[1..] == t.lineAmounts;
    }
  }

  // ---------------------------------------------------------------------------
  // The page

  datatype Route = CheckoutRoute | CartRoute | ConfirmationRoute

  /** What the page renders. */
  datatype View = RedirectToCart | Confirmation | FormView(submitEnabled: bool)

  datatype SubmitResult = MissingInformation | Processing

  class CheckoutPage {
    var formData: Form
    var paymentMethod: string
    var isProcessing: bool
    var isComplete: bool
    /** The cart store's `cartItems`, as this page sees them. */
    var cartItems: seq<Cart.CartLine>
    /** How many times the page has called `clearCart`. */
    var clearCartCalls: nat
    /** Payment callbacks scheduled by `setTimeout` and not yet run. */
    var pendingPayments: nat
    /** Redirect callbacks scheduled by `setTimeout` and not yet run. */
    var pendingRedirects: nat
    /** Where the router was last sent. */
    var route: Route

    constructor (items: seq<Cart.CartLine>)
      ensures formData == InitialForm && paymentMethod == "paypal"
      ensures !isProcessing && !isComplete && cartItems == items
      ensures clearCartCalls == 0 && pendingPayments == 0 && pendingRedirects == 0
      ensures route == CheckoutRoute
      ensures Valid()
    {
      formData := InitialForm;
      paymentMethod := "paypal";
      isProcessing, isComplete := false, false;
      cartItems := items;
      clearCartCalls, pendingPayments, pendingRedirects := 0, 0, 0;
      route := CheckoutRoute;
    }

    /**
     * The states the page can reach when the user only acts on what is shown:
     * at most one payment is pending, exactly while processing; the cart has
     * been cleared once if the order is complete and never otherwise.
     */
    ghost predicate Valid()
      reads this
    {
      && pendingPayments <= 1
      && (pendingPayments == 1 <==> isProcessing)
      && !(isProcessing && isComplete)
      && (isComplete <==> clearCartCalls == 1)
      && clearCartCalls <= 1
      && (!isComplete ==> pendingRedirects == 0)
      && (isProcessing ==> cartItems != [])
    }

    /** The render guard, and what is shown otherwise. */
    function View(): (v: View)
      reads this
      ensures v == RedirectToCart <==> cartItems == [] && !isComplete
      ensures v == Confirmation <==> isComplete
      ensures v.FormView? ==> v.submitEnabled == !isProcessing
    {
      if cartItems == [] && !isComplete then RedirectToCart
      else if isComplete then Confirmation
      else FormView(!isProcessing)
    }

    /** Rendering with an empty cart before completion sends the router to the cart. */
    method Render() returns (v: View)
      modifies this`route
      ensures v == View()
      ensures route == if v == RedirectToCart then CartRoute else old(route)
    {
      v := View();
      if cartItems == [] && !isComplete {
        route := CartRoute;
      }
    }

    /** `handleInputChange`: the input named `key` now holds `value`. */
    method HandleInputChange(key: string, value: string)
      modifies this`formData
      ensures formData == UpdateField(old(formData), key, value)
    {
      formData := UpdateField(formData, key, value);
    }

    /**
     * `handleSubmit`: with a required field empty nothing changes; otherwise
     * processing starts and the payment callback is scheduled.
     */
    method HandleSubmit() returns (result: SubmitResult)
      modifies this`isProcessing, this`pendingPayments
      ensures result == MissingInformation <==> !CanSubmit(formData)
      ensures result == MissingInformation ==>
        isProcessing == old(isProcessing) && pendingPayments == old(pendingPayments)
      ensures result == Processing ==> isProcessing && pendingPayments == old(pendingPayments) + 1
      ensures old(Valid()) && old(View()) == FormView(true) ==> Valid()
    {
      var emptyFields := EmptyFields(formData, RequiredFields);
      if |emptyFields| > 0 {
        return MissingInformation;
      }
      isProcessing := true;
      pendingPayments := pendingPayments + 1;
      result := Processing;
    }

    /**
     * The first `setTimeout` callback: processing ends, the order is complete,
     * the cart is cleared, and the redirect callback is scheduled.
     */
    method OnPaymentTimer()
      requires pendingPayments > 0
      modifies this`isProcessing, this`isComplete, this`cartItems, this`clearCartCalls,
               this`pendingPayments, this`pendingRedirects
      ensures !isProcessing && isComplete && cartItems == []
      ensures clearCartCalls == old(clearCartCalls) + 1
      ensures pendingPayments == old(pendingPayments) - 1
      ensures pendingRedirects == old(pendingRedirects) + 1
      ensures old(Valid()) ==> Valid()
    {
      isProcessing := false;
      isComplete := true;
      pendingPayments := pendingPayments - 1;
      cartItems := [];
      clearCartCalls := clearCartCalls + 1;
      pendingRedirects := pendingRedirects + 1;
    }

    /** The second `setTimeout` callback: go to the confirmation page. */
    method OnRedirectTimer()
      requires pendingRedirects > 0
      modifies this`route, this`pendingRedirects
      ensures route == ConfirmationRoute && pendingRedirects == old(pendingRedirects) - 1
      ensures old(Valid()) ==> Valid()
    {
      route := ConfirmationRoute;
      pendingRedirects := pendingRedirects - 1;
    }
  }

  /**
   * The whole order: a filled form over a non-empty cart is submitted, the
   * payment callback runs, then the redirect callback. The cart is cleared
   * exactly once, the confirmation shows although the cart is now empty, and
   * the router ends on the confirmation page.
   */
  method PlaceOrder(page: CheckoutPage)
    requires page.Valid() && page.View() == FormView(true) && CanSubmit(page.formData)
    modifies page
    ensures page.Valid()
    ensures !page.isProcessing && page.isComplete && page.cartItems == []
    ensures page.clearCartCalls == 1 && old(page.clearCartCalls) == 0
    ensures page.View() == Confirmation && page.route == ConfirmationRoute
  {
    var result := page.HandleSubmit();
    assert result == Processing;
    page.OnPaymentTimer();
    page.OnRedirectTimer();
  }

  /** A submit with a required field empty leaves the whole page as it was. */
  method RejectedSubmit(page: CheckoutPage)
    requires !CanSubmit(page.formData)
    modifies page
    ensures unchanged(page)
  {
    var result := page.HandleSubmit();
    assert result == MissingInformation;
  }
}
