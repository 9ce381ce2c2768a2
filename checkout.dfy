/**
 * The three-step checkout dialog: the order summary it prices, the partial
 * form data it edits, and the step and submit state its buttons move.
 */
module Checkout {
  import opened Wrappers
  import opened CartItems

  // ---------------------------------------------------------------------------
  // Order summary

  /** Shipping is free only strictly above this subtotal. */
  const FreeShippingAbove: real := 100.0
  const ShippingFee: real := 9.99
  const TaxRate: real := 0.08

  datatype Summary = Summary(subtotal: real, shipping: real, tax: real, finalTotal: real)

  /** Shipping charged for a subtotal. */
  function Shipping(subtotal: real): (s: real)
    ensures s == 0.0 <==> subtotal > FreeShippingAbove
    ensures s == 0.0 || s == ShippingFee
  {
    if subtotal > FreeShippingAbove then 0.0 else ShippingFee
  }

  /** The summary the dialog shows for the cart entries. */
  function OrderSummary(items: seq<CartItem>): (s: Summary)
    ensures s.subtotal == Total(items)
    ensures s.shipping == Shipping(s.subtotal)
    ensures s.tax == TaxRate * s.subtotal
    ensures s.finalTotal == s.subtotal + s.shipping + s.tax
  {
    var total := Total(items);
    var shipping := Shipping(total);
    var tax := total * TaxRate;
    Summary(total, shipping, tax, total + shipping + tax)
  }

  /**
   * The final total is 108% of the subtotal, plus the fee at or below the
   * threshold; tax is charged on the subtotal only, never on shipping.
   */
  lemma FinalTotalFormula(items: seq<CartItem>)
    ensures Total(items) > FreeShippingAbove ==> OrderSummary(items).finalTotal == 1.08 * Total(items)
    ensures Total(items) <= FreeShippingAbove ==> OrderSummary(items).finalTotal == 1.08 * Total(items) + 9.99
  {
  }

  /** A subtotal of exactly 100 still pays shipping. */
  lemma ThresholdIsStrict()
    ensures Shipping(100.0) == 9.99 && Shipping(100.01) == 0.0
  {
  }

  /** Crossing the free-shipping threshold lowers the final total: 100.00 costs more than 100.01. */
  lemma CrossingThresholdLowersTotal(a: seq<CartItem>, b: seq<CartItem>)
    requires Total(a) == 100.0 && Total(b) == 100.01
    ensures OrderSummary(a).finalTotal == 117.99
    ensures OrderSummary(b).finalTotal == 108.0108
    ensures OrderSummary(b).finalTotal < OrderSummary(a).finalTotal
  {
  }

  /** On either side of the threshold, a larger subtotal never gives a smaller final total. */
  lemma FinalTotalMonotoneOnEachSide(a: seq<CartItem>, b: seq<CartItem>)
    requires Total(a) <= Total(b)
    requires (Total(a) > FreeShippingAbove) == (Total(b) > FreeShippingAbove)
    ensures OrderSummary(a).finalTotal <= OrderSummary(b).finalTotal
  {
  }

  // ---------------------------------------------------------------------------
  // Form data

  /** The keys of the order data the form collects. */
  datatype Field =
    | Email | FirstName | LastName | Address | City | State | ZipCode | Phone
    | DeliveryNotes | PaymentMethod | CardNumber | ExpiryDate | Cvv

  /** A partial order record: a key is absent until its input is first edited. */
  type FormData = map<Field, string>

  /** The form starts with only the payment method set, to card. */
  const InitialFormData: FormData := map[PaymentMethod := "card"]

  /** A field is truthy when it is present and not the empty string. */
  predicate Filled(fd: FormData, f: Field) {
    f in fd && fd[f] != ""
  }

  /** `handleInputChange`: the record with one field set to the input's value. */
  function WithField(fd: FormData, field: Field, value: string): (r: FormData)
    ensures field in r && r[field] == value
    ensures r.Keys == fd.Keys + {field}
    ensures forall f :: f in fd && f != field ==> r[f] == fd[f]
  {
    fd[field := value]
  }

  /** Required to leave step 1. */
  predicate ContactComplete(fd: FormData) {
    Filled(fd, Email) && Filled(fd, FirstName) && Filled(fd, LastName) && Filled(fd, Phone)
  }

  /** Required to leave step 2. */
  predicate DeliveryComplete(fd: FormData) {
    Filled(fd, Address) && Filled(fd, City) && Filled(fd, State) && Filled(fd, ZipCode)
  }

  /** Required to place the order. */
  predicate PaymentComplete(fd: FormData) {
    Filled(fd, CardNumber) && Filled(fd, ExpiryDate) && Filled(fd, Cvv)
  }

  /** The fields each gate looks at, as sets. */
  const ContactFields: set<Field> := {Email, FirstName, LastName, Phone}
  const DeliveryFields: set<Field> := {Address, City, State, ZipCode}
  const PaymentFields: set<Field> := {CardNumber, ExpiryDate, Cvv}

  /** Each gate holds exactly when every field of its set is filled. */
  lemma GatesAreFieldSets(fd: FormData)
    ensures ContactComplete(fd) <==> forall f :: f in ContactFields ==> Filled(fd, f)
    ensures DeliveryComplete(fd) <==> forall f :: f in DeliveryFields ==> Filled(fd, f)
    ensures PaymentComplete(fd) <==> forall f :: f in PaymentFields ==> Filled(fd, f)
  {
  }

  /** Editing a field outside a gate's set never changes that gate. */
  lemma EditOutsideGate(fd: FormData, field: Field, value: string)
    ensures field !in ContactFields ==> (ContactComplete(WithField(fd, field, value)) <==> ContactComplete(fd))
    ensures field !in DeliveryFields ==> (DeliveryComplete(WithField(fd, field, value)) <==> DeliveryComplete(fd))
    ensures field !in PaymentFields ==> (PaymentComplete(WithField(fd, field, value)) <==> PaymentComplete(fd))
  {
  }

  /** Delivery notes gate nothing. */
  lemma DeliveryNotesNeverGate(fd: FormData, value: string)
    ensures ContactComplete(WithField(fd, DeliveryNotes, value)) == ContactComplete(fd)
    ensures DeliveryComplete(WithField(fd, DeliveryNotes, value)) == DeliveryComplete(fd)
    ensures PaymentComplete(WithField(fd, DeliveryNotes, value)) == PaymentComplete(fd)
  {
    EditOutsideGate(fd, DeliveryNotes, value);
  }

  /** Clearing any field of a gate closes it. */
  lemma ClearingClosesGate(fd: FormData, field: Field)
    ensures field in ContactFields ==> !ContactComplete(WithField(fd, field, ""))
    ensures field in DeliveryFields ==> !DeliveryComplete(WithField(fd, field, ""))
    ensures field in PaymentFields ==> !PaymentComplete(WithField(fd, field, ""))
  {
  }

  /** The initial form opens no gate. */
  lemma InitialFormOpensNoGate()
    ensures !ContactComplete(InitialFormData)
    ensures !DeliveryComplete(InitialFormData)
    ensures !PaymentComplete(InitialFormData)
  {
  }

  // ---------------------------------------------------------------------------
  // Step and submit state

  /**
   * The dialog's hook state. `pending` is the order data an in-flight
   * `handleSubmit` captured when it started; it stands for the suspended call,
   * which hands that data to `onPlaceOrder` when it resumes.
   */
  class CheckoutForm {
    var currentStep: int
    var formData: FormData
    var isSubmitting: bool
    var pending: Option<FormData>

    ghost predicate Valid()
      reads this
    {
      && currentStep in {1, 2, 3}
      && (isSubmitting <==> pending.Some?)
    }

    constructor ()
      ensures Valid()
      ensures currentStep == 1 && formData == InitialFormData
      ensures !isSubmitting && pending == None
    {
      currentStep := 1;
      formData := InitialFormData;
      isSubmitting := false;
      pending := None;
    }

    /** "Continue to Delivery" is shown on step 1 and enabled once the contact fields are filled. */
    predicate CanContinueToDelivery()
      reads this
    {
      currentStep == 1 && ContactComplete(formData)
    }

    /** "Continue to Payment" is shown on step 2 and enabled once the address fields are filled. */
    predicate CanContinueToPayment()
      reads this
    {
      currentStep == 2 && DeliveryComplete(formData)
    }

    /** "Place Order" is shown on step 3 and enabled when not submitting and the card fields are filled. */
    predicate CanPlaceOrder()
      reads this
    {
      currentStep == 3 && !isSubmitting && PaymentComplete(formData)
    }

    method HandleInputChange(field: Field, value: string)
      requires Valid()
      modifies this`formData
      ensures Valid()
      ensures formData == WithField(old(formData), field, value)
    {
      formData := WithField(formData, field, value);
    }

    /** A click on "Continue to Delivery"; a disabled or hidden button does nothing. */
    method ContinueToDelivery()
      requires Valid()
      modifies this`currentStep
      ensures Valid()
      ensures old(CanContinueToDelivery()) ==> currentStep == 2
      ensures !old(CanContinueToDelivery()) ==> currentStep == old(currentStep)
    {
      if CanContinueToDelivery() {
        currentStep := 2;
      }
    }

    /** A click on "Continue to Payment"; a disabled or hidden button does nothing. */
    method ContinueToPayment()
      requires Valid()
      modifies this`currentStep
      ensures Valid()
      ensures old(CanContinueToPayment()) ==> currentStep == 3
      ensures !old(CanContinueToPayment()) ==> currentStep == old(currentStep)
    {
      if CanContinueToPayment() {
        currentStep := 3;
      }
    }

    /** "Back" on steps 2 and 3 is always enabled and goes one step back. */
    method Back()
      requires Valid()
      modifies this`currentStep
      ensures Valid()
      ensures old(currentStep) == 1 ==> currentStep == 1
      ensures old(currentStep) != 1 ==> currentStep == old(currentStep) - 1
    {
      if currentStep == 2 {
        currentStep := 1;
      } else if currentStep == 3 {
        currentStep := 2;
      }
    }

    /**
     * A click on "Place Order": `handleSubmit` raises the flag and suspends,
     * holding the form data of that moment. While it is pending the button
     * is disabled, so a second submission cannot start.
     */
    method BeginSubmit() returns (started: bool)
      requires Valid()
      modifies this`isSubmitting, this`pending
      ensures Valid()
      ensures started == old(CanPlaceOrder())
      ensures started ==> isSubmitting && pending == Some(formData)
      ensures !started ==> isSubmitting == old(isSubmitting) && pending == old(pending)
      ensures started ==> !CanPlaceOrder()
    {
      started := CanPlaceOrder();
      if started {
        isSubmitting := true;
        pending := Some(formData);
      }
    }

    /**
     * The suspended `handleSubmit` resumes: it hands the captured data to
     * `onPlaceOrder` (returned here) and lowers the flag.
     */
    method FinishSubmit() returns (placed: Option<FormData>)
      requires Valid()
      modifies this`isSubmitting, this`pending
      ensures Valid()
      ensures placed == old(pending)
      ensures !isSubmitting && pending == None
    {
      placed := pending;
      isSubmitting := false;
      pending := None;
    }
  }
}
