/** The stand-alone payment screen: a selected method, the card form, and
    `handlePayment`, whose `isProcessing` flag guards against a second press while
    the simulated payment is pending. */
module Payment {
  import opened Text
  import opened CardInput

  datatype Method = Method(id: string, title: string, subtitle: string, icon: string)

  /** `paymentMethods` of this screen, in display order. */
  const Methods: seq<Method> := [
    Method("card", "Credit Card", "Visa, Mastercard, Amex", "card-outline"),
    Method("apple", "Apple Pay", "Touch ID or Face ID", "logo-apple"),
    Method("google", "Google Pay", "Quick and secure payment", "logo-google"),
    Method("paypal", "PayPal", "Pay with your PayPal account", "card")
  ]

  predicate IsMethodId(id: string) {
    exists i :: 0 <= i < |Methods| && Methods[i].id == id
  }

  const DefaultMethod := "card"

  /** The product id the completion always navigates with. */
  const PaidProductId := "attica-bag"

  /** What a press of the pay button does. `Started` carries the method the pending
      timer will report when it fires. */
  datatype PaymentStart = AlreadyProcessing | ValidationError | Started(serviceType: string)

  /** The parameters of the `PhotoInstructions` navigation after a payment. */
  datatype InstructionsRoute = InstructionsRoute(serviceType: string, productId: string)

  /** The decision `handlePayment` takes from the screen state. */
  function PaymentDecision(isProcessing: bool, selected: string,
                           cardNumber: string, expiryDate: string, cvv: string, cardName: string): (o: PaymentStart)
    ensures isProcessing <==> o.AlreadyProcessing?
    ensures o.ValidationError? <==>
      !isProcessing && selected == "card" && !CardDetailsFilled(cardNumber, expiryDate, cvv, cardName)
    ensures o.Started? ==> o.serviceType == selected
    ensures selected != "card" && !isProcessing ==> o == Started(selected)
  {
    if isProcessing then AlreadyProcessing
    else if selected == "card" && !CardDetailsFilled(cardNumber, expiryDate, cvv, cardName) then ValidationError
    else Started(selected)
  }

  class PaymentScreen {
    var selectedPayment: string
    var cardNumber: string
    var expiryDate: string
    var cvv: string
    var cardName: string
    var isProcessing: bool

    ghost predicate Valid()
      reads this
    {
      IsMethodId(selectedPayment)
    }

    constructor ()
      ensures Valid()
      ensures selectedPayment == DefaultMethod && !isProcessing
      ensures cardNumber == "" && expiryDate == "" && cvv == "" && cardName == ""
    {
      selectedPayment := DefaultMethod;
      cardNumber, expiryDate, cvv, cardName := "", "", "", "";
      isProcessing := false;
      assert Methods[0].id == DefaultMethod;
    }

    /** Pressing a payment method. */
    method SelectPayment(id: string)
      requires Valid() && IsMethodId(id)
      modifies this`selectedPayment
      ensures Valid() && selectedPayment == id
    {
      selectedPayment := id;
    }

    /** Typing in the card-number field (same formatter and guard as the package screen). */
    method TypeCardNumber(text: string)
      modifies this`cardNumber
      ensures cardNumber == StoreCardNumber(old(cardNumber), text)
    {
      cardNumber := StoreCardNumber(cardNumber, text);
    }

    /** Typing in the expiry field. */
    method TypeExpiry(text: string)
      modifies this`expiryDate
      ensures expiryDate == FormatExpiryDate(text)
    {
      StoreExpiryAlwaysAccepts(expiryDate, text);
      expiryDate := StoreExpiry(expiryDate, text);
    }

    /** Typing in the CVV field: this screen stores the text as typed, unfiltered. */
    method TypeCvv(text: string)
      modifies this`cvv
      ensures cvv == text
    {
      cvv := text;
    }

    method TypeCardName(text: string)
      modifies this`cardName
      ensures cardName == text
    {
      cardName := text;
    }

    /** `handlePayment` up to the timer: ignored while processing; with a card and a
        blank field it reports the error and leaves `isProcessing` false; otherwise
        processing starts. */
    method HandlePayment() returns (o: PaymentStart)
      modifies this`isProcessing
      ensures o == PaymentDecision(old(isProcessing), selectedPayment, cardNumber, expiryDate, cvv, cardName)
      ensures isProcessing <==> !o.ValidationError?
      ensures old(isProcessing) ==> isProcessing
    {
      if isProcessing {
        return AlreadyProcessing;
      }
      isProcessing := true;
      if selectedPayment == "card" && !CardDetailsFilled(cardNumber, expiryDate, cvv, cardName) {
        isProcessing := false;
        return ValidationError;
      }
      o := Started(selectedPayment);
    }

    /** The timer of a started payment fires: processing ends, and Continue navigates
        with the method that was selected when the payment started. */
    method CompletePayment(started: PaymentStart) returns (route: InstructionsRoute)
      requires started.Started?
      modifies this`isProcessing
      ensures !isProcessing
      ensures route == InstructionsRoute(started.serviceType, PaidProductId)
    {
      isProcessing := false;
      route := InstructionsRoute(started.serviceType, PaidProductId);
    }
  }

  /** Whatever the card fields hold, a method other than the card is never stopped by
      validation, and a started payment always reports a method of the table. */
  lemma NonCardBypassesValidation(selected: string, cardNumber: string, expiryDate: string, cvv: string, cardName: string)
    requires IsMethodId(selected) && selected != "card"
    ensures PaymentDecision(false, selected, cardNumber, expiryDate, cvv, cardName) == Started(selected)
    ensures IsMethodId(PaymentDecision(false, selected, cardNumber, expiryDate, cvv, cardName).serviceType)
  {
  }

  /** A card payment with every field blank never starts. */
  lemma BlankCardNeverStarts(isProcessing: bool)
    ensures !PaymentDecision(isProcessing, "card", "", "", "", "").Started?
  {
    assert !CardDetailsFilled("", "", "", "");
  }
}
