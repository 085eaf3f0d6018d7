/** The package-and-payment screen shown before photo capture: the fixed package
    and payment-method tables, the card form fields with their input filters, and
    the Continue gate that demands complete card details only for credit cards. */
module ProductAuthSelection {
  import opened Wrappers
  import opened Text
  import opened CardInput

  datatype PaymentMethod = PaymentMethod(id: string, name: string, icon: string)

  datatype Package = Package(id: string, title: string, time: string, badge: string, price: nat)

  /** `paymentMethods`, in display order. */
  const PaymentMethods: seq<PaymentMethod> := [
    PaymentMethod("google", "Google Pay", "logo-google"),
    PaymentMethod("apple", "Apple Pay", "logo-apple"),
    PaymentMethod("paypal", "PayPal", "logo-paypal"),
    PaymentMethod("credit", "Credit Card", "card-outline")
  ]

  /** `packages`, in display order (colours are presentation only). */
  const Packages: seq<Package> := [
    Package("basic", "Basic Check", "10-20 min Check", "Fast", 300),
    Package("certificate", "Earn Certificate", "30-40 min Check", "Medium", 750),
    Package("expert", "Expert Review", "1-2 days Check", "Premium", 1500)
  ]

  const DefaultPaymentMethod := "credit"
  const DefaultPackage := "basic"
  const DefaultBrandName := "ALEXANDER WANG"
  const DefaultProductName := "Attica Bag"

  /** `packages.find(p => p.id === id)`: the first package with that id. */
  function FindPackage(id: string): (r: Option<Package>)
    ensures r.None? <==> forall i :: 0 <= i < |Packages| ==> Packages[i].id != id
    ensures r.Some? ==> r.value in Packages && r.value.id == id
  {
    if Packages[0].id == id then Some(Packages[0])
    else if Packages[1].id == id then Some(Packages[1])
    else if Packages[2].id == id then Some(Packages[2])
    else None
  }

  /** `paymentMethods.find(m => m.id === id)`. */
  function FindPaymentMethod(id: string): (r: Option<PaymentMethod>)
    ensures r.None? <==> forall i :: 0 <= i < |PaymentMethods| ==> PaymentMethods[i].id != id
    ensures r.Some? ==> r.value in PaymentMethods && r.value.id == id
  {
    if PaymentMethods[0].id == id then Some(PaymentMethods[0])
    else if PaymentMethods[1].id == id then Some(PaymentMethods[1])
    else if PaymentMethods[2].id == id then Some(PaymentMethods[2])
    else if PaymentMethods[3].id == id then Some(PaymentMethods[3])
    else None
  }

  predicate IsPackageId(id: string) { FindPackage(id).Some? }

  predicate IsPaymentMethodId(id: string) { FindPaymentMethod(id).Some? }

  /** The screen opens on the basic package, priced 300, paid by credit card. */
  lemma DefaultSelection()
    ensures FindPackage(DefaultPackage) == Some(Package("basic", "Basic Check", "10-20 min Check", "Fast", 300))
    ensures FindPaymentMethod(DefaultPaymentMethod) == Some(PaymentMethod("credit", "Credit Card", "card-outline"))
  {
  }

  /** The parameters `handleContinue` hands to the photo-capture screen. */
  datatype CaptureRoute = CaptureRoute(brandName: string, productName: string, price: nat, packageType: string, paymentMethod: string)

  /** The parameters `handleHowToCheck` hands to the instructions screen. */
  datatype InstructionsRoute = InstructionsRoute(brandName: string, productName: string, price: nat, packageType: string)

  datatype ContinueOutcome = MissingCardDetails | GoToCapture(route: CaptureRoute)

  class AuthSelectionScreen {
    const brandName: string
    const productName: string
    var selectedPaymentMethod: string
    var selectedPackage: string
    var cardNumber: string
    var expiryDate: string
    var cvv: string
    var cardName: string

    /** The selections always name table entries, since only table ids are offered. */
    ghost predicate Valid()
      reads this
    {
      IsPackageId(selectedPackage) && IsPaymentMethodId(selectedPaymentMethod)
    }

    /** Opening the screen; an absent route parameter takes its default. */
    constructor (brandParam: Option<string>, productParam: Option<string>)
      ensures Valid()
      ensures brandName == brandParam.GetOr(DefaultBrandName)
      ensures productName == productParam.GetOr(DefaultProductName)
      ensures selectedPaymentMethod == DefaultPaymentMethod && selectedPackage == DefaultPackage
      ensures cardNumber == "" && expiryDate == "" && cvv == "" && cardName == ""
    {
      brandName := brandParam.GetOr(DefaultBrandName);
      productName := productParam.GetOr(DefaultProductName);
      selectedPaymentMethod := DefaultPaymentMethod;
      selectedPackage := DefaultPackage;
      cardNumber, expiryDate, cvv, cardName := "", "", "", "";
    }

    /** Pressing a package card. */
    method SelectPackage(id: string)
      requires Valid() && IsPackageId(id)
      modifies this`selectedPackage
      ensures Valid() && selectedPackage == id
    {
      selectedPackage := id;
    }

    /** Pressing a payment method in the modal. */
    method SelectPaymentMethod(id: string)
      requires Valid() && IsPaymentMethodId(id)
      modifies this`selectedPaymentMethod
      ensures Valid() && selectedPaymentMethod == id
    {
      selectedPaymentMethod := id;
    }

    /** Typing in the card-number field. */
    method TypeCardNumber(text: string)
      modifies this`cardNumber
      ensures cardNumber == StoreCardNumber(old(cardNumber), text)
      ensures |old(cardNumber)| <= 19 ==> |cardNumber| <= 19
    {
      cardNumber := StoreCardNumber(cardNumber, text);
    }

    /** Typing in the expiry field: the formatted text is always stored. */
    method TypeExpiry(text: string)
      modifies this`expiryDate
      ensures expiryDate == FormatExpiryDate(text)
    {
      StoreExpiryAlwaysAccepts(expiryDate, text);
      expiryDate := StoreExpiry(expiryDate, text);
    }

    /** Typing in the CVV field: only the digits are kept. */
    method TypeCvv(text: string)
      modifies this`cvv
      ensures cvv == FilterCvv(text) && AllDigits(cvv)
    {
      cvv := FilterCvv(text);
    }

    /** Typing the cardholder name: stored as typed. */
    method TypeCardName(text: string)
      modifies this`cardName
      ensures cardName == text
    {
      cardName := text;
    }

    /** The Save Card button closes the form only when every card field is filled. */
    function SaveCardAccepted(): (ok: bool)
      reads this
      ensures ok <==> HasNonWhitespace(cardNumber) && HasNonWhitespace(expiryDate)
                      && HasNonWhitespace(cvv) && HasNonWhitespace(cardName)
    {
      CardDetailsFilledIff(cardNumber, expiryDate, cvv, cardName);
      CardDetailsFilled(cardNumber, expiryDate, cvv, cardName)
    }

    /** `handleContinue`: with a credit card, any blank card field blocks; otherwise the
        capture screen gets the selected package's price and title and the method's name. */
    function Continue(): (o: ContinueOutcome)
      requires Valid()
      reads this
      ensures o.MissingCardDetails? <==>
        selectedPaymentMethod == "credit" && !CardDetailsFilled(cardNumber, expiryDate, cvv, cardName)
      ensures o.GoToCapture? ==>
        exists p, m ::
          && p in Packages && p.id == selectedPackage
          && m in PaymentMethods && m.id == selectedPaymentMethod
          && o.route == CaptureRoute(brandName, productName, p.price, p.title, m.name)
    {
      if selectedPaymentMethod == "credit" && !CardDetailsFilled(cardNumber, expiryDate, cvv, cardName) then
        MissingCardDetails
      else
        var p := FindPackage(selectedPackage).value;
        var m := FindPaymentMethod(selectedPaymentMethod).value;
        GoToCapture(CaptureRoute(brandName, productName, p.price, p.title, m.name))
    }

    /** `handleHowToCheck`: the instructions screen gets the selected package's price
        and title, whatever the card fields hold. */
    function HowToCheck(): (r: InstructionsRoute)
      requires Valid()
      reads this
      ensures exists p ::
        && p in Packages && p.id == selectedPackage
        && r == InstructionsRoute(brandName, productName, p.price, p.title)
    {
      var p := FindPackage(selectedPackage).value;
      InstructionsRoute(brandName, productName, p.price, p.title)
    }
  }

  /** A method other than the credit card never meets the card check, even with an
      empty card form. */
  lemma NonCardSkipsCardCheck(s: AuthSelectionScreen)
    requires s.Valid() && s.selectedPaymentMethod != "credit"
    ensures s.Continue().GoToCapture?
    ensures s.Continue().route.paymentMethod != "Credit Card"
  {
  }

  /** With the default basic package, Continue passes on the price 300 and the title
      "Basic Check". */
  lemma BasicPackageRoute(s: AuthSelectionScreen)
    requires s.Valid() && s.selectedPackage == DefaultPackage && s.Continue().GoToCapture?
    ensures s.Continue().route.price == 300 && s.Continue().route.packageType == "Basic Check"
  {
  }
}
