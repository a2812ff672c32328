/** The payment step: the buyer picks a mobile-money network and payer
    number, the backend creates an order, the payment gateway's popup
    collects the money and the backend verifies the payment
    (client/src/pages/Payment.tsx). The backend, the gateway and the loading
    of the gateway script are outside the model: their answers are the
    arguments of the event methods, and what the page sends to them is
    recorded in ghost logs. */
module PaymentStep {
  import opened Shared
  import Query

  /** Packages by id; prices in pesewas. */
  const Catalogue: map<string, Package> := map[
    "pkg-1" := Package("pkg-1", "mtn", "500MB Daily", "500MB", 300, "Valid for 24 hours"),
    "pkg-2" := Package("pkg-2", "mtn", "1GB Daily", "1GB", 500, "Valid for 24 hours"),
    "pkg-3" := Package("pkg-3", "mtn", "2GB Weekly", "2GB", 1200, "Valid for 7 days"),
    "pkg-4" := Package("pkg-4", "mtn", "5GB Weekly", "5GB", 2000, "Valid for 7 days"),
    "pkg-5" := Package("pkg-5", "mtn", "10GB Monthly", "10GB", 4500, "Valid for 30 days"),
    "pkg-6" := Package("pkg-6", "mtn", "20GB Monthly", "20GB", 8000, "Valid for 30 days"),
    "pkg-7" := Package("pkg-7", "mtn", "50GB Monthly", "50GB", 18000, "Valid for 30 days"),
    "pkg-8" := Package("pkg-8", "airteltigo", "500MB Daily", "500MB", 250, "Valid for 24 hours"),
    "pkg-9" := Package("pkg-9", "airteltigo", "1GB Daily", "1GB", 450, "Valid for 24 hours"),
    "pkg-10" := Package("pkg-10", "airteltigo", "3GB Weekly", "3GB", 1500, "Valid for 7 days"),
    "pkg-11" := Package("pkg-11", "airteltigo", "6GB Weekly", "6GB", 2500, "Valid for 7 days"),
    "pkg-12" := Package("pkg-12", "airteltigo", "12GB Monthly", "12GB", 5000, "Valid for 30 days"),
    "pkg-13" := Package("pkg-13", "airteltigo", "25GB Monthly", "25GB", 9500, "Valid for 30 days"),
    "pkg-14" := Package("pkg-14", "telecel", "500MB Daily", "500MB", 280, "Valid for 24 hours"),
    "pkg-15" := Package("pkg-15", "telecel", "1GB Daily", "1GB", 500, "Valid for 24 hours"),
    "pkg-16" := Package("pkg-16", "telecel", "2.5GB Weekly", "2.5GB", 1300, "Valid for 7 days"),
    "pkg-17" := Package("pkg-17", "telecel", "5GB Weekly", "5GB", 2200, "Valid for 7 days"),
    "pkg-18" := Package("pkg-18", "telecel", "8GB Monthly", "8GB", 3500, "Valid for 30 days"),
    "pkg-19" := Package("pkg-19", "telecel", "15GB Monthly", "15GB", 6500, "Valid for 30 days"),
    "pkg-20" := Package("pkg-20", "telecel", "30GB Monthly", "30GB", 12000, "Valid for 30 days"),
    "pkg-21" := Package("pkg-21", "wassce", "Single Result Check", "1 Check", 800, "Instant access"),
    "pkg-22" := Package("pkg-22", "wassce", "3 Results Check", "3 Checks", 2000, "Valid for 7 days"),
    "pkg-23" := Package("pkg-23", "bece", "Single Result Check", "1 Check", 600, "Instant access"),
    "pkg-24" := Package("pkg-24", "bece", "3 Results Check", "3 Checks", 1500, "Valid for 7 days")
  ]

  const ServiceNames: map<string, string> := map[
    "mtn" := "MTN",
    "airteltigo" := "AirtelTigo",
    "telecel" := "Telecel"
  ]

  /** The currency every gateway payment is made in. */
  const Currency := "GHS"

  /** The summary names the service, or shows its raw id when the id has no
      display name. */
  function ServiceName(serviceId: string): string {
    DisplayName(ServiceNames, serviceId)
  }

  /** `MOCK_PACKAGES[packageId]`: a found package is the one with that id. */
  function Resolve(packageId: string): (r: Option<Package>)
    ensures r.Some? <==> packageId in Catalogue
    ensures r.Some? ==> r.value == Catalogue[packageId] && r.value.id == packageId
  {
    if packageId in Catalogue then Some(Catalogue[packageId]) else None
  }

  /** `selectedPackage?.price || 0`: the amount handed to the gateway, in
      pesewas. */
  function Amount(selected: Option<Package>): nat {
    match selected
    case Some(p) => p.price
    case None => 0
  }

  /** The amount charged for a package id is the catalogue price of that
      package; every catalogue price is positive, so the amount is 0 exactly
      when the id does not resolve. */
  lemma AmountOfPackageId(packageId: string)
    ensures packageId in Catalogue ==> Amount(Resolve(packageId)) == Catalogue[packageId].price
    ensures Amount(Resolve(packageId)) == 0 <==> packageId !in Catalogue
  {
  }

  /** The e-mail address the gateway is given, made up from the order id. */
  function Email(orderId: string): string {
    "customer" + orderId + "@triversa.com"
  }

  /** Distinct orders give the gateway distinct e-mail addresses. */
  lemma EmailInjective(a: string, b: string)
    requires Email(a) == Email(b)
    ensures a == b
  {
    var ea, eb := Email(a), Email(b);
    assert |a| == |b|;
    forall i | 0 <= i < |a|
      ensures a[i] == b[i]
    {
      assert ea[8 + i] == a[i];
      assert eb[8 + i] == b[i];
    }
  }

  /** A notification shown to the buyer. */
  datatype Toast = Toast(title: string, description: string)

  const NetworkToast := Toast("Error", "Please select a payment network")
  const NumberToast := Toast("Error", "Please enter a valid payment number")
  const LoadingToast := Toast("Error", "Payment system is loading, please try again")
  const InitErrorToast := Toast("Payment Error", "Could not initialize payment, please try again")
  const CancelledToast := Toast("Payment Cancelled", "You closed the payment window")
  const FailedToast := Toast("Payment Failed", "Your payment was not successful")
  const VerifyErrorToast := Toast("Verification Error", "Could not verify payment, please contact support")

  /** A backend request: `POST /api/payment/initialize` with its body, or
      `GET /api/payment/verify/<reference>`. */
  datatype Request =
    | Initialize(serviceId: string, packageId: string, recipientNumber: string,
                 paymentNumber: string, paymentNetwork: string)
    | Verify(reference: string)

  /** The answer to the initialise request: an order id and a gateway
      reference, or an error: a transport failure, an error status, an
      unreadable body, or an exception thrown by the gateway's `setup` or
      `openIframe` after the request was sent. All of these land in the same
      `catch`, so the user sees the same toast. */
  datatype InitResult = InitOk(orderId: string, reference: string) | InitFailed

  /** The answer to the verify request. */
  datatype VerifyResult = VerifyStatus(status: string) | VerifyFailed

  /** What the gateway popup is opened with (the public key is left out). */
  datatype GatewayConfig = GatewayConfig(email: string, amount: nat, currency: string, reference: string)

  /** The guard chain of `handlePayment`, in source order: network chosen,
      then a payer number of at least 10 characters, then the gateway script
      loaded. The result is the first failing guard's toast, or None when all
      three pass. */
  function PaymentGuard(network: string, number: string, loaded: bool): (r: Option<Toast>)
    ensures r.None? <==> network != "" && |number| >= 10 && loaded
    ensures network == "" ==> r == Some(NetworkToast)
    ensures network != "" && |number| < 10 ==> r == Some(NumberToast)
    ensures network != "" && |number| >= 10 && !loaded ==> r == Some(LoadingToast)
  {
    if network == "" then Some(NetworkToast)
    else if number == "" || |number| < 10 then Some(NumberToast)
    else if !loaded then Some(LoadingToast)
    else None
  }

  /** `disabled={isProcessing || !paystackLoaded}` on the buy button. */
  predicate BuyEnabled(isProcessing: bool, paystackLoaded: bool) {
    !isProcessing && paystackLoaded
  }

  /** From an enabled buy button the script guard never fires: the loading
      message is reachable only by calling the handler directly. */
  lemma EnabledBuyPassesScriptGuard(isProcessing: bool, paystackLoaded: bool, network: string, number: string)
    requires BuyEnabled(isProcessing, paystackLoaded)
    ensures PaymentGuard(network, number, paystackLoaded) != Some(LoadingToast)
  {
  }

  /** Worked examples: 12.00 GHS is charged as 1200 pesewas, 2.50 GHS
      as 250, and an unknown package as 0. */
  lemma GatewayAmountExamples()
    ensures Amount(Resolve("pkg-3")) == 1200
    ensures Amount(Resolve("pkg-8")) == 250
    ensures Amount(Resolve("pkg-25")) == 0
  {
  }

  /** The address of the success view. */
  function SuccessTarget(reference: string): string {
    "/success?reference=" + reference
  }

  lemma SuccessTargetEncodes(reference: string)
    ensures SuccessTarget(reference) == "/success" + ['?'] + Query.Encode([("reference", reference)])
  {
  }


  /** The success view reads back the reference it was given. */
  lemma SuccessTargetRoundTrip(reference: string)
    requires Query.IsPlain(reference)
    ensures Query.ParamOr(Query.SearchOf(SuccessTarget(reference)), "reference") == reference
  {
    var pairs := [("reference", reference)];
    var url := SuccessTarget(reference);
    SuccessTargetEncodes(reference);
    Query.IndexOfFirst("/success", '?', Query.Encode(pairs));
    assert url[8..] == "?" + Query.Encode(pairs);
    assert Query.SearchOf(url) == "?" + Query.Encode(pairs);
    assert Query.PlainPair(pairs[0]);
    Query.ParamsEncode(pairs);
  }

  /** How the page reacts to the verification answer. */
  datatype Reaction = Navigate(target: string) | Notify(toast: Toast)

  /** The verification outcome: status "success" navigates to the success
      view with the callback's reference; any other status shows the failure
      toast; a failed request shows the verification-error toast, which is
      distinct from the failure toast. */
  function VerifyReaction(reference: string, result: VerifyResult): (r: Reaction)
    ensures r.Navigate? <==> result == VerifyStatus("success")
    ensures r.Navigate? ==> r.target == SuccessTarget(reference)
    ensures result.VerifyStatus? && result.status != "success" ==> r == Notify(FailedToast)
    ensures result.VerifyFailed? ==> r == Notify(VerifyErrorToast) && r != Notify(FailedToast)
  {
    match result
    case VerifyStatus(status) =>
      if status == "success" then Navigate(SuccessTarget(reference)) else Notify(FailedToast)
    case VerifyFailed => Notify(VerifyErrorToast)
  }

  /** The state of the payment page. The service, package and recipient come
      from the address and do not change; `requests`, `toasts`, `gateways`
      and `navigations` log what the page sent to the backend, showed,
      opened and navigated to. */
  class PaymentPage {
    const serviceId: string
    const packageId: string
    const recipientNumber: string
    const selectedPackage: Option<Package>
    var paymentNetwork: string
    var paymentNumber: string
    var isProcessing: bool
    var paystackLoaded: bool
    ghost var requests: seq<Request>
    ghost var toasts: seq<Toast>
    ghost var gateways: seq<GatewayConfig>
    ghost var navigations: seq<string>

    /** An initialise request is sent only with the page's selection and a
        payer network and number that passed the guards; the selected package
        is the one the package id resolves to, and every popup is opened for
        its amount in pesewas; the script had
        loaded before any request or popup; processing goes on only once a popup was
        opened. */
    ghost predicate Valid()
      reads this
    {
      selectedPackage == Resolve(packageId) &&
      (requests != [] ==> paystackLoaded) &&
      (gateways != [] ==> requests != []) &&
      (isProcessing ==> gateways != []) &&
      (forall i :: 0 <= i < |requests| && requests[i].Initialize? ==>
         requests[i].serviceId == serviceId && requests[i].packageId == packageId &&
         requests[i].recipientNumber == recipientNumber &&
         requests[i].paymentNetwork != "" && |requests[i].paymentNumber| >= 10) &&
      (forall i :: 0 <= i < |gateways| ==>
         gateways[i].amount == Amount(selectedPackage) && gateways[i].currency == Currency)
    }

    /** The selection is read from the query string, a missing parameter
        reading as empty; nothing is chosen, processing or loaded yet. */
    constructor (search: string)
      ensures serviceId == Query.ParamOr(search, "service")
      ensures packageId == Query.ParamOr(search, "package")
      ensures recipientNumber == Query.ParamOr(search, "recipient")
      ensures selectedPackage == Resolve(packageId)
      ensures paymentNetwork == "" && paymentNumber == ""
      ensures !isProcessing && !paystackLoaded
      ensures requests == [] && toasts == [] && gateways == [] && navigations == []
      ensures Valid()
    {
      serviceId := Query.ParamOr(search, "service");
      var id := Query.ParamOr(search, "package");
      packageId := id;
      recipientNumber := Query.ParamOr(search, "recipient");
      selectedPackage := Resolve(id);
      paymentNetwork := "";
      paymentNumber := "";
      isProcessing := false;
      paystackLoaded := false;
      requests := [];
      toasts := [];
      gateways := [];
      navigations := [];
    }

    /** The network select's `onValueChange`. */
    method SelectNetwork(network: string)
      requires Valid()
      modifies this`paymentNetwork
      ensures Valid() && paymentNetwork == network
    {
      paymentNetwork := network;
    }

    /** The payer number field's `onChange`. */
    method EnterPaymentNumber(number: string)
      requires Valid()
      modifies this`paymentNumber
      ensures Valid() && paymentNumber == number
    {
      paymentNumber := number;
    }

    /** The gateway script's `onload`. */
    method ScriptLoaded()
      requires Valid()
      modifies this`paystackLoaded
      ensures Valid() && paystackLoaded
    {
      paystackLoaded := true;
    }

    /** `handlePayment`, with `init` the backend's answer to the initialise
        request. A failing guard shows its toast and nothing else happens;
        otherwise processing starts, one initialise request carries the
        selection and payer details unchanged, and either the popup opens
        with the package amount, "GHS" and the backend's reference, or the
        error toast is shown and processing stops. */
    method HandlePayment(init: InitResult)
      requires Valid()
      modifies this`isProcessing, this`requests, this`toasts, this`gateways
      ensures Valid()
      ensures PaymentGuard(paymentNetwork, paymentNumber, paystackLoaded).Some? ==>
                toasts == old(toasts) + [PaymentGuard(paymentNetwork, paymentNumber, paystackLoaded).value] &&
                requests == old(requests) && gateways == old(gateways) && isProcessing == old(isProcessing)
      ensures PaymentGuard(paymentNetwork, paymentNumber, paystackLoaded).None? ==>
                requests == old(requests) +
                  [Initialize(serviceId, packageId, recipientNumber, paymentNumber, paymentNetwork)]
      ensures PaymentGuard(paymentNetwork, paymentNumber, paystackLoaded).None? && init.InitOk? ==>
                isProcessing && !BuyEnabled(isProcessing, paystackLoaded) && toasts == old(toasts) &&
                gateways == old(gateways) + [GatewayConfig(Email(init.orderId), Amount(selectedPackage), Currency, init.reference)]
      ensures PaymentGuard(paymentNetwork, paymentNumber, paystackLoaded).None? && init.InitFailed? ==>
                !isProcessing && BuyEnabled(isProcessing, paystackLoaded) &&
                toasts == old(toasts) + [InitErrorToast] && gateways == old(gateways)
    {
      if paymentNetwork == "" {
        toasts := toasts + [NetworkToast];
        return;
      }
      if paymentNumber == "" || |paymentNumber| < 10 {
        toasts := toasts + [NumberToast];
        return;
      }
      if !paystackLoaded {
        toasts := toasts + [LoadingToast];
        return;
      }
      isProcessing := true;
      requests := requests + [Initialize(serviceId, packageId, recipientNumber, paymentNumber, paymentNetwork)];
      match init
      case InitOk(orderId, reference) =>
        gateways := gateways + [GatewayConfig(Email(orderId), Amount(selectedPackage), Currency, reference)];
      case InitFailed =>
        toasts := toasts + [InitErrorToast];
        isProcessing := false;
    }

    /** The popup's `onClose`: processing stops, the cancellation toast is
        shown, and no verification request is made. */
    method GatewayClosed()
      requires Valid() && gateways != []
      modifies this`isProcessing, this`toasts
      ensures Valid()
      ensures !isProcessing && BuyEnabled(isProcessing, paystackLoaded)
      ensures toasts == old(toasts) + [CancelledToast]
    {
      isProcessing := false;
      toasts := toasts + [CancelledToast];
    }

    /** The popup's `callback` with the reference it reports, followed by the
        verify request and `result`, its answer. Exactly one of navigating
        and showing a toast happens, and processing stops in every case.
        Nothing here refuses a second callback or one after `onClose`. */
    method GatewayCallback(reference: string, result: VerifyResult)
      requires Valid() && gateways != []
      modifies this`isProcessing, this`requests, this`toasts, this`navigations
      ensures Valid()
      ensures requests == old(requests) + [Verify(reference)]
      ensures !isProcessing && BuyEnabled(isProcessing, paystackLoaded)
      ensures match VerifyReaction(reference, result)
              case Navigate(target) => navigations == old(navigations) + [target] && toasts == old(toasts)
              case Notify(toast) => toasts == old(toasts) + [toast] && navigations == old(navigations)
    {
      requests := requests + [Verify(reference)];
      match result {
        case VerifyStatus(status) =>
          if status == "success" {
            navigations := navigations + [SuccessTarget(reference)];
          } else {
            toasts := toasts + [FailedToast];
          }
        case VerifyFailed =>
          toasts := toasts + [VerifyErrorToast];
      }
      isProcessing := false;
    }
  }

  /** Nothing makes the popup's outcomes exclusive or once-only: after
      `onClose`, a successful callback still verifies and navigates, and a
      second one does both again. */
  method CallbackIsNotOnceOnly(page: PaymentPage, reference: string)
    requires page.Valid() && page.gateways != []
    modifies page
    ensures page.requests == old(page.requests) + [Verify(reference), Verify(reference)]
    ensures page.navigations == old(page.navigations) + [SuccessTarget(reference), SuccessTarget(reference)]
    ensures !page.isProcessing
  {
    page.GatewayClosed();
    page.GatewayCallback(reference, VerifyStatus("success"));
    page.GatewayCallback(reference, VerifyStatus("success"));
  }
}
