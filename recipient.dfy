/** The recipient/package step: the buyer enters the number that receives
    the bundle, picks one of the service's packages and continues to the
    payment step (client/src/pages/Recipient.tsx). */
module RecipientStep {
  import opened Shared
  import Query

  /** Packages offered per service, in display order. */
  const Catalogue: map<string, seq<Package>> := map[
    "mtn" := [
      Package("pkg-1", "mtn", "500MB Daily", "500MB", 300, "Valid for 24 hours"),
      Package("pkg-2", "mtn", "1GB Daily", "1GB", 500, "Valid for 24 hours"),
      Package("pkg-3", "mtn", "2GB Weekly", "2GB", 1200, "Valid for 7 days"),
      Package("pkg-4", "mtn", "5GB Weekly", "5GB", 2000, "Valid for 7 days"),
      Package("pkg-5", "mtn", "10GB Monthly", "10GB", 4500, "Valid for 30 days"),
      Package("pkg-6", "mtn", "20GB Monthly", "20GB", 8000, "Valid for 30 days"),
      Package("pkg-7", "mtn", "50GB Monthly", "50GB", 18000, "Valid for 30 days")
    ],
    "airteltigo" := [
      Package("pkg-8", "airteltigo", "500MB Daily", "500MB", 250, "Valid for 24 hours"),
      Package("pkg-9", "airteltigo", "1GB Daily", "1GB", 450, "Valid for 24 hours"),
      Package("pkg-10", "airteltigo", "3GB Weekly", "3GB", 1500, "Valid for 7 days"),
      Package("pkg-11", "airteltigo", "6GB Weekly", "6GB", 2500, "Valid for 7 days"),
      Package("pkg-12", "airteltigo", "12GB Monthly", "12GB", 5000, "Valid for 30 days"),
      Package("pkg-13", "airteltigo", "25GB Monthly", "25GB", 9500, "Valid for 30 days")
    ],
    "telecel" := [
      Package("pkg-14", "telecel", "500MB Daily", "500MB", 280, "Valid for 24 hours"),
      Package("pkg-15", "telecel", "1GB Daily", "1GB", 500, "Valid for 24 hours"),
      Package("pkg-16", "telecel", "2.5GB Weekly", "2.5GB", 1300, "Valid for 7 days"),
      Package("pkg-17", "telecel", "5GB Weekly", "5GB", 2200, "Valid for 7 days"),
      Package("pkg-18", "telecel", "8GB Monthly", "8GB", 3500, "Valid for 30 days"),
      Package("pkg-19", "telecel", "15GB Monthly", "15GB", 6500, "Valid for 30 days"),
      Package("pkg-20", "telecel", "30GB Monthly", "30GB", 12000, "Valid for 30 days")
    ],
    "wassce" := [
      Package("pkg-21", "wassce", "Single Result Check", "1 Check", 800, "Instant access"),
      Package("pkg-22", "wassce", "3 Results Check", "3 Checks", 2000, "Valid for 7 days")
    ],
    "bece" := [
      Package("pkg-23", "bece", "Single Result Check", "1 Check", 600, "Instant access"),
      Package("pkg-24", "bece", "3 Results Check", "3 Checks", 1500, "Valid for 7 days")
    ]
  ]

  const ServiceNames: map<string, string> := map[
    "mtn" := "MTN",
    "airteltigo" := "AirtelTigo",
    "telecel" := "Telecel",
    "wassce" := "WASSCE Checker",
    "bece" := "BECE Checker"
  ]

  /** The heading names the service, or shows its raw id when the id has no
      display name. */
  function ServiceName(serviceId: string): string {
    DisplayName(ServiceNames, serviceId)
  }

  /** The packages listed for a service: its catalogue entry, or none for an
      unknown service. Every listed package belongs to that service and no
      id is listed twice. */
  function Packages(serviceId: string): (r: seq<Package>)
    ensures serviceId in Catalogue ==> r == Catalogue[serviceId]
    ensures serviceId !in Catalogue ==> r == []
    ensures forall k :: 0 <= k < |r| ==> r[k].serviceId == serviceId
    ensures forall j, k :: 0 <= j < k < |r| ==> r[j].id != r[k].id
  {
    if serviceId in Catalogue then Catalogue[serviceId] else []
  }

  /** The messages `handleContinue` can set. */
  const PhoneError := "Please enter a valid phone number"
  const PackageError := "Please select a package"

  /** What pressing "Proceed to Payment" does with the current inputs. */
  datatype Continue = Rejected(message: string) | Proceed(target: string)

  /** The guard chain of `handleContinue`: the number rule first, then the
      package rule; only when both pass is the payment address built. */
  function ContinueOutcome(serviceId: string, number: string, selected: Option<Package>): (r: Continue)
    ensures r.Proceed? <==> |number| >= 10 && selected.Some?
    ensures |number| < 10 ==> r == Rejected(PhoneError)
    ensures |number| >= 10 && selected.None? ==> r == Rejected(PackageError)
    ensures r.Proceed? ==> r.target == Query.PaymentTarget(serviceId, selected.value.id, number)
    ensures r.Rejected? ==> r.message != ""
  {
    if number == "" || |number| < 10 then Rejected(PhoneError)
    else if selected.None? then Rejected(PackageError)
    else Proceed(Query.PaymentTarget(serviceId, selected.value.id, number))
  }

  /** The error handed to the phone field: shown only while the field is
      empty. */
  function FieldError(error: string, number: string): (r: string)
    ensures r != "" <==> error != "" && number == ""
    ensures r != "" ==> r == error
  {
    if error != "" && number == "" then error else ""
  }

  /** The page-level error line appears only with neither a number nor a
      package. */
  predicate PageErrorShown(error: string, number: string, selected: Option<Package>) {
    error != "" && number == "" && selected.None?
  }

  /** A message set by `handleContinue` is displayed somewhere exactly when the
      number is empty: a short non-empty number, and every "select a
      package" message, set an error that neither display shows. */
  lemma RejectionDisplayed(serviceId: string, number: string, selected: Option<Package>)
    requires ContinueOutcome(serviceId, number, selected).Rejected?
    ensures var e := ContinueOutcome(serviceId, number, selected).message;
            (FieldError(e, number) != "" || PageErrorShown(e, number, selected)) <==> number == ""
    ensures number == "" ==> FieldError(ContinueOutcome(serviceId, number, selected).message, number) == PhoneError
  {
  }

  /** A service without packages never proceeds: no package can be
      selected for it. */
  lemma UnknownServiceCannotProceed(serviceId: string, number: string, selected: Option<Package>)
    requires serviceId !in Catalogue
    requires selected.Some? ==> selected.value in Packages(serviceId)
    ensures ContinueOutcome(serviceId, number, selected).Rejected?
  {
  }

  /** The state of the recipient page. `navigations` records the addresses
      navigated to. */
  class RecipientPage {
    const serviceId: string
    var recipientNumber: string
    var selectedPackage: Option<Package>
    var error: string
    ghost var navigations: seq<string>

    /** A selected package is one listed for the service, and a non-empty
        error is the one the current inputs would raise again. */
    ghost predicate Valid()
      reads this
    {
      (selectedPackage.Some? ==> selectedPackage.value in Packages(serviceId)) &&
      (error != "" ==> ContinueOutcome(serviceId, recipientNumber, selectedPackage) == Rejected(error))
    }

    /** The page opens with the `service` query parameter (empty when
        missing), no number, no package and no error. */
    constructor (search: string)
      ensures serviceId == Query.ParamOr(search, "service")
      ensures recipientNumber == "" && selectedPackage == None && error == ""
      ensures navigations == []
      ensures Valid()
    {
      serviceId := Query.ParamOr(search, "service");
      recipientNumber := "";
      selectedPackage := None;
      error := "";
      navigations := [];
    }

    /** Editing the phone field stores the value and clears the error. */
    method EditRecipient(value: string)
      requires Valid()
      modifies this
      ensures Valid()
      ensures recipientNumber == value && error == ""
      ensures selectedPackage == old(selectedPackage) && navigations == old(navigations)
    {
      recipientNumber := value;
      error := "";
    }

    /** Clicking a listed package selects it and clears the error. */
    method SelectPackage(pkg: Package)
      requires Valid()
      requires pkg in Packages(serviceId)
      modifies this
      ensures Valid()
      ensures selectedPackage == Some(pkg) && error == ""
      ensures recipientNumber == old(recipientNumber) && navigations == old(navigations)
    {
      selectedPackage := Some(pkg);
      error := "";
    }

    /** `handleContinue`: sets exactly the first failing rule's message, or
        navigates once to the payment address. */
    method HandleContinue()
      requires Valid()
      modifies this
      ensures Valid()
      ensures recipientNumber == old(recipientNumber) && selectedPackage == old(selectedPackage)
      ensures match ContinueOutcome(serviceId, recipientNumber, selectedPackage)
              case Rejected(m) => error == m && navigations == old(navigations)
              case Proceed(t) => error == "" && navigations == old(navigations) + [t]
    {
      if recipientNumber == "" || |recipientNumber| < 10 {
        error := PhoneError;
        return;
      }
      if selectedPackage.None? {
        error := PackageError;
        return;
      }
      navigations := navigations + [Query.PaymentTarget(serviceId, selectedPackage.value.id, recipientNumber)];
    }
  }
}
