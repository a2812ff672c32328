/** Properties that join the two checkout pages: the recipient step's
    catalogue against the payment step's, and the selection carried from one
    page to the next in the address. */
module Checkout {
  import opened Shared
  import Query
  import RecipientStep
  import PaymentStep

  /** The payment step's lookup of a package's id gives back that package. */
  predicate ResolvesToItself(p: Package) {
    PaymentStep.Resolve(p.id) == Some(p)
  }

  lemma MtnPackagesResolve(k: nat)
    requires k < |RecipientStep.Catalogue["mtn"]|
    ensures ResolvesToItself(RecipientStep.Catalogue["mtn"][k])
    ensures Query.IsPlain(RecipientStep.Catalogue["mtn"][k].id)
  {
    assert ResolvesToItself(RecipientStep.Catalogue["mtn"][0]);
  }

  lemma AirtelTigoPackagesResolve(k: nat)
    requires k < |RecipientStep.Catalogue["airteltigo"]|
    ensures ResolvesToItself(RecipientStep.Catalogue["airteltigo"][k])
    ensures Query.IsPlain(RecipientStep.Catalogue["airteltigo"][k].id)
  {
    assert ResolvesToItself(RecipientStep.Catalogue["airteltigo"][0]);
  }

  lemma TelecelPackagesResolve(k: nat)
    requires k < |RecipientStep.Catalogue["telecel"]|
    ensures ResolvesToItself(RecipientStep.Catalogue["telecel"][k])
    ensures Query.IsPlain(RecipientStep.Catalogue["telecel"][k].id)
  {
    assert ResolvesToItself(RecipientStep.Catalogue["telecel"][0]);
  }

  lemma WasscePackagesResolve(k: nat)
    requires k < |RecipientStep.Catalogue["wassce"]|
    ensures ResolvesToItself(RecipientStep.Catalogue["wassce"][k])
    ensures Query.IsPlain(RecipientStep.Catalogue["wassce"][k].id)
  {
    assert ResolvesToItself(RecipientStep.Catalogue["wassce"][0]);
  }

  lemma BecePackagesResolve(k: nat)
    requires k < |RecipientStep.Catalogue["bece"]|
    ensures ResolvesToItself(RecipientStep.Catalogue["bece"][k])
    ensures Query.IsPlain(RecipientStep.Catalogue["bece"][k].id)
  {
    assert ResolvesToItself(RecipientStep.Catalogue["bece"][0]);
  }

  /** Every package the recipient step lists resolves, in the payment step's
      catalogue, to the very same package (same service, price and texts),
      and its id and service key need no escaping in an address. */
  lemma ListedPackageResolves(serviceId: string, k: nat)
    requires k < |RecipientStep.Packages(serviceId)|
    ensures ResolvesToItself(RecipientStep.Packages(serviceId)[k])
    ensures Query.IsPlain(RecipientStep.Packages(serviceId)[k].id)
    ensures Query.IsPlain(serviceId)
  {
    if serviceId == "mtn" {
      MtnPackagesResolve(k);
    } else if serviceId == "airteltigo" {
      AirtelTigoPackagesResolve(k);
    } else if serviceId == "telecel" {
      TelecelPackagesResolve(k);
    } else if serviceId == "wassce" {
      WasscePackagesResolve(k);
    } else {
      BecePackagesResolve(k);
    }
  }

  /** Conversely, every package the payment step knows is listed by the
      recipient step under its own service. */
  lemma ResolvedPackageListed(packageId: string)
    requires packageId in PaymentStep.Catalogue
    ensures var p := PaymentStep.Catalogue[packageId];
            p in RecipientStep.Packages(p.serviceId)
  {
  }

  /** Continuing from the recipient step with a plain number of at least 10
      characters and a listed package navigates to an address from which the
      payment step reads back the same service, package and recipient, and
      resolves the package to the one selected, so the gateway is asked for
      exactly its price. */
  lemma ContinueThenPay(serviceId: string, number: string, k: nat)
    requires k < |RecipientStep.Packages(serviceId)|
    requires |number| >= 10 && Query.IsPlain(number)
    ensures var pkg := RecipientStep.Packages(serviceId)[k];
            var o := RecipientStep.ContinueOutcome(serviceId, number, Some(pkg));
            o.Proceed? &&
            var search := Query.SearchOf(o.target);
            Query.ParamOr(search, "service") == serviceId &&
            Query.ParamOr(search, "package") == pkg.id &&
            Query.ParamOr(search, "recipient") == number &&
            PaymentStep.Resolve(Query.ParamOr(search, "package")) == Some(pkg) &&
            PaymentStep.Amount(PaymentStep.Resolve(Query.ParamOr(search, "package"))) == pkg.price
  {
    var pkg := RecipientStep.Packages(serviceId)[k];
    var target := Query.PaymentTarget(serviceId, pkg.id, number);
    assert RecipientStep.ContinueOutcome(serviceId, number, Some(pkg)) == RecipientStep.Proceed(target);
    Query.PaymentTargetRoundTrip(serviceId, pkg.id, number);
    ListedPackageResolves(serviceId, k);
    var package := Query.ParamOr(Query.SearchOf(target), "package");
    assert package == pkg.id;
    assert PaymentStep.Resolve(package) == Some(pkg);
  }

  /** The result-checker services have a display name only on the recipient
      page; the payment page falls back to the raw id. */
  lemma CheckerNamesDiffer()
    ensures RecipientStep.ServiceName("wassce") == "WASSCE Checker"
    ensures PaymentStep.ServiceName("wassce") == "wassce"
    ensures RecipientStep.ServiceName("bece") == "BECE Checker"
    ensures PaymentStep.ServiceName("bece") == "bece"
  {
  }
}
