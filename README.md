# Checkout funnel: recipient step and payment step

This project models the two pages of a mobile-data checkout that hold real
control flow, and proves properties of that model in Dafny.

- **Recipient step** (`client/src/pages/Recipient.tsx`). The buyer enters the
  number that receives the bundle and picks one of the service's packages.
  `handleContinue` checks the number first (non-empty, at least 10
  characters) and the package second. It sets the first failing rule's
  message, or navigates to
  `/payment?service=<id>&package=<id>&recipient=<number>`. Editing the number
  or clicking a package clears the error.
- **Payment step** (`client/src/pages/Payment.tsx`). The page reads the
  selection from the query string. `handlePayment` checks the network, then
  the payer number, then that the gateway script has loaded. It then raises
  the processing flag and sends one initialise request to the backend. On
  success it opens the gateway popup with the package price in pesewas,
  currency "GHS" and the backend's reference. The popup's `onClose` and
  `callback` handlers, and the verification that follows a callback, decide
  what is navigated to, which toast is shown and when processing stops.

Modules, one per concern:

- `Shared` (`shared.dfy`): `Option`, the `Package` record, and
  `DisplayName`, the `names[id] || id` fallback both pages use for a
  service's shown name. Prices are integer pesewas, so 12.00 GHS is 1200.
- `Query` (`query.dfy`): building the payment address and reading query
  parameters back. It has a simplified `URLSearchParams` (split on `&`, then
  on the first `=`; empty pieces skipped; first match wins; a missing
  parameter reads as empty). It proves the decode/encode round trip.
- `RecipientStep` (`recipient.dfy`): the recipient page's catalogue and
  display names, the `handleContinue` outcome, the error-display predicates,
  and the page as a class with the fields `recipientNumber`,
  `selectedPackage` and `error`.
- `PaymentStep` (`payment.dfy`): the payment page's catalogue and display
  names, the guard chain, the amount, the verification reaction, and the page
  as a class with the fields `isProcessing` and `paystackLoaded`.
  The backend, the gateway and the script loader are outside the model.
  Their answers are the arguments of the event methods (`HandlePayment(init)`,
  `GatewayClosed()`, `GatewayCallback(reference, result)`, `ScriptLoaded()`).
  What the page sends out is kept in ghost logs: backend requests, toasts,
  opened popups and navigations.
- `Checkout` (`checkout.dfy`): properties that join the pages. The two
  catalogues agree. A continue from the recipient page leads to a payment
  page that reads back the same selection and charges the selected package's
  price.

The model follows the code where it gives weaker guarantees than a
checkout flow is usually expected to give:

- The popup's `onClose` and `callback` are not exclusive, and neither fires
  only once. A callback after `onClose`, or a second callback, verifies and
  navigates again (`PaymentStep.CallbackIsNotOnceOnly`).
- An empty service, package or recipient, and a package id that does not
  resolve, still reach the initialise request. An unresolved package opens
  the popup with amount 0.
- The payment network is only checked for being non-empty, not for being
  one of the three offered networks.
- The guard order is network, number, script, not script first. The buy
  button is disabled until the script loads, so from the button the script
  guard never fires (`PaymentStep.EnabledBuyPassesScriptGuard`).
- A rejection from `handleContinue` is displayed only while the number field
  is empty. A short non-empty number, and the "select a package" message,
  set an error that no element shows (`RecipientStep.RejectionDisplayed`).
- The payment page's display names cover only the three networks. The
  result-checker services show their raw id there
  (`Checkout.CheckerNamesDiffer`).

## Model

| member | source | states |
|---|---|---|
| `Shared.DisplayName` | client/src/pages/Recipient.tsx:75 | a service's shown name is its display name when it has a non-empty one, and otherwise its raw id; it is empty only for an empty id (both pages use it, each with its own names) |
| `RecipientStep.Packages` | client/src/pages/Recipient.tsx:76 | the list for a service is its catalogue entry, or empty for an unknown service; every listed package has that service id and no id is listed twice |
| `RecipientStep.ContinueOutcome` | client/src/pages/Recipient.tsx:84-96 | the continue proceeds iff the number has at least 10 characters and a package is selected; the phone rule is checked first, so only its message appears when both fail; a proceed goes to the payment address built from the service, package id and number |
| `RecipientStep.FieldError` | client/src/pages/Recipient.tsx:137 | the phone field shows the error iff the error is non-empty and the number is empty, and then shows exactly the error |
| `RecipientStep.RejectionDisplayed` | client/src/pages/Recipient.tsx:137-177 | a message set by continue is displayed (in the field by `FieldError`, or on the page by `PageErrorShown`, line 174) iff the number is empty, and for an empty number the field shows the phone message |
| `RecipientStep.UnknownServiceCannotProceed` | client/src/pages/Recipient.tsx:151-170 | for a service with no catalogue entry, no package can be selected and continue always rejects |
| `RecipientStep.RecipientPage.constructor` | client/src/pages/Recipient.tsx:68-73 | the page opens with the `service` parameter (empty when missing), no number, no package and no error |
| `RecipientStep.RecipientPage.EditRecipient` | client/src/pages/Recipient.tsx:133-136 | editing stores the number and clears the error; the selection is unchanged and nothing navigates |
| `RecipientStep.RecipientPage.SelectPackage` | client/src/pages/Recipient.tsx:158-161 | clicking a listed package makes it the selected one and clears the error |
| `RecipientStep.RecipientPage.HandleContinue` | client/src/pages/Recipient.tsx:84-96 | sets exactly the first failing rule's message and does not navigate, or navigates exactly once to the payment address; the invariant keeps a selected package in the service's list and a non-empty error equal to what the current inputs would raise |
| `Query.Get` | client/src/pages/Payment.tsx:79-81 | a parameter is absent iff no pair has that name; a found value is the value of the first pair with that name (no earlier pair has it); `ParamOr` reads an absent parameter as empty, as `get(name) \|\| ''` does |
| `Query.ParamsEncode` | client/src/pages/Payment.tsx:77 | reading back an encoded query of plain names and values gives exactly the pairs it was built from |
| `Query.SplitJoin` | client/src/pages/Payment.tsx:77 | splitting on the separator undoes joining when no piece holds it |
| `Query.JoinSplit` | client/src/pages/Payment.tsx:77 | joining the pieces undoes splitting |
| `Query.PaymentTargetRoundTrip` | client/src/pages/Recipient.tsx:95 | for values made of letters, digits and `-`, the payment page reads back from the continue address the same service, package and recipient |
| `PaymentStep.Resolve` | client/src/pages/Payment.tsx:89 | a package id resolves iff it is in the catalogue, and then to the package carrying that id |
| `PaymentStep.AmountOfPackageId` | client/src/pages/Payment.tsx:155 | `Amount`, `selectedPackage?.price \|\| 0` in pesewas: the amount charged is the catalogue price in pesewas of the resolved package, and is 0 exactly when the id does not resolve |
| `PaymentStep.GatewayAmountExamples` | client/src/pages/Payment.tsx:155 | 12.00 GHS is charged as 1200, 2.50 GHS as 250, an unknown package as 0 |
| `PaymentStep.EmailInjective` | client/src/pages/Payment.tsx:154 | distinct order ids give the gateway distinct e-mail addresses |
| `PaymentStep.PaymentGuard` | client/src/pages/Payment.tsx:111-135 | all guards pass iff the network is non-empty, the payer number has at least 10 characters and the script has loaded; otherwise the result is the toast of the first failing guard, in the order network, number, script |
| `PaymentStep.EnabledBuyPassesScriptGuard` | client/src/pages/Payment.tsx:297 | when the buy button is enabled (`BuyEnabled`: not processing and script loaded) the script guard cannot fire |
| `PaymentStep.SuccessTargetRoundTrip` | client/src/pages/Payment.tsx:172 | a `URLSearchParams`-style reader of the success address recovers the callback's reference from its `reference` parameter (the success page itself is not part of this model) |
| `PaymentStep.VerifyReaction` | client/src/pages/Payment.tsx:168-190 | the reaction navigates iff the status is "success", to the success view with the callback's reference; any other status shows the failure toast; a failed request shows the verification-error toast, which differs from the failure toast |
| `PaymentStep.PaymentPage.constructor` | client/src/pages/Payment.tsx:77-89 | service, package and recipient come from the query string with missing parameters read as empty; the package is resolved once; nothing is chosen, processing or loaded |
| `PaymentStep.PaymentPage.SelectNetwork` | client/src/pages/Payment.tsx:243-244 | choosing a network stores it |
| `PaymentStep.PaymentPage.EnterPaymentNumber` | client/src/pages/Payment.tsx:273-274 | editing the payer number stores it |
| `PaymentStep.PaymentPage.ScriptLoaded` | client/src/pages/Payment.tsx:102 | the script's load sets the loaded flag |
| `PaymentStep.PaymentPage.HandlePayment` | client/src/pages/Payment.tsx:110-204 | a failing guard shows its toast and changes nothing else (no request, no popup, processing unchanged); otherwise exactly one initialise request carries service, package, recipient, payer number and network unchanged; on success the popup opens with the package amount, "GHS", the backend reference and the order's e-mail while processing stays on; on failure no popup opens, the error toast shows and processing stops |
| `PaymentStep.PaymentPage.GatewayClosed` | client/src/pages/Payment.tsx:158-165 | closing the popup stops processing, shows the cancellation toast and makes no request |
| `PaymentStep.PaymentPage.GatewayCallback` | client/src/pages/Payment.tsx:166-191 | a callback sends one verify request for its reference, then either navigates or shows one toast as `VerifyReaction` says, and processing stops in every case |
| `PaymentStep.CallbackIsNotOnceOnly` | client/src/pages/Payment.tsx:158-191 | after `onClose`, two successful callbacks each verify and each navigate to the success view |
| `Checkout.ListedPackageResolves` | client/src/pages/Recipient.tsx:21-56 | every package the recipient page lists resolves on the payment page to the same package, with the same service and price |
| `Checkout.ResolvedPackageListed` | client/src/pages/Payment.tsx:23-48 | every package the payment page knows is listed on the recipient page under its own service |
| `Checkout.ContinueThenPay` | client/src/pages/Recipient.tsx:95 | a continue with a plain number of at least 10 characters and a listed package reaches a payment page that reads back the same service, package and recipient, resolves the selected package and charges exactly its price |
| `Checkout.CheckerNamesDiffer` | client/src/pages/Payment.tsx:50-54 | the result-checker services have display names on the recipient page only; the payment page shows their raw ids |

## Left out

- Rendering: cards, selects, progress indicator, header, order summary and
  the `PhoneInput` internals. This is presentation only. The two "back"
  buttons are also left out; each is a fixed navigation.
- Injecting and removing the gateway script in the DOM. Only the loaded flag
  and its `ScriptLoaded` event are modelled.
- Real HTTP, the gateway's `setup`/`openIframe`, the public key from the
  environment, toast styling, and `console.log`/`console.error`. Backend and
  gateway answers are event arguments. Requests, popups, toasts and
  navigations are ghost logs.
- Floating-point `Math.round(price * 100)`. Prices are exact integer
  pesewas, which matches the catalogue's two-decimal prices.
- Asynchronous interleaving. `HandlePayment` takes the initialise answer in
  the same step. `GatewayCallback` takes the verification answer in the same
  step. So other events cannot happen while a request is pending, and the
  processing flag is never observed during verification.
- `GatewayClosed`, `GatewayCallback`: they require that a popup has been
  opened on this page. They do not tie an event to a particular popup,
  because the handlers capture nothing that differs between popups.
- Query decoding by `URLSearchParams`: percent-escapes, `+` as a space, and
  `#` fragments are not modelled. The round trip is proved only for values
  made of letters, digits and `-`. A number holding `+` would not come back
  unchanged.
- JavaScript property lookup on inherited keys (for example a service id of
  `constructor`). Dafny maps have no prototype, so such ids are simply unknown.
- String length counts Dafny characters, not UTF-16 code units. The two
  differ only outside the Basic Multilingual Plane.
- A backend answer without `orderId` or `reference` fields. `InitOk` always
  carries both as strings.
