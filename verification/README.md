# ForkCast landing page: form dispatch

This project models the server side of the ForkCast landing page's two forms.

- **Registration** (`POST /api/register`). The handler checks the required fields. It sends the welcome e-mail to the registrant, then one notification to each administrator address. Each send sits in its own `try`, and the whole administrators' phase sits in an outer `try` that records an "admin-general" failure. Finally the handler reports how many e-mails got through.
- **Supplier interest** (`POST /api/send-email`). The handler checks the required fields and sends the thank-you e-mail to the supplier. It then sends one notification, which shows the product-type and coverage-area codes as readable labels, to a fixed internal address. It reports the same way.
- **The two e-mail templates.** The model keeps what they display: the plan name, billing-period text and price of the welcome e-mail, and the detail lines of the supplier's thank-you. It also keeps the code-to-label tables with their raw-code fallback.

Modules:

| module | file | role |
|---|---|---|
| `Js` | `js.dfy` | The JavaScript value semantics the code relies on, for string fields: truthiness, `||`, template interpolation, React text children, and `table[code] \|\| code`. |
| `Dispatch` | `dispatch.dfy` | The provider oracle and the per-recipient result records. Also the success count, the summary message with its decimal counts, and the 200/500/400 responses. |
| `RegistrationEmail` | `registration_email.dfy` | The welcome template. |
| `SupplierEmail` | `supplier_email.dfy` | The thank-you template. |
| `RegisterRoute` | `register_route.dfy` | The registration handler. |
| `SendEmailRoute` | `send_email_route.dfy` | The supplier-interest handler. |

Modelling choices:

- **Provider.** The e-mail provider is an oracle `nat -> Outcome`. Call `k`, counted from 0 in sending order, either returns a receipt or throws.
- **Handlers.** Each handler is a method that returns the HTTP response and the list of send calls it made. Each call is recorded as recipients, subject and content.
- **Bodies.** A body that `request.json()` cannot parse is `Malformed(e)`.
- **Admin fault.** A value thrown while the administrators' message is being built, before their loop starts, is the `adminFault` parameter.
- **Fields.** A form field is `Option<string>`, where `None` means absent. The model follows JavaScript for both `None` and `""`: it interpolates `None` as "undefined", renders it as nothing in a React child, and treats both as falsy.

## Model

| member | source | states |
|---|---|---|
| Js.LookupOr | emails/SupplierEmail.tsx:80 | A code with a truthy own label shows that label. A code not in the table shows itself. The result is the code or its label. It is never empty for a non-empty code when every label is non-empty. |
| Js.LookupAsWritten | emails/SupplierEmail.tsx:80 | Evaluated as JavaScript does on an object literal, the lookup yields an inherited member exactly when the code is not an own key but names an `Object.prototype` member. |
| Js.LookupAgreesOffPrototype | app/api/send-email/route.ts:85-86 | For every code that is not an `Object.prototype` member name, the lookup as written and the corrected lookup agree. |
| Dispatch.SuccessCount | app/api/register/route.ts:100 | The count of attempts that did not throw never exceeds the number of attempts. It is 0 exactly when every attempt threw, and equals the total exactly when none threw. |
| Dispatch.SuccessCountConsFirst | app/api/register/route.ts:100 | Counting from the front, the first record adds one to the count exactly when its send went through. |
| Dispatch.NatToString | app/api/register/route.ts:107 | `${n}` is a non-empty run of decimal digits with no leading zero. |
| Dispatch.ParseNatToString | app/api/register/route.ts:107 | Reading the decimal text of `n` back gives `n`. |
| Dispatch.NatToStringInjective | app/api/register/route.ts:107 | Different counts print differently. |
| Dispatch.Report | app/api/register/route.ts:99-109 | Every attempt is reported, failed or not. Status is 200 exactly when some attempt got through, and 500 otherwise. `success` holds exactly when the status is 200. The message is "Se enviaron k de n emails correctamente" with the success count and the total, or the "nothing sent" text. |
| Dispatch.SentMessage | app/api/register/route.ts:107 | "Se enviaron ", the success count, " de ", the total, " emails correctamente". |
| Dispatch.SentMessageInjective | app/api/register/route.ts:106-107 | Two summary messages are equal only if both counts are equal, so the message determines both counts. |
| Dispatch.ReportCounts | app/api/send-email/route.ts:110-111 | Status 200 exactly when the success count is positive, and the count lies between 0 and the total. |
| Dispatch.Rejected | app/api/register/route.ts:32-35 | Status 400 with the given error text and no details. |
| Dispatch.Details | app/api/register/route.ts:114 | The message of a thrown `Error`, and "Error desconocido" for any other thrown value. |
| Dispatch.Crashed | app/api/register/route.ts:111-116 | Status 500 with "Error al procesar la solicitud" and the thrown value's details. |
| RegistrationEmail.PlanName | emails/RegistrationEmail.tsx:42-46 | "Starter" exactly for plan "starter" and "Pro" exactly for "pro". Any other value, absent included, gives "Enterprise". |
| RegistrationEmail.PeriodText | emails/RegistrationEmail.tsx:48 | "mensual" exactly for period "monthly", and "anual" for anything else. |
| RegistrationEmail.Price | emails/RegistrationEmail.tsx:50-54 | The price is one of four labels: free for starter, "$40/mes" for monthly pro, "$490/año" for any other pro period, "Personalizado" otherwise. |
| RegistrationEmail.PriceMatchesPlanAndPeriod | emails/RegistrationEmail.tsx:42-54 | The price tree and the name and period trees agree both ways. "Gratis" goes with Starter, "Personalizado" with Enterprise, "$40/mes" with Pro and "mensual", and "$490/año" with Pro and "anual". |
| RegistrationEmail.PriceIgnoresPeriodUnlessPro | emails/RegistrationEmail.tsx:50-54 | Outside the pro plan, the billing period does not affect the price. |
| RegistrationEmail.RenderIgnoresTaxIdAndLocation | emails/RegistrationEmail.tsx:40 | The template destructures only company, name and e-mail, so the tax id and location never change what it shows. |
| RegistrationEmail.Render | emails/RegistrationEmail.tsx:35-175 | The texts the welcome e-mail shows, in order: the greeting with the full name, the plan name, period text and price from the three decision trees, the restaurant and access e-mail, the set-password link, and the footer, which repeats the e-mail. |
| RegistrationEmail.SetPasswordHrefIsUnsubstituted | emails/RegistrationEmail.tsx:138 | For every input the rendered link is the same constant, which carries the literal `{{email}}` placeholder after the base address and ends in the literal `{{token}}` placeholder. |
| SupplierEmail.TablesHaveNonEmptyLabels | emails/SupplierEmail.tsx:29-48 | Every label in both tables is non-empty, hence truthy. |
| SupplierEmail.ProductTypeLabel | emails/SupplierEmail.tsx:80 | A known product code shows its label and an unknown code shows itself. A non-empty code never shows as empty. |
| SupplierEmail.CoverageAreaLabel | emails/SupplierEmail.tsx:85 | A known coverage code shows its label and an unknown code shows itself. A non-empty code never shows as empty. |
| SupplierEmail.InheritedCodeDefeatsFallback | emails/SupplierEmail.tsx:80 | "toString" is in neither table. As written, the lookup yields the inherited method, while the corrected lookup shows "toString". |
| SupplierEmail.DetailRows | emails/SupplierEmail.tsx:72-87 | The details section has three fixed lines (company, name, e-mail) followed by one line per truthy optional field, in the order phone, product type, coverage area. The phone line shows the phone as submitted and the other two show the codes' labels. Every optional line shows a non-empty value. |
| SupplierEmail.DetailRowCaptions | emails/SupplierEmail.tsx:72-87 | A caption appears in the details exactly when it is a fixed one, or an optional one whose field is truthy. |
| SupplierEmail.OptionalRowShownIffTruthy | emails/SupplierEmail.tsx:75-87 | The phone, product and coverage lines are each shown exactly when their field is truthy. |
| SupplierEmail.Render | emails/SupplierEmail.tsx:27-106 | The texts the thank-you shows: the greeting with the contact name, the company, and the detail lines. |
| SupplierEmail.RenderIgnoresMessage | emails/SupplierEmail.tsx:23 | The declared `message` prop is never shown: forms differing only in it render alike. |
| RegisterRoute.HasRequiredFields | app/api/register/route.ts:31 | Company, full name and e-mail are all truthy. |
| RegisterRoute.UserEnvelope | app/api/register/route.ts:47-56 | The welcome send: to the submitted address, subject "¡Bienvenido a ForkCast " with the name, and the template rendered from the form, plan and period. |
| RegisterRoute.AdminEnvelope | app/api/register/route.ts:81-86 | One administrator's send: to that address alone, subject "Nuevo registro: " with the company and plan, and the notice. |
| RegisterRoute.NoticeOf | app/api/register/route.ts:67-76 | In the administrators' HTML, a falsy tax id becomes "No proporcionado" and a falsy location "No especificada". A present plan or period is printed as given, even when empty, and an absent one prints "undefined". The required fields appear verbatim. |
| RegisterRoute.AdminEnvelopes | app/api/register/route.ts:79-86 | One notification per administrator, in list order, each to that administrator alone. |
| RegisterRoute.AdminAttempts | app/api/register/route.ts:79-93 | The i-th administrator's record is "admin-" plus the address, with the outcome of its own provider call. A failed send never prevents a later one. |
| RegisterRoute.AdminPhase | app/api/register/route.ts:64-97 | The administrators' records: one per address from the given provider call on, or the single "admin-general" failure when the phase throws before its loop. |
| RegisterRoute.AdminSends | app/api/register/route.ts:64-97 | The administrators' send calls: one per address, or none when the phase throws before its loop. |
| RegisterRoute.AdminPrefixExtends | app/api/register/route.ts:79-93 | One more loop iteration appends exactly one record and one send. |
| RegisterRoute.Attempts | app/api/register/route.ts:43-97 | The registrant's record comes first. It is followed by one record per administrator in order, or, when the phase throws before its loop, by the single "admin-general" failure. |
| RegisterRoute.Sends | app/api/register/route.ts:46-97 | The send calls of a valid registration: the welcome e-mail, then the administrators' sends. |
| RegisterRoute.Post | app/api/register/route.ts:17-118 | An unparsable body gives a 500 with the error details and no sends. Missing required fields give a 400 with the message and no sends. A valid form gives the report of its attempts and exactly the sends of the model. |
| RegisterRoute.Submit | app/api/register/route.ts:42-109 | The valid-form path: the sends in order, then the report of the attempts recorded. |
| RegisterRoute.NotifyAdmins | app/api/register/route.ts:64-97 | The administrators' phase yields the per-address records and sends, or just the "admin-general" record when it throws before its loop. |
| RegisterRoute.AllSendsSucceed | app/api/register/route.ts:99-109 | When every send succeeds (the registrant's and one per administrator), the response is 200 and success, and the message reads "n de n" with n the number of sends. |
| RegisterRoute.UserFailureIsPartialSuccess | app/api/register/route.ts:99-109 | When the registrant's send fails but some administrator's succeeds, the response is still 200 and success. The registrant's failure is reported first. The success count is below the total and equals the number of administrator sends that got through, and the message reports that count out of all the sends. |
| RegisterRoute.AllSendsFail | app/api/register/route.ts:99-109 | When every provider call fails, the response is 500 with no success and the "nothing sent" message, with or without an admin fault. |
| RegisterRoute.FaultedAdminPhase | app/api/register/route.ts:94-97 | With an admin fault there are exactly two records. The request succeeds exactly when the registrant's send did, and then reports "1 de 2". |
| RegisterRoute.Recipients | app/api/register/route.ts:49-83 | The welcome e-mail goes to the submitted address, and each notification to its administrator alone. |
| SendEmailRoute.ProductTypeName | app/api/send-email/route.ts:85 | A falsy code gives "No especificado". A known code gives its label and an unknown code gives itself. The result is never empty. |
| SendEmailRoute.CoverageAreaName | app/api/send-email/route.ts:86 | A falsy code gives "No especificada". A known code gives its label and an unknown code gives itself. The result is never empty. |
| SendEmailRoute.LabelsAgreeWithSupplierEmail | app/api/send-email/route.ts:19-38 | The handler's tables equal the template's. Whenever the thank-you shows a product or coverage line, its label is the one the notification shows. |
| SendEmailRoute.HasRequiredFields | app/api/send-email/route.ts:54 | Company, contact name and e-mail are all truthy. |
| SendEmailRoute.ProviderEnvelope | app/api/send-email/route.ts:70-75 | The thank-you send: to the submitted address, the fixed subject, and the template rendered from the whole form. |
| SendEmailRoute.AdminEnvelope | app/api/send-email/route.ts:87-102 | The notification: to the fixed internal address, subject "Nuevo proveedor interesado: " with the company, and the notice. |
| SendEmailRoute.NoticeOf | app/api/send-email/route.ts:91-101 | A falsy phone becomes "No proporcionado" and a falsy message "Sin mensaje". The codes appear as their labels and the required fields verbatim. |
| SendEmailRoute.Attempts | app/api/send-email/route.ts:68-107 | The records of a valid submission: "provider" with the outcome of call 0, then "admin" with the outcome of call 1. |
| SendEmailRoute.Sends | app/api/send-email/route.ts:68-107 | The send calls of a valid submission: the thank-you, then the notification. |
| SendEmailRoute.Post | app/api/send-email/route.ts:40-128 | An unparsable body gives a 500 with details and a missing field gives a 400, neither with any send. A valid form sends the thank-you and then the notification, and reports both attempts. |
| SendEmailRoute.TwoAttemptsReported | app/api/send-email/route.ts:68-119 | Exactly two records, "provider" then "admin". Status 200 exactly when either send got through, and the success count is the number that did. |
| SendEmailRoute.Recipients | app/api/send-email/route.ts:72-89 | The thank-you goes to the submitted address, and the notification only to the fixed internal address. |

## Left out

- `app/page.tsx` and `app/layout.tsx` are presentation only; nothing in them calls either endpoint, so they are not part of this model.
- Markup, styles and HTML escaping are not modelled. Each e-mail is modelled as the record of the texts it displays. React rendering and the provider's SDK are represented by those records and the outcome oracle.
- Sender address and environment: `FROM`, `FROM_NAME`, `FROM_EMAIL` and the API key are left out, and so are logging (`console.error`) and `NextResponse`'s serialisation.
- The `if (!resend)` guard is left out: the client object is always truthy, so the guard never fires.
- The supplier handler parses `ADMIN_EMAILS` from the environment but never uses it. It is not modelled; the notification goes to the fixed address, as the code does.
- The welcome template's `baseUrl` is never used and is not modelled.
- JSON field values other than strings (null, numbers, objects) are not modelled. The only way the administrators' phase can throw outside its per-address `try` is such a value failing to convert to text, so that failure is the `adminFault` input instead.
- Awaiting is modelled as sequential execution: each send completes before the next begins, as `await` makes it.
- Whatever the provider returns without throwing counts as a success, as in the code. A returned error object is not inspected.
- SupplierEmail.ProductTypeLabel and SupplierEmail.CoverageAreaLabel use the corrected lookup `Js.LookupOr`, and so do `SupplierEmail.DetailRows` and `SupplierEmail.Render` through them. For the twelve `Object.prototype` member names they show the raw code, where the template as written yields an inherited member (see Findings).
- SendEmailRoute.ProductTypeName and SendEmailRoute.CoverageAreaName use the corrected lookup as well, and so do `SendEmailRoute.NoticeOf` and `SendEmailRoute.Post` through them. For the same twelve names the handler as written prints the inherited member's text instead of the code. `Js.LookupAsWritten` models that behaviour on its own.
- Dispatch.SuccessCount: a thrown value that is falsy (`throw null`, `throw 0`, `throw ""`) would make `!r.error` hold, so the code would count that failure as a success. The model counts every throw as a failure.
- The model follows the code in these places, which a reader might expect to differ:
  - a pro plan with any period other than "monthly", including an absent one, is priced "$490/año";
  - the supplier notification goes to one fixed address;
  - an admin fault yields two records (registrant and "admin-general"), not one per administrator.

## Findings

| source | as written | input that shows it | evidently intended | confidence | as-written member | corrected member |
|---|---|---|---|---|---|---|
| emails/SupplierEmail.tsx:80 | The label is looked up in an object literal, which also finds properties inherited from `Object.prototype`. | `productType` = "toString" yields the inherited `toString` function; React renders no text for a function child, so the product line shows its caption and nothing after it. | An unknown code shows itself. | not executed | SupplierEmail.InheritedCodeDefeatsFallback | SupplierEmail.ProductTypeLabel |
| app/api/send-email/route.ts:85-86 | The same inherited-property lookup in the notification. | `coverageArea` = "toString" puts the inherited function's source text in the HTML. | An unknown code shows itself. | not executed | Js.LookupAsWritten | Js.LookupOr |
