/**
 * The registration endpoint's POST handler: the required-field gate, the
 * welcome e-mail to the registrant, one notification per administrator
 * address (each send isolated in its own catch, the whole phase inside an
 * outer catch that records "admin-general"), and the aggregated report.
 */
module RegisterRoute {

  import opened Js
  import opened Dispatch
  import RegistrationEmail

  /** The fields destructured from the parsed body. */
  datatype RegistrationRequest = RegistrationRequest(
    businessName: Field, fullName: Field, email: Field, taxId: Field,
    location: Field, planType: Field, billingPeriod: Field)

  /** The administrators notified of each registration, in sending order. */
  const AdminEmails: seq<string> := ["leandro@forkcast.tech", "agustina@forkcast.tech"]

  const MissingFields := "Nombre de empresa, nombre completo y email son requeridos"

  /** The negation of `!businessName || !fullName || !email`. */
  predicate HasRequiredFields(f: RegistrationRequest) {
    Truthy(f.businessName) && Truthy(f.fullName) && Truthy(f.email)
  }

  /** The values the administrators' HTML interpolates, in order. */
  datatype RegistrationNotice = RegistrationNotice(
    company: string, fullName: string, email: string, taxId: string,
    location: string, plan: string, billingPeriod: string)

  /** What a send carries: the welcome template or the administrators' notice. */
  datatype Content = Welcome(view: RegistrationEmail.Welcome) | Notice(notice: RegistrationNotice)

  /**
   * The administrators' HTML: a missing tax id and a missing location get a
   * placeholder text, everything else is interpolated as submitted (an
   * absent plan or period prints as "undefined").
   */
  function NoticeOf(f: RegistrationRequest): (n: RegistrationNotice)
    ensures Truthy(f.taxId) ==> n.taxId == f.taxId.value
    ensures !Truthy(f.taxId) ==> n.taxId == "No proporcionado"
    ensures Truthy(f.location) ==> n.location == f.location.value
    ensures !Truthy(f.location) ==> n.location == "No especificada"
    ensures f.planType == None ==> n.plan == "undefined"
    ensures f.planType.Some? ==> n.plan == f.planType.value
    ensures f.billingPeriod == None ==> n.billingPeriod == "undefined"
    ensures f.billingPeriod.Some? ==> n.billingPeriod == f.billingPeriod.value
    ensures HasRequiredFields(f) ==>
      n.company == f.businessName.value && n.fullName == f.fullName.value && n.email == f.email.value
  {
    RegistrationNotice(
      Interpolate(f.businessName), Interpolate(f.fullName), Interpolate(f.email),
      Or(f.taxId, "No proporcionado"), Or(f.location, "No especificada"),
      Interpolate(f.planType), Interpolate(f.billingPeriod))
  }

  /** The welcome e-mail: to the submitted address, with the template's texts. */
  function UserEnvelope(f: RegistrationRequest): Envelope<Content> {
    Envelope([Interpolate(f.email)],
      "¡Bienvenido a ForkCast " + Interpolate(f.fullName) + "!",
      Welcome(RegistrationEmail.Render(
        RegistrationEmail.RegistrationForm(f.businessName, f.fullName, f.email, f.taxId, f.location),
        f.planType, f.billingPeriod)))
  }

  /** The notification to one administrator. */
  function AdminEnvelope(f: RegistrationRequest, admin: string): Envelope<Content> {
    Envelope([admin],
      "Nuevo registro: " + Interpolate(f.businessName) + " - Plan " + Interpolate(f.planType),
      Notice(NoticeOf(f)))
  }

  /** The notifications sent, one per administrator address, in list order. */
  function AdminEnvelopes(f: RegistrationRequest, admins: seq<string>): (sent: seq<Envelope<Content>>)
    ensures |sent| == |admins|
    ensures forall i :: 0 <= i < |admins| ==> sent[i] == AdminEnvelope(f, admins[i])
  {
    if admins == [] then [] else [AdminEnvelope(f, admins[0])] + AdminEnvelopes(f, admins[1..])
  }

  /**
   * The per-administrator records: the i-th address gets the outcome of
   * provider call `first + i`, whatever the other calls did, so one failed
   * send never keeps a later administrator from being attempted.
   */
  function AdminAttempts(admins: seq<string>, provider: Provider, first: nat): (results: seq<EmailResult>)
    ensures |results| == |admins|
    ensures forall i :: 0 <= i < |admins| ==>
      results[i] == EmailResult("admin-" + admins[i], provider(first + i))
  {
    if admins == [] then [] else
      [EmailResult("admin-" + admins[0], provider(first))] + AdminAttempts(admins[1..], provider, first + 1)
  }

  /** Attempting one more administrator appends exactly that administrator's send and record. */
  lemma AdminPrefixExtends(f: RegistrationRequest, provider: Provider, first: nat, i: nat)
    requires i < |AdminEmails|
    ensures AdminAttempts(AdminEmails[..i + 1], provider, first)
      == AdminAttempts(AdminEmails[..i], provider, first) + [EmailResult("admin-" + AdminEmails[i], provider(first + i))]
    ensures AdminEnvelopes(f, AdminEmails[..i + 1])
      == AdminEnvelopes(f, AdminEmails[..i]) + [AdminEnvelope(f, AdminEmails[i])]
  {
  }

  /** The administrators' records: one per address from provider call `first` on, or the single "admin-general" failure. */
  function AdminPhase(provider: Provider, first: nat, adminFault: Option<Exception>): seq<EmailResult> {
    match adminFault
    case Some(e) => [EmailResult("admin-general", Threw(e))]
    case None => AdminAttempts(AdminEmails, provider, first)
  }

  /** The administrators' send calls: one per address, none when the phase threw before its loop. */
  function AdminSends(f: RegistrationRequest, adminFault: Option<Exception>): seq<Envelope<Content>> {
    if adminFault.Some? then [] else AdminEnvelopes(f, AdminEmails)
  }

  /**
   * `emailResults` of a valid registration: the registrant's entry first,
   * then one entry per administrator in list order, or, when the
   * administrators' phase throws before its loop, the single "admin-general"
   * entry.
   */
  function Attempts(provider: Provider, adminFault: Option<Exception>): (results: seq<EmailResult>)
    ensures |results| == 1 + (if adminFault.Some? then 1 else |AdminEmails|)
    ensures results[0] == EmailResult("user", provider(0))
    ensures adminFault.Some? ==> results[1] == EmailResult("admin-general", Threw(adminFault.value))
    ensures adminFault.None? ==> forall i :: 0 <= i < |AdminEmails| ==>
      results[1 + i] == EmailResult("admin-" + AdminEmails[i], provider(1 + i))
  {
    [EmailResult("user", provider(0))] + AdminPhase(provider, 1, adminFault)
  }

  /** The send calls of a valid registration, in order: none to administrators if their phase threw. */
  function Sends(f: RegistrationRequest, adminFault: Option<Exception>): seq<Envelope<Content>> {
    [UserEnvelope(f)] + AdminSends(f, adminFault)
  }

  /**
   * `POST /api/register`. The provider is an oracle indexed by call number;
   * `adminFault` is the value thrown, if any, while the administrators'
   * message is being built, before their loop starts. Returns the response
   * and the send calls made, in order.
   */
  method Post(request: Request<RegistrationRequest>, provider: Provider, adminFault: Option<Exception>)
    returns (response: Response, sent: seq<Envelope<Content>>)
    ensures request.Malformed? ==> response == Crashed(request.error) && response.status == 500 && sent == []
    ensures request.Parsed? && !HasRequiredFields(request.form) ==>
      response == Rejected(MissingFields) && response.status == 400 && sent == []
    ensures request.Parsed? && HasRequiredFields(request.form) ==>
      response == Report(Attempts(provider, adminFault)) && sent == Sends(request.form, adminFault)
  {
    if request.Malformed? {
      return Crashed(request.error), [];
    }
    var form := request.form;
    if !HasRequiredFields(form) {
      return Rejected(MissingFields), [];
    }

    response, sent := Submit(form, provider, adminFault);
  }

  /** The handler's body once the form is known to be valid: the sends, in order, then the report. */
  method Submit(form: RegistrationRequest, provider: Provider, adminFault: Option<Exception>)
    returns (response: Response, sent: seq<Envelope<Content>>)
    ensures response == Report(Attempts(provider, adminFault)) && sent == Sends(form, adminFault)
  {
    var calls: nat := 0;

    // 1. The registrant; a throw is caught and recorded in place of the receipt.
    sent := [UserEnvelope(form)];
    var emailResults := [EmailResult("user", provider(calls))];
    calls := calls + 1;

    // 2. The administrators.
    var adminResults, adminSent := NotifyAdmins(form, provider, calls, adminFault);
    emailResults := emailResults + adminResults;
    sent := sent + adminSent;

    // 3. Aggregation.
    AttemptsThenSends(form, provider, adminFault, adminResults, adminSent);
    response := Report(emailResults);
  }

  /** The registrant's record and send followed by the administrators' phase make up the whole submission. */
  lemma AttemptsThenSends(form: RegistrationRequest, provider: Provider, adminFault: Option<Exception>,
                          adminResults: seq<EmailResult>, adminSent: seq<Envelope<Content>>)
    requires adminResults == AdminPhase(provider, 1, adminFault)
    requires adminSent == AdminSends(form, adminFault)
    ensures [EmailResult("user", provider(0))] + adminResults == Attempts(provider, adminFault)
    ensures [UserEnvelope(form)] + adminSent == Sends(form, adminFault)
  {
  }

  /**
   * The administrators' phase, the handler's outer try: unless it throws
   * before the loop, each address in turn gets its own send, starting at
   * provider call `first`, and a throwing send is recorded and the loop goes
   * on.
   */
  method NotifyAdmins(form: RegistrationRequest, provider: Provider, first: nat, adminFault: Option<Exception>)
    returns (emailResults: seq<EmailResult>, sent: seq<Envelope<Content>>)
    ensures emailResults == AdminPhase(provider, first, adminFault)
    ensures sent == AdminSends(form, adminFault)
  {
    emailResults, sent := [], [];
    match adminFault {
      case Some(e) =>
        emailResults := emailResults + [EmailResult("admin-general", Threw(e))];
      case None =>
        var calls := first;
        var i := 0;
        while i < |AdminEmails|
          invariant 0 <= i <= |AdminEmails| && calls == first + i
          invariant emailResults == AdminAttempts(AdminEmails[..i], provider, first)
          invariant sent == AdminEnvelopes(form, AdminEmails[..i])
        {
          var adminEmail := AdminEmails[i];
          AdminPrefixExtends(form, provider, first, i);
          sent := sent + [AdminEnvelope(form, adminEmail)];
          emailResults := emailResults + [EmailResult("admin-" + adminEmail, provider(calls))];
          calls := calls + 1;
          i := i + 1;
        }
        assert AdminEmails[..i] == AdminEmails;
    }
  }

  // ---------------------------------------------------------------------------
  // What a valid registration reports
  // ---------------------------------------------------------------------------

  /**
   * Every send succeeds (the registrant's and one per administrator): status
   * 200 and "Se enviaron n de n emails correctamente" with n the number of sends.
   */
  lemma AllSendsSucceed(provider: Provider)
    requires forall k: nat :: k < 1 + |AdminEmails| ==> provider(k).Sent?
    ensures Report(Attempts(provider, None)).status == 200
    ensures Report(Attempts(provider, None)).body.success
    ensures SuccessCount(Attempts(provider, None)) == |Attempts(provider, None)| == 1 + |AdminEmails|
    ensures Report(Attempts(provider, None)).body.message == SentMessage(1 + |AdminEmails|, 1 + |AdminEmails|)
  {
    var results := Attempts(provider, None);
    forall i | 0 <= i < |results| ensures results[i].outcome.Sent? {
      if i > 0 {
        assert results[1 + (i - 1)].outcome == provider(i);
      }
    }
    assert results[0].outcome.Sent?;
  }

  /**
   * The registrant's own e-mail fails but an administrator's gets through:
   * still status 200 and success, with the registrant's failure reported
   * first, and the count reported is the number of administrators reached.
   */
  lemma UserFailureIsPartialSuccess(provider: Provider, k: nat)
    requires provider(0).Threw?
    requires 1 <= k <= |AdminEmails| && provider(k).Sent?
    ensures Report(Attempts(provider, None)).status == 200
    ensures Report(Attempts(provider, None)).body.success
    ensures Report(Attempts(provider, None)).body.emailResults[0] == EmailResult("user", provider(0))
    ensures SuccessCount(Attempts(provider, None)) < |Attempts(provider, None)|
    ensures SuccessCount(Attempts(provider, None)) == SuccessCount(AdminAttempts(AdminEmails, provider, 1))
    ensures Report(Attempts(provider, None)).body.message
      == SentMessage(SuccessCount(AdminAttempts(AdminEmails, provider, 1)), 1 + |AdminEmails|)
  {
    var results := Attempts(provider, None);
    assert results == [EmailResult("user", provider(0))] + AdminAttempts(AdminEmails, provider, 1);
    SuccessCountConsFirst(EmailResult("user", provider(0)), AdminAttempts(AdminEmails, provider, 1));
    assert results[1 + (k - 1)] == EmailResult("admin-" + AdminEmails[k - 1], provider(k));
    assert results[k].outcome.Sent?;
    assert !results[0].outcome.Sent?;
  }

  /** Every send fails: status 500, no success, and the "nothing sent" message. */
  lemma AllSendsFail(provider: Provider, adminFault: Option<Exception>)
    requires forall k: nat :: k < 1 + |AdminEmails| ==> provider(k).Threw?
    ensures Report(Attempts(provider, adminFault)).status == 500
    ensures !Report(Attempts(provider, adminFault)).body.success
    ensures Report(Attempts(provider, adminFault)).body.message == NothingSent
  {
    var results := Attempts(provider, adminFault);
    forall i | 0 <= i < |results| ensures results[i].outcome.Threw? {
      if i > 0 && adminFault.None? {
        assert results[1 + (i - 1)].outcome == provider(i);
      }
    }
  }

  /** When the administrators' phase throws, only the registrant's e-mail can make the request succeed. */
  lemma FaultedAdminPhase(provider: Provider, e: Exception)
    ensures |Attempts(provider, Some(e))| == 2
    ensures Report(Attempts(provider, Some(e))).status == 200 <==> provider(0).Sent?
    ensures provider(0).Sent? ==>
      Report(Attempts(provider, Some(e))).body.message == SentMessage(1, 2)
  {
    var results := Attempts(provider, Some(e));
    assert results[1].outcome.Threw?;
    if provider(0).Sent? {
      assert results[..1] == [results[0]];
      assert SuccessCount(results) == 1;
    }
  }

  /** The welcome e-mail goes to the submitted address and each notification to its administrator alone. */
  lemma Recipients(f: RegistrationRequest)
    requires HasRequiredFields(f)
    ensures Sends(f, None)[0].to == [f.email.value]
    ensures forall i :: 0 <= i < |AdminEmails| ==> Sends(f, None)[1 + i].to == [AdminEmails[i]]
  {
  }
}
