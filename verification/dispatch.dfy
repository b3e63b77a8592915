/**
 * What the two POST handlers share: the e-mail provider seen as an oracle of
 * outcomes, the per-recipient result records they collect, and the shaping of
 * the HTTP response from those records (success count, status, summary
 * message), plus the rejection and top-level failure responses.
 */
module Dispatch {

  import opened Js

  /** A thrown value: an `Error` with its message, or anything else that was thrown. */
  datatype Exception = ErrorObject(message: string) | NonErrorValue

  /** Whatever the provider returned from a send that did not throw. */
  datatype Receipt = Receipt(id: string)

  /** One awaited `resend.emails.send(...)`: it returned a receipt or it threw. */
  datatype Outcome = Sent(receipt: Receipt) | Threw(error: Exception)

  /** The provider as an oracle: call number k (from 0, in the order the handler sends) has outcome `provider(k)`. */
  type Provider = nat -> Outcome

  /** `{ to, result }` or `{ to, error }`, pushed onto `emailResults` after each attempt. */
  datatype EmailResult = EmailResult(to: string, outcome: Outcome)

  /** The arguments of one send call that matter here: recipients, subject and content. */
  datatype Envelope<C> = Envelope(to: seq<string>, subject: string, content: C)

  /** `await request.json()` either yields the submitted form or throws. */
  datatype Request<F> = Parsed(form: F) | Malformed(error: Exception)

  datatype Body =
    | ErrorBody(error: string, details: Option<string>)
    | ReportBody(success: bool, emailResults: seq<EmailResult>, message: string)

  /** `NextResponse.json(body, { status })`. */
  datatype Response = Response(status: int, body: Body)

  /** `emailResults.filter(r => !r.error).length`. */
  function SuccessCount(results: seq<EmailResult>): (k: nat)
    ensures k <= |results|
    ensures k == 0 <==> forall i :: 0 <= i < |results| ==> results[i].outcome.Threw?
    ensures k == |results| <==> forall i :: 0 <= i < |results| ==> results[i].outcome.Sent?
    decreases |results|
  {
    if results == [] then 0
    else
      var last := results[|results| - 1];
      SuccessCount(results[..|results| - 1]) + (if last.outcome.Sent? then 1 else 0)
  }

  /** Counting from the front: the first record adds one exactly when its send went through. */
  lemma {:induction false} SuccessCountConsFirst(r: EmailResult, s: seq<EmailResult>)
    ensures SuccessCount([r] + s) == (if r.outcome.Sent? then 1 else 0) + SuccessCount(s)
    decreases |s|
  {
    if s != [] {
      assert ([r] + s)[..|[r] + s| - 1] == [r] + s[..|s| - 1];
      SuccessCountConsFirst(r, s[..|s| - 1]);
    }
  }

  // ---------------------------------------------------------------------------
  // Decimal rendering of the counts in the summary message
  // ---------------------------------------------------------------------------

  predicate IsDigit(c: char) {
    '0' <= c <= '9'
  }

  predicate AllDigits(s: string) {
    forall i :: 0 <= i < |s| ==> IsDigit(s[i])
  }

  function DigitChar(d: nat): (c: char)
    requires d < 10
    ensures IsDigit(c)
  {
    (('0' as int) + d) as char
  }

  /** `${n}` for a non-negative integer: its decimal digits, without leading zeros. */
  function NatToString(n: nat): (s: string)
    ensures |s| > 0 && AllDigits(s)
    ensures |s| > 1 ==> s[0] != '0'
  {
    if n < 10 then [DigitChar(n)] else NatToString(n / 10) + [DigitChar(n % 10)]
  }

  /** Reads a string of decimal digits back as a number. */
  function ParseNat(s: string): nat
    requires AllDigits(s)
  {
    if s == [] then 0 else 10 * ParseNat(s[..|s| - 1]) + ((s[|s| - 1] as int) - ('0' as int))
  }

  lemma {:induction false} ParseNatToString(n: nat)
    ensures ParseNat(NatToString(n)) == n
  {
    if n >= 10 {
      var s := NatToString(n);
      assert s[..|s| - 1] == NatToString(n / 10);
      ParseNatToString(n / 10);
    }
  }

  lemma NatToStringInjective(m: nat, n: nat)
    ensures NatToString(m) == NatToString(n) ==> m == n
  {
    ParseNatToString(m);
    ParseNatToString(n);
  }

  // ---------------------------------------------------------------------------
  // Response shaping
  // ---------------------------------------------------------------------------

  const NothingSent := "No se pudo enviar ningún email"

  const SentPrefix := "Se enviaron "
  const SentMiddle := " de "
  const SentSuffix := " emails correctamente"

  /** `Se enviaron ${successCount} de ${emailResults.length} emails correctamente`. */
  function SentMessage(sent: nat, total: nat): string {
    SentPrefix + NatToString(sent) + SentMiddle + NatToString(total) + SentSuffix
  }

  /**
   * The report a handler returns once every attempt is recorded: partial
   * success is success, so the status is 200 exactly when at least one
   * e-mail got through, and every attempt, failed or not, is reported.
   */
  function Report(results: seq<EmailResult>): (r: Response)
    ensures r.body.ReportBody? && r.body.emailResults == results
    ensures r.status == 200 <==> exists i :: 0 <= i < |results| && results[i].outcome.Sent?
    ensures r.status == 200 || r.status == 500
    ensures r.body.success <==> r.status == 200
    ensures r.status == 200 ==> r.body.message == SentMessage(SuccessCount(results), |results|)
    ensures r.status == 500 ==> r.body.message == NothingSent
  {
    var successCount := SuccessCount(results);
    var status := if successCount > 0 then 200 else 500;
    Response(status, ReportBody(successCount > 0, results,
      if successCount > 0 then SentMessage(successCount, |results|) else NothingSent))
  }

  /** A digit run followed by a space splits the same way in two equal strings. */
  lemma DigitRunsAgree(a1: string, t1: string, a2: string, t2: string)
    requires AllDigits(a1) && AllDigits(a2)
    requires |t1| > 0 && t1[0] == ' ' && |t2| > 0 && t2[0] == ' '
    requires a1 + t1 == a2 + t2
    ensures a1 == a2 && t1 == t2
  {
    assert a1 == (a1 + t1)[..|a1|];
    assert a2 == (a2 + t2)[..|a2|];
    assert t1 == (a1 + t1)[|a1|..];
    assert t2 == (a2 + t2)[|a2|..];
  }

  lemma CancelPrefix(p: string, x: string, y: string)
    requires p + x == p + y
    ensures x == y
  {
    assert x == (p + x)[|p|..];
    assert y == (p + y)[|p|..];
  }

  /** The summary message regrouped as prefix, first count, then everything from the middle text on. */
  lemma SentMessageShape(sent: nat, total: nat)
    ensures SentMessage(sent, total)
      == SentPrefix + (NatToString(sent) + (SentMiddle + (NatToString(total) + SentSuffix)))
  {
  }

  /** The summary message gives back both counts: different reports never read the same. */
  lemma SentMessageInjective(k1: nat, n1: nat, k2: nat, n2: nat)
    requires SentMessage(k1, n1) == SentMessage(k2, n2)
    ensures k1 == k2 && n1 == n2
  {
    var a1, b1 := NatToString(k1), NatToString(n1);
    var a2, b2 := NatToString(k2), NatToString(n2);
    var t1, t2 := SentMiddle + (b1 + SentSuffix), SentMiddle + (b2 + SentSuffix);
    SentMessageShape(k1, n1);
    SentMessageShape(k2, n2);
    CancelPrefix(SentPrefix, a1 + t1, a2 + t2);
    assert t1[0] == SentMiddle[0] == ' ' && t2[0] == SentMiddle[0];
    DigitRunsAgree(a1, t1, a2, t2);
    CancelPrefix(SentMiddle, b1 + SentSuffix, b2 + SentSuffix);
    assert SentSuffix[0] == ' ';
    DigitRunsAgree(b1, SentSuffix, b2, SentSuffix);
    NatToStringInjective(k1, k2);
    NatToStringInjective(n1, n2);
  }

  /** Status 200 exactly when the success count is positive, and the count never exceeds the total. */
  lemma ReportCounts(results: seq<EmailResult>)
    ensures 0 <= SuccessCount(results) <= |results|
    ensures Report(results).status == 200 <==> SuccessCount(results) > 0
  {
  }

  /** The `{ error }` body with status 400 returned when a required field is missing. */
  function Rejected(error: string): Response {
    Response(400, ErrorBody(error, None))
  }

  const ProcessingError := "Error al procesar la solicitud"

  /** `error instanceof Error ? error.message : 'Error desconocido'`. */
  function Details(e: Exception): string {
    match e
    case ErrorObject(message) => message
    case NonErrorValue => "Error desconocido"
  }

  /** The outer catch: status 500 with the generic error and the thrown value's description. */
  function Crashed(e: Exception): Response {
    Response(500, ErrorBody(ProcessingError, Some(Details(e))))
  }
}
