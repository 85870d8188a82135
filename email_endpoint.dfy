/** The two mail-relay routes of api-example/email-endpoint.js. Sending is an oracle
    that answers, for each message handed to the SMTP transporter, whether it went out. */
module EmailEndpoint {
  import opened Common

  /** The characters JavaScript's `\s` class matches. */
  predicate IsJsSpace(c: char)
  {
    || c == '\t' || c == '\n' || c == '\U{000b}' || c == '\U{000c}' || c == '\r' || c == ' '
    || c == '\U{00a0}' || c == '\U{1680}' || ('\U{2000}' <= c <= '\U{200a}')
    || c == '\U{2028}' || c == '\U{2029}' || c == '\U{202f}' || c == '\U{205f}'
    || c == '\U{3000}' || c == '\U{feff}'
  }

  /** `[^\s@]+` without the length bound: every character is neither space nor '@'. */
  predicate PlainRun(s: string)
  {
    forall i | 0 <= i < |s| :: !IsJsSpace(s[i]) && s[i] != '@'
  }

  /** `/^[^\s@]+@[^\s@]+\.[^\s@]+$/.test(s)`, read off the regex: a non-empty run, '@',
      a non-empty run, '.', a non-empty run, the runs free of spaces and '@'. */
  predicate MatchesEmailRegex(s: string)
  {
    exists a, b | 0 < a && a + 1 < b && b + 1 < |s| ::
      && s[a] == '@' && s[b] == '.'
      && PlainRun(s[..a]) && PlainRun(s[a + 1..b]) && PlainRun(s[b + 1..])
  }

  /** The same condition in plain words: no whitespace, exactly one '@' and not at the
      start, and a '.' in the domain with text on both sides. */
  predicate ValidEmail(s: string)
  {
    && (forall i | 0 <= i < |s| :: !IsJsSpace(s[i]))
    && exists a | 0 < a < |s| ::
      && s[a] == '@'
      && (forall i | 0 <= i < |s| && i != a :: s[i] != '@')
      && (exists b | a + 1 < b < |s| - 1 :: s[b] == '.')
  }

  /** The regex accepts exactly the addresses of the plain-words description. */
  lemma EmailRegexMeaning(s: string)
    ensures MatchesEmailRegex(s) <==> ValidEmail(s)
  {
    if MatchesEmailRegex(s) {
      var a, b :| 0 < a && a + 1 < b && b + 1 < |s| && s[a] == '@' && s[b] == '.'
        && PlainRun(s[..a]) && PlainRun(s[a + 1..b]) && PlainRun(s[b + 1..]);
      forall i | 0 <= i < |s| && i != a ensures s[i] != '@' && !IsJsSpace(s[i]) {
        if i < a { assert s[i] == s[..a][i]; }
        else if i < b { assert s[i] == s[a + 1..b][i - a - 1]; }
        else if i > b { assert s[i] == s[b + 1..][i - b - 1]; }
      }
      assert ValidEmail(s);
    }
    if ValidEmail(s) {
      var a :| 0 < a < |s| && s[a] == '@' && (forall i | 0 <= i < |s| && i != a :: s[i] != '@')
        && (exists b | a + 1 < b < |s| - 1 :: s[b] == '.');
      var b :| a + 1 < b < |s| - 1 && s[b] == '.';
      assert PlainRun(s[..a]);
      assert PlainRun(s[a + 1..b]);
      assert PlainRun(s[b + 1..]);
      assert MatchesEmailRegex(s);
    }
  }

  const DefaultReplyTo: string := "info@ravintolababylon.fi"

  /** A message handed to the transporter (the sender header is fixed and left out). */
  datatype Mail = Mail(to: string, subject: string, html: string, replyTo: string)

  /** What `transporter.sendMail` does: resolve with a message id, or reject with an
      error whose `message` may be missing. */
  datatype SendResult = Sent(messageId: string) | SendFailed(message: Option<string>)

  datatype RecipientResult = RecipientResult(email: string, success: bool, messageId: Option<string>, error: Option<string>)

  datatype Body =
    | SendOk(messageId: string)
    | Failure(error: string)
    | CampaignOk(totalSent: nat, totalFailed: nat, results: seq<RecipientResult>)

  datatype Response = Response(status: int, body: Body)

  /** `error.message || fallback`. */
  function ErrorText(e: Option<string>, fallback: string): string
  {
    OrElse(e, fallback)
  }

  // ---------------------------------------------------------------------------
  // POST /api/send-email
  // ---------------------------------------------------------------------------

  /** `/api/send-email`: missing fields, then the address check, then one send with the
      reply-to address defaulted. */
  function SendEmail(to: Option<string>, subject: Option<string>, html: Option<string>, replyTo: Option<string>,
                     send: Mail -> SendResult): (r: Response)
    ensures !StrTruthy(to) || !StrTruthy(subject) || !StrTruthy(html) ==>
      r == Response(400, Failure("Missing required fields: to, subject, html"))
    ensures StrTruthy(to) && StrTruthy(subject) && StrTruthy(html) && !ValidEmail(to.value) ==>
      r == Response(400, Failure("Invalid email address"))
    ensures r.status == 200 ==> StrTruthy(to) && ValidEmail(to.value) && r.body.SendOk?
    ensures r.status == 200 || r.status == 400 || r.status == 500
    ensures (StrTruthy(to) && StrTruthy(subject) && StrTruthy(html) && ValidEmail(to.value)) ==>
      var m := Mail(to.value, subject.value, html.value, OrElse(replyTo, DefaultReplyTo));
      && (send(m).Sent? ==> r == Response(200, SendOk(send(m).messageId)))
      && (send(m).SendFailed? ==> r == Response(500, Failure(ErrorText(send(m).message, "Failed to send email"))))
  {
    if !StrTruthy(to) || !StrTruthy(subject) || !StrTruthy(html) then
      Response(400, Failure("Missing required fields: to, subject, html"))
    else if !(EmailRegexMeaning(to.value); MatchesEmailRegex(to.value)) then
      Response(400, Failure("Invalid email address"))
    else
      var m := Mail(to.value, subject.value, html.value, OrElse(replyTo, DefaultReplyTo));
      match send(m)
      case Sent(id) => Response(200, SendOk(id))
      case SendFailed(msg) => Response(500, Failure(ErrorText(msg, "Failed to send email")))
  }

  // ---------------------------------------------------------------------------
  // POST /api/send-marketing-email
  // ---------------------------------------------------------------------------

  /** The `recipients` field of the body: falsy, some non-array value, or an array. */
  datatype Recipients = Missing | NotArray | Array(items: seq<string>)

  const MaxRecipients: nat := 100

  /** The three checks of the campaign route, in their order. */
  function CampaignRejection(recipients: Recipients, subject: Option<string>, htmlContent: Option<string>)
    : (r: Option<string>)
    ensures (!recipients.Array? || recipients.items == []) ==> r == Some("Recipients must be a non-empty array")
    ensures (recipients.Array? && recipients.items != [] && (!StrTruthy(subject) || !StrTruthy(htmlContent))) ==>
      r == Some("Missing required fields: subject, htmlContent")
    ensures (recipients.Array? && recipients.items != [] && StrTruthy(subject) && StrTruthy(htmlContent)) ==>
      (r.None? <==> |recipients.items| <= MaxRecipients)
    ensures r.None? ==> recipients.Array? && 0 < |recipients.items| <= MaxRecipients
  {
    if !recipients.Array? || |recipients.items| == 0 then Some("Recipients must be a non-empty array")
    else if !StrTruthy(subject) || !StrTruthy(htmlContent) then Some("Missing required fields: subject, htmlContent")
    else if |recipients.items| > MaxRecipients then Some("Maximum 100 recipients per request")
    else None
  }

  /** The result recorded for one recipient. */
  function ResultFor(email: string, outcome: SendResult): (r: RecipientResult)
    ensures r.email == email
    ensures r.success <==> outcome.Sent?
  {
    match outcome
    case Sent(id) => RecipientResult(email, true, Some(id), None)
    case SendFailed(msg) => RecipientResult(email, false, None, msg)
  }

  /** The number of successful sends. */
  function CountSent(rs: seq<RecipientResult>): (n: nat)
    ensures n <= |rs|
    ensures n == 0 <==> forall i | 0 <= i < |rs| :: !rs[i].success
    ensures n == |rs| <==> forall i | 0 <= i < |rs| :: rs[i].success
  {
    if rs == [] then 0
    else
      var n := (if rs[0].success then 1 else 0) + CountSent(rs[1..]);
      assert forall i | 1 <= i < |rs| :: rs[i] == rs[1..][i - 1];
      n
  }

  /** The number of failed sends. */
  function CountFailed(rs: seq<RecipientResult>): (n: nat)
    ensures n <= |rs|
    ensures n == 0 <==> forall i | 0 <= i < |rs| :: rs[i].success
    ensures n == |rs| <==> forall i | 0 <= i < |rs| :: !rs[i].success
  {
    if rs == [] then 0
    else
      var n := (if rs[0].success then 0 else 1) + CountFailed(rs[1..]);
      assert forall i | 1 <= i < |rs| :: rs[i] == rs[1..][i - 1];
      n
  }

  /** Each result is either a success or a failure. */
  lemma {:induction false} SentPlusFailed(rs: seq<RecipientResult>)
    ensures CountSent(rs) + CountFailed(rs) == |rs|
  {
    if rs != [] {
      SentPlusFailed(rs[1..]);
    }
  }

  /** `/api/send-marketing-email`: after the checks, one send per recipient in order, with
      `send(i, mail)` the transporter's answer for the i-th one; a failure is recorded and
      the loop goes on. The 500 path of the outer `catch` has nothing left to catch here. */
  method SendMarketingEmail(recipients: Recipients, subject: Option<string>, htmlContent: Option<string>,
                            send: (nat, Mail) -> SendResult)
    returns (r: Response)
    ensures CampaignRejection(recipients, subject, htmlContent).Some? ==>
      r == Response(400, Failure(CampaignRejection(recipients, subject, htmlContent).value))
    ensures CampaignRejection(recipients, subject, htmlContent).None? ==>
      && r.status == 200 && r.body.CampaignOk?
      && |r.body.results| == |recipients.items|
      && (forall i | 0 <= i < |r.body.results| ::
            r.body.results[i] == ResultFor(recipients.items[i],
              send(i, Mail(recipients.items[i], subject.value, htmlContent.value, DefaultReplyTo))))
      && r.body.totalSent == CountSent(r.body.results)
      && r.body.totalFailed == CountFailed(r.body.results)
      && r.body.totalSent + r.body.totalFailed == |recipients.items|
  {
    var rejection := CampaignRejection(recipients, subject, htmlContent);
    if rejection.Some? {
      return Response(400, Failure(rejection.value));
    }
    var items := recipients.items;
    var results: seq<RecipientResult> := [];
    for i := 0 to |items|
      invariant |results| == i
      invariant forall j | 0 <= j < i ::
        results[j] == ResultFor(items[j], send(j, Mail(items[j], subject.value, htmlContent.value, DefaultReplyTo)))
    {
      var outcome := send(i, Mail(items[i], subject.value, htmlContent.value, DefaultReplyTo));
      match outcome {
        case Sent(id) =>
          results := results + [RecipientResult(items[i], true, Some(id), None)];
        case SendFailed(msg) =>
          results := results + [RecipientResult(items[i], false, None, msg)];
      }
    }
    SentPlusFailed(results);
    r := Response(200, CampaignOk(CountSent(results), CountFailed(results), results));
  }

  /** A batch of exactly 100 recipients passes the size check; 101 does not. */
  lemma BatchLimitBoundary(a: seq<string>, b: seq<string>, subject: string, html: string)
    requires |a| == 100 && |b| == 101 && subject != "" && html != ""
    ensures CampaignRejection(Array(a), Some(subject), Some(html)).None?
    ensures CampaignRejection(Array(b), Some(subject), Some(html)) == Some("Maximum 100 recipients per request")
  {
  }
}
