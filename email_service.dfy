/** backend/services/email_service.py: rendering a training email as HTML and
    plain text, substituting the tracking link, choosing the content to send,
    judging the transport's answer, and the process-wide service instance.

    SendGrid is not modelled: `send_email` hands a `Mail` value to a
    `transport` function that answers with a status code or an exception,
    and the mail handed over is returned so that contracts can speak of it. */
module Email {
  import opened Common
  import opened PyText

  // ---------------------------------------------------------------- data

  /** The `email_data` dictionary both callers build. Text fields are always
      strings there; an explicit null indicator list or explanation renders
      like an empty one, so they are kept as `[]` and `""`. */
  datatype EmailData = EmailData(
    emailType: string,
    subject: string,
    senderEmail: string,
    recipientEmail: string,
    body: string,
    indicators: seq<string>,
    explanation: string,
    clickTrackingId: Option<string>)

  /** `Content(mime_type, text)`. */
  datatype Content = Content(mimeType: string, text: string)

  /** The tracking settings and custom argument attached to a mail. */
  datatype Tracking = Tracking(clickTracking: bool, clickTrackingText: bool, openTracking: bool, trackingId: string)

  /** The `Mail` object handed to SendGrid. */
  datatype Mail = Mail(fromEmail: string, toEmail: string, subject: string, content: Content, tracking: Option<Tracking>)

  /** What `sg.send(mail)` does: answer with a status code, or raise. */
  datatype TransportOutcome = Status(code: int) | TransportRaised

  const DefaultFromEmail := "noreply@phishschool.com"
  const NotConfigured := "SendGrid email service is required but not properly configured"

  /** `os.getenv("SENDGRID_FROM_EMAIL", "noreply@phishschool.com")`: a set
      variable is used as it is, even when empty. */
  function EnvFromEmail(fromEnv: Option<string>): string {
    if fromEnv.Some? then fromEnv.value else DefaultFromEmail
  }

  // ------------------------------------------------------------- helpers

  /** `open + x + close` for each item, in order. */
  function Wrapped(items: seq<string>, open: string, close: string): string
  {
    if items == [] then ""
    else Wrapped(items[..|items| - 1], open, close) + (open + items[|items| - 1] + close)
  }

  /** Wrapping distributes over concatenation of the item lists. */
  lemma {:induction false} WrappedAppend(a: seq<string>, b: seq<string>, open: string, close: string)
    ensures Wrapped(a + b, open, close) == Wrapped(a, open, close) + Wrapped(b, open, close)
    decreases |b|
  {
    if b != [] {
      var init := b[..|b| - 1];
      assert (a + b)[..|a + b| - 1] == a + init;
      WrappedAppend(a, init, open, close);
    } else {
      assert a + b == a;
    }
  }

  /** One wrapped line per item, in order: item `k` sits right after the
      lines of the items before it and right before those after it. */
  lemma WrappedItemAt(items: seq<string>, open: string, close: string, k: nat)
    requires k < |items|
    ensures Wrapped(items, open, close)
         == Wrapped(items[..k], open, close) + open + items[k] + close + Wrapped(items[k + 1..], open, close)
  {
    assert items == items[..k] + [items[k]] + items[k + 1..];
    WrappedAppend(items[..k] + [items[k]], items[k + 1..], open, close);
    WrappedAppend(items[..k], [items[k]], open, close);
    assert Wrapped([items[k]], open, close) == open + items[k] + close;
  }

  /** A wrapped list holds no brace when neither the items nor the markup do. */
  lemma {:induction false} WrappedBraceFree(items: seq<string>, open: string, close: string)
    requires '{' !in open && '{' !in close
    requires forall x :: x in items ==> '{' !in x
    ensures '{' !in Wrapped(items, open, close)
  {
    if items != [] {
      assert items[|items| - 1] in items;
      WrappedBraceFree(items[..|items| - 1], open, close);
    }
  }

  // ------------------------------------------------- indicators, explanation

  const IndicatorsOpen := "<div class=\"indicators\">" + "<h4>🚨 Phishing Indicators:</h4><ul>"
  const IndicatorsClose := "</ul></div>"
  const ItemOpen := "<li>"
  const ItemClose := "</li>"

  /** The specification of `_format_phishing_indicators`. */
  function IndicatorsHtml(items: seq<string>): string {
    if items == [] then "" else IndicatorsOpen + Wrapped(items, ItemOpen, ItemClose) + IndicatorsClose
  }

  /** The indicator block is empty exactly when there are no indicators;
      otherwise it is fixed markup around one list item per indicator. */
  lemma IndicatorsHtmlShape(items: seq<string>)
    ensures IndicatorsHtml(items) == "" <==> items == []
    ensures items != [] ==>
      IndicatorsHtml(items)[|IndicatorsOpen|..|IndicatorsHtml(items)| - |IndicatorsClose|]
        == Wrapped(items, ItemOpen, ItemClose)
  {
    if items != [] {
      var s := IndicatorsHtml(items);
      assert s[0] == '<';
      var w := Wrapped(items, ItemOpen, ItemClose);
      assert s == IndicatorsOpen + w + IndicatorsClose;
      assert s[|IndicatorsOpen|..|s| - |IndicatorsClose|] == w;
    }
  }

  /** `_format_phishing_indicators`: opens the block, appends one list item
      per indicator, closes the block. */
  method FormatPhishingIndicators(items: seq<string>) returns (html: string)
    ensures html == IndicatorsHtml(items)
  {
    if items == [] {
      return "";
    }
    html := IndicatorsOpen;
    var i := 0;
    while i < |items|
      invariant 0 <= i <= |items|
      invariant html == IndicatorsOpen + Wrapped(items[..i], ItemOpen, ItemClose)
    {
      assert items[..i + 1][..i] == items[..i];
      html := html + (ItemOpen + items[i] + ItemClose);
      i := i + 1;
    }
    assert items[..i] == items;
    html := html + IndicatorsClose;
  }

  const ExplanationStyle := "background: #e7f3ff; " + "border: 1px solid #b3d9ff; "
                            + "padding: 10px; border-radius: 5px; " + "margin: 10px 0;"
  const ExplanationHeading := "<h4>💡 Explanation:</h4>"
  const ExplanationOpen := "<div style=\"" + ExplanationStyle + "\">" + ExplanationHeading + "<p>"
  const ExplanationClose := "</p></div>"

  /** `_format_explanation`: nothing for an empty explanation, otherwise the
      explanation inside fixed markup, from which it can be read back. */
  function FormatExplanation(explanation: string): (html: string)
    ensures html == "" <==> explanation == ""
    ensures explanation != "" ==>
      |ExplanationOpen| + |ExplanationClose| <= |html|
      && html[|ExplanationOpen|..|html| - |ExplanationClose|] == explanation
  {
    if explanation == "" then ""
    else
      var html := ExplanationOpen + explanation + ExplanationClose;
      assert html[|ExplanationOpen|..|html| - |ExplanationClose|] == explanation;
      html
  }

  // ------------------------------------------------------------ HTML body

  const HtmlPlaceholder := "{TRACKING_URL}"

  function HtmlBadge(emailType: string): string {
    if emailType == "phishing" then "🔴 PHISHING" else "🟢 LEGITIMATE"
  }

  function BadgeClass(emailType: string): string {
    if emailType == "phishing" then "phishing" else "legitimate"
  }

  /** The document head and the header with the subject and the badge. */
  function HtmlHeader(d: EmailData): string {
    "<!DOCTYPE html><html><head><title>" + d.subject + "</title></head><body>"
    + "<div class=\"header\"><h2>" + d.subject + "</h2>"
    + "<span class=\"badge " + BadgeClass(d.emailType) + "\">" + HtmlBadge(d.emailType) + "</span></div>"
  }

  /** The sender and recipient lines. */
  function HtmlAddresses(d: EmailData): string {
    "<p><strong>From:</strong> " + d.senderEmail + "</p>"
    + "<p><strong>To:</strong> " + d.recipientEmail + "</p>"
  }

  /** The body, with each newline turned into a line break. */
  function HtmlBody(d: EmailData): string {
    "<div>" + Replace(d.body, "\n", "<br>") + "</div>"
  }

  /** The part of the HTML document before the tracking placeholder. The
      style sheet and the fixed footer sentences are not modelled; the
      fields, the badge and the two optional blocks are. */
  function HtmlBeforePlaceholder(d: EmailData): string {
    HtmlHeader(d)
    + "<div class=\"content\">" + HtmlAddresses(d) + HtmlBody(d)
    + IndicatorsHtml(d.indicators) + FormatExplanation(d.explanation)
    + "</div><div class=\"footer\">"
  }

  const HtmlAfterPlaceholder := "</div></body></html>"

  /** `_create_email_html`. The f-string turns `{{TRACKING_URL}}` into
      `{TRACKING_URL}`, so that is what the document carries. */
  function CreateEmailHtml(d: EmailData): (html: string)
    ensures html != ""
    ensures Occurs(HtmlPlaceholder, html)
  {
    var before := HtmlBeforePlaceholder(d);
    var html := before + HtmlPlaceholder + HtmlAfterPlaceholder;
    assert html[|before|..|before| + |HtmlPlaceholder|] == HtmlPlaceholder;
    assert OccursAt(HtmlPlaceholder, html, |before|);
    html
  }

  // ------------------------------------------------------ plain-text body

  const PlainPlaceholder := "{{TRACKING_URL}}"
  const PlainNotice := "This is a PhishSchool training email for educational purposes.\n"

  function TypeLabel(emailType: string): string {
    if emailType == "phishing" then "PHISHING" else "LEGITIMATE"
  }

  function PlainHeader(d: EmailData): string {
    "\nSubject: " + d.subject + "\nFrom: " + d.senderEmail + "\nTo: " + d.recipientEmail
    + "\nType: " + TypeLabel(d.emailType) + "\n\n" + d.body + "\n\n"
  }

  function PlainIndicators(items: seq<string>): string {
    if items == [] then "" else "Phishing Indicators:\n" + Wrapped(items, "- ", "\n") + "\n"
  }

  function PlainExplanation(explanation: string): string {
    if explanation == "" then "" else "Explanation: " + explanation + "\n\n"
  }

  /** The specification of `_create_email_plain`. */
  function PlainText(d: EmailData): string {
    PlainHeader(d) + PlainIndicators(d.indicators) + PlainExplanation(d.explanation)
    + PlainNotice + (PlainPlaceholder + "\n")
  }

  /** `_create_email_plain`: the header, then the indicator lines when there
      are indicators, the explanation line when there is an explanation, and
      the footer with the placeholder. */
  method CreateEmailPlain(d: EmailData) returns (plain: string)
    ensures plain == PlainText(d)
  {
    plain := PlainHeader(d);
    if d.indicators != [] {
      plain := plain + "Phishing Indicators:\n";
      var i := 0;
      while i < |d.indicators|
        invariant 0 <= i <= |d.indicators|
        invariant plain == PlainHeader(d) + "Phishing Indicators:\n" + Wrapped(d.indicators[..i], "- ", "\n")
      {
        assert d.indicators[..i + 1][..i] == d.indicators[..i];
        plain := plain + ("- " + d.indicators[i] + "\n");
        i := i + 1;
      }
      assert d.indicators[..i] == d.indicators;
      plain := plain + "\n";
    }
    assert plain == PlainHeader(d) + PlainIndicators(d.indicators);
    if d.explanation != "" {
      plain := plain + ("Explanation: " + d.explanation + "\n\n");
    }
    assert plain == PlainHeader(d) + PlainIndicators(d.indicators) + PlainExplanation(d.explanation);
    plain := plain + PlainNotice;
    plain := plain + (PlainPlaceholder + "\n");
  }

  /** A text made of five parts opens with the first and ends with the last two. */
  lemma Ends(a: string, b: string, c: string, e: string, f: string)
    ensures var x := a + b + c + e + f;
      |a| <= |x| && x[..|a|] == a && |e + f| <= |x| && x[|x| - |e + f|..] == e + f
  {
    var x := a + b + c + e + f;
    assert x == a + (b + c + e + f);
    assert x == (a + b + c) + (e + f);
  }

  /** The plain text opens with the header, has an indicator section exactly
      when there are indicators (one `- x` line per indicator, in order, by
      `WrappedItemAt`), an explanation line exactly when there is an
      explanation, and always ends with the notice and the placeholder. */
  lemma PlainTextLayout(d: EmailData)
    ensures var p := PlainText(d);
      && |PlainHeader(d)| <= |p| && p[..|PlainHeader(d)|] == PlainHeader(d)
      && (PlainIndicators(d.indicators) == "" <==> d.indicators == [])
      && (PlainExplanation(d.explanation) == "" <==> d.explanation == "")
      && |PlainNotice + (PlainPlaceholder + "\n")| <= |p|
      && p[|p| - |PlainNotice + (PlainPlaceholder + "\n")|..] == PlainNotice + (PlainPlaceholder + "\n")
  {
    Ends(PlainHeader(d), PlainIndicators(d.indicators), PlainExplanation(d.explanation), PlainNotice, PlainPlaceholder + "\n");
    if d.indicators != [] {
      assert PlainIndicators(d.indicators)[0] == 'P';
    }
    if d.explanation != "" {
      assert PlainExplanation(d.explanation)[0] == 'E';
    }
  }

  /** The plain text always carries the `{{TRACKING_URL}}` placeholder. */
  lemma PlainHasPlaceholder(d: EmailData)
    ensures Occurs(PlainPlaceholder, PlainText(d))
  {
    var p := PlainText(d);
    var before := PlainHeader(d) + PlainIndicators(d.indicators) + PlainExplanation(d.explanation) + PlainNotice;
    assert p == before + PlainPlaceholder + "\n";
    assert p[|before|..|before| + |PlainPlaceholder|] == PlainPlaceholder;
    assert OccursAt(PlainPlaceholder, p, |before|);
  }

  // ------------------------------------------------- tracking substitution

  function TrackingUrl(id: string): string {
    "http://localhost:8000/api/track/" + id
  }

  function HtmlLink(url: string): string {
    "<a href=\"" + url + "\" style=\"color: #007bff; text-decoration: underline;\">Click here</a>"
  }

  function PlainLink(url: string): string {
    "Click here: " + url
  }

  /** The link is substituted only into phishing emails with a tracking id. */
  predicate LinksTracked(d: EmailData) {
    d.emailType == "phishing" && Truthy(d.clickTrackingId)
  }

  /** The HTML and plain text after the conditional substitution. */
  function LinkedHtml(d: EmailData): string {
    var html := CreateEmailHtml(d);
    if LinksTracked(d) then Replace(html, PlainPlaceholder, HtmlLink(TrackingUrl(d.clickTrackingId.value))) else html
  }

  function LinkedPlain(d: EmailData): string {
    var plain := PlainText(d);
    if LinksTracked(d) then Replace(plain, PlainPlaceholder, PlainLink(TrackingUrl(d.clickTrackingId.value))) else plain
  }

  /** With a tracking link, the plain text carries "Click here: " and the
      tracking URL built from the id. */
  lemma PlainGetsLink(d: EmailData)
    requires LinksTracked(d)
    ensures Occurs(PlainLink(TrackingUrl(d.clickTrackingId.value)), LinkedPlain(d))
  {
    PlainHasPlaceholder(d);
    ReplaceInserts(PlainText(d), PlainPlaceholder, PlainLink(TrackingUrl(d.clickTrackingId.value)));
  }

  /** No field of the email holds a brace. */
  predicate BraceFree(d: EmailData) {
    && '{' !in d.subject && '{' !in d.senderEmail && '{' !in d.recipientEmail
    && '{' !in d.body && '{' !in d.explanation && '{' !in d.emailType
    && forall x :: x in d.indicators ==> '{' !in x
  }

  /** The fixed markup of the indicator block holds no brace. */
  lemma IndicatorMarkupBraceFree()
    ensures '{' !in IndicatorsOpen && '{' !in IndicatorsClose
    ensures '{' !in ItemOpen && '{' !in ItemClose
  {
  }

  /** The fixed markup of the explanation block holds no brace. */
  lemma ExplanationStyleBraceFree()
    ensures '{' !in ExplanationStyle
  {
    assert '{' !in "background: #e7f3ff; " + "border: 1px solid #b3d9ff; ";
  }

  lemma ExplanationMarkupBraceFree()
    ensures '{' !in ExplanationOpen && '{' !in ExplanationClose
  {
    ExplanationStyleBraceFree();
  }

  lemma BadgeBraceFree(emailType: string)
    ensures '{' !in BadgeClass(emailType) && '{' !in HtmlBadge(emailType)
  {
  }

  /** The fixed markup of the header holds no brace. */
  lemma HeadMarkupBraceFree()
    ensures '{' !in "<!DOCTYPE html><html><head><title>" && '{' !in "</title></head><body>"
  {
  }

  lemma TitleMarkupBraceFree()
    ensures '{' !in "<div class=\"header\"><h2>" && '{' !in "</h2>"
  {
  }

  lemma BadgeMarkupBraceFree()
    ensures '{' !in "<span class=\"badge " && '{' !in "\">" && '{' !in "</span></div>"
  {
  }

  lemma HeaderBraceFree(d: EmailData)
    requires BraceFree(d)
    ensures '{' !in HtmlHeader(d)
  {
    BadgeBraceFree(d.emailType);
    HeadMarkupBraceFree();
    TitleMarkupBraceFree();
    BadgeMarkupBraceFree();
  }

  lemma AddressesBraceFree(d: EmailData)
    requires BraceFree(d)
    ensures '{' !in HtmlAddresses(d)
  {
  }

  lemma BodyBraceFree(d: EmailData)
    requires BraceFree(d)
    ensures '{' !in HtmlBody(d)
  {
    ReplaceAvoids(d.body, "\n", "<br>", '{');
  }

  lemma BlocksBraceFree(d: EmailData)
    requires BraceFree(d)
    ensures '{' !in IndicatorsHtml(d.indicators) + FormatExplanation(d.explanation)
  {
    IndicatorMarkupBraceFree();
    ExplanationMarkupBraceFree();
    WrappedBraceFree(d.indicators, ItemOpen, ItemClose);
  }

  /** The HTML document before the placeholder holds no brace when the
      fields hold none. */
  lemma BeforePlaceholderBraceFree(d: EmailData)
    requires BraceFree(d)
    ensures '{' !in HtmlBeforePlaceholder(d)
  {
    HeaderBraceFree(d);
    AddressesBraceFree(d);
    BodyBraceFree(d);
    BlocksBraceFree(d);
  }

  /** No two braces are adjacent in `s`. */
  predicate NoDoubleBrace(s: string) {
    forall i :: 0 <= i < |s| - 1 ==> s[i] != '{' || s[i + 1] != '{'
  }

  /** A single `{TRACKING_URL}` between two brace-free strings gives no
      two adjacent braces. */
  lemma SingleBraceBetween(a: string, b: string)
    requires '{' !in a && '{' !in b
    ensures NoDoubleBrace(a + HtmlPlaceholder + b)
  {
    var s := a + HtmlPlaceholder + b;
    var n := |HtmlPlaceholder|;
    assert forall k :: 0 < k < n ==> HtmlPlaceholder[k] != '{';
    forall i | 0 <= i < |s| - 1
      ensures s[i] != '{' || s[i + 1] != '{'
    {
      if i < |a| {
        assert s[i] == a[i];
      } else if i < |a| + n {
        if i == |a| {
          assert s[i + 1] == HtmlPlaceholder[1];
        } else {
          assert s[i] == HtmlPlaceholder[i - |a|];
        }
      } else {
        assert s[i] == b[i - |a| - n];
      }
    }
  }

  /** Text with no two adjacent opening braces holds no `{{TRACKING_URL}}`. */
  lemma NoDoubleBraceNoPlaceholder(s: string)
    requires NoDoubleBrace(s)
    ensures !Occurs(PlainPlaceholder, s)
  {
    assert PlainPlaceholder[0] == '{' && PlainPlaceholder[1] == '{';
    forall i | 0 <= i <= |s| - |PlainPlaceholder|
      ensures !OccursAt(PlainPlaceholder, s, i)
    {
      assert s[i..i + |PlainPlaceholder|][0] == s[i];
      assert s[i..i + |PlainPlaceholder|][1] == s[i + 1];
    }
  }

  /** The HTML document holds a single brace pair, so `{{` never occurs in it
      when the fields hold no brace. */
  lemma HtmlHasNoDoubleBrace(d: EmailData)
    requires BraceFree(d)
    ensures !Occurs(PlainPlaceholder, CreateEmailHtml(d))
  {
    BeforePlaceholderBraceFree(d);
    assert '{' !in HtmlAfterPlaceholder;
    SingleBraceBetween(HtmlBeforePlaceholder(d), HtmlAfterPlaceholder);
    NoDoubleBraceNoPlaceholder(CreateEmailHtml(d));
  }

  /** The HTML substitution never changes the document when its fields hold
      no brace: the template's `{{TRACKING_URL}}` was rendered as
      `{TRACKING_URL}`, so only the plain text gets the link. */
  lemma HtmlNeverLinked(d: EmailData)
    requires BraceFree(d)
    ensures LinkedHtml(d) == CreateEmailHtml(d)
  {
    if LinksTracked(d) {
      HtmlHasNoDoubleBrace(d);
      ReplaceAbsent(CreateEmailHtml(d), PlainPlaceholder, HtmlLink(TrackingUrl(d.clickTrackingId.value)));
    }
  }

  // -------------------------------------------------------------- sending

  const AcceptedCodes: set<int> := {200, 201, 202}

  predicate Accepted(outcome: TransportOutcome) {
    outcome.Status? && outcome.code in AcceptedCodes
  }

  /** The SendGrid-backed service. Its settings are read once, at creation. */
  class EmailService {
    const apiKey: string
    const fromEmail: string

    /** `EmailService()`, given `SENDGRID_API_KEY`, which must be set and
        non-empty, and `SENDGRID_FROM_EMAIL`, which defaults when unset. */
    constructor (apiKey: string, fromEnv: Option<string>)
      requires apiKey != ""
      ensures this.apiKey == apiKey
      ensures fromEnv.Some? ==> fromEmail == fromEnv.value
      ensures fromEnv.None? ==> fromEmail == DefaultFromEmail
    {
      this.apiKey := apiKey;
      this.fromEmail := EnvFromEmail(fromEnv);
    }

    /** `send_email`: the HTML content when there is any, else the plain
        text, else nothing is sent; tracking is attached exactly when a
        tracking id is given; success is a status of 200, 201 or 202. */
    method SendEmail(toEmail: string, subject: string, htmlContent: string, plainContent: Option<string>,
                     trackingId: Option<string>, transport: Mail -> TransportOutcome)
      returns (ok: bool, sent: Option<Mail>)
      ensures htmlContent != "" ==> sent.Some? && sent.value.content == Content("text/html", htmlContent)
      ensures htmlContent == "" && Truthy(plainContent) ==>
        sent.Some? && sent.value.content == Content("text/plain", plainContent.value)
      ensures htmlContent == "" && !Truthy(plainContent) ==> sent.None? && !ok
      ensures sent.Some? ==>
        && sent.value.fromEmail == fromEmail
        && sent.value.toEmail == toEmail
        && sent.value.subject == subject
        && (sent.value.tracking.Some? <==> Truthy(trackingId))
        && (sent.value.tracking.Some? ==> sent.value.tracking.value == Tracking(true, false, true, trackingId.value))
      ensures ok <==> sent.Some? && Accepted(transport(sent.value))
    {
      var content: Content;
      if htmlContent != "" {
        content := Content("text/html", htmlContent);
      } else if Truthy(plainContent) {
        content := Content("text/plain", plainContent.value);
      } else {
        return false, None;
      }
      var mail := Mail(fromEmail, toEmail, subject, content, None);
      if Truthy(trackingId) {
        mail := mail.(tracking := Some(Tracking(true, false, true, trackingId.value)));
      }
      var response := transport(mail);
      ok := response.Status? && response.code in AcceptedCodes;
      sent := Some(mail);
    }

    /** `send_campaign_email`: renders both bodies, substitutes the tracking
        link, and sends. The HTML document is never empty, so it is always
        what is sent, and the plain text (the only one the link reaches)
        never leaves the service. */
    method SendCampaignEmail(d: EmailData, recipientEmail: string, transport: Mail -> TransportOutcome)
      returns (ok: bool, sent: Option<Mail>)
      ensures sent.Some?
      ensures sent.value.content == Content("text/html", LinkedHtml(d))
      ensures sent.value.toEmail == recipientEmail && sent.value.subject == d.subject
      ensures sent.value.fromEmail == fromEmail
      ensures sent.value.tracking.Some? <==> Truthy(d.clickTrackingId)
      ensures ok <==> Accepted(transport(sent.value))
    {
      var html := CreateEmailHtml(d);
      var plain := CreateEmailPlain(d);
      if d.emailType == "phishing" && Truthy(d.clickTrackingId) {
        var url := TrackingUrl(d.clickTrackingId.value);
        html := Replace(html, PlainPlaceholder, HtmlLink(url));
        plain := Replace(plain, PlainPlaceholder, PlainLink(url));
      }
      ok, sent := SendEmail(recipientEmail, d.subject, html, Some(plain), d.clickTrackingId, transport);
    }
  }

  /** The module-level `email_service` variable of `get_email_service`. */
  class ServiceRegistry {
    var instance: EmailService?

    constructor ()
      ensures instance == null
    {
      instance := null;
    }

    /** `get_email_service`: creates the service on the first successful call
        and returns that same instance on every later call; without an API
        key, creation fails and nothing is stored. */
    method GetEmailService(apiKey: Option<string>, fromEnv: Option<string>) returns (r: Result<EmailService, string>)
      modifies this
      ensures old(instance) != null ==> r == Ok(old(instance)) && instance == old(instance)
      ensures old(instance) == null && Truthy(apiKey) ==>
        && r.Ok? && fresh(r.value) && instance == r.value
        && r.value.apiKey == apiKey.value
        && r.value.fromEmail == EnvFromEmail(fromEnv)
      ensures old(instance) == null && !Truthy(apiKey) ==> r == Err(NotConfigured) && instance == null
    {
      if instance == null {
        if !Truthy(apiKey) {
          return Err(NotConfigured);
        }
        instance := new EmailService(apiKey.value, fromEnv);
      }
      return Ok(instance);
    }
  }
}
