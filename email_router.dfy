/** The `/email/send-phishing-now` endpoint: look up the user's address,
    generate a phishing email (or fall back to a fixed one), and send it
    through the shared email service without a tracking link. */
module EmailRouter {
  import opened Common
  import G = GeminiClient
  import E = Email
  import S = SupabaseService

  /** `SendPhishingNowRequest`. */
  datatype PhishingNowRequest = PhishingNowRequest(userId: string, difficulty: Option<string>, theme: Option<string>)

  /** The JSON body of a handled request. */
  datatype SendResult = SendResult(success: bool, message: string)

  /** An `HTTPException` raised by the route. */
  datatype HttpError = HttpError(status: int, detail: string)

  const UserNotFound := HttpError(404, "User email not found")

  // The template used when generation fails, in pieces short enough for
  // the solver to compare cheaply.
  const FallbackSubject := "Urgent: " + "Verify Your Account"
  const FallbackBody := "We detected unusual activity. " + "Click the link to verify your identity "
                        + "immediately.\n\n" + "Failure to act may result in "
                        + "account suspension."
  const FallbackIndicators := ["Urgent language", "Threat of account " + "suspension",
                               "Request to click a link"]
  const FallbackExplanation := "Uses urgency and threats " + "to coerce action."

  /** The static template used when generation fails. */
  function FallbackMessage(fromEnv: Option<string>): (p: G.Payload)
    ensures p.Keys == {"subject", "sender", "body", "phishing_indicators", "explanation"}
  {
    map[
      "subject" := G.Str(FallbackSubject),
      "sender" := G.Str(E.EnvFromEmail(fromEnv)),
      "body" := G.Str(FallbackBody),
      "phishing_indicators" := G.StrList(FallbackIndicators),
      "explanation" := G.Str(FallbackExplanation)]
  }

  /** The generation request: a phishing email at the requested difficulty,
      medium when none is given. */
  function NowRequest(req: PhishingNowRequest): (g: G.GenRequest)
    ensures g.messageType == "email" && g.contentType == "phishing"
    ensures g.difficulty == (if Truthy(req.difficulty) then req.difficulty.value else "medium")
    ensures g.theme == req.theme && g.customPrompt.None?
  {
    G.GenRequest("email", "phishing", OrElse(req.difficulty, "medium"), req.theme, None)
  }

  /** The message the route sends: the generated one, or the template when
      generation raises. */
  function NowMessage(req: PhishingNowRequest, reply: (string, nat) -> G.Reply, parse: string -> G.JsonDoc,
                      fromEnv: Option<string>): G.Payload
  {
    match G.GenerateSpec(NowRequest(req), reply, parse)
    case Ok(p) => p
    case Err(_) => FallbackMessage(fromEnv)
  }

  /** Python's truthiness of a JSON value. */
  predicate ValueTruthy(v: G.Value) {
    match v
    case Null => false
    case Int(i) => i != 0
    case Str(s) => s != ""
    case StrList(items) => items != []
  }

  /** `message_data.get("explanation", default)` as the email renders it:
      a missing explanation gets the default; a present one is written with
      `str(...)` when it is truthy and not written at all otherwise. */
  function ExplanationOf(p: G.Payload): (e: string)
    ensures "explanation" !in p ==> e == "This is a simulated phishing email."
    ensures "explanation" in p ==> (e == "" <==> !ValueTruthy(p["explanation"]))
    ensures "explanation" in p && p["explanation"].Str? ==> e == p["explanation"].s
    ensures "explanation" in p && ValueTruthy(p["explanation"]) ==> e == G.PyStr(p["explanation"])
  {
    if "explanation" !in p then "This is a simulated phishing email."
    else if ValueTruthy(p["explanation"]) then G.PyStr(p["explanation"])
    else ""
  }

  /** A text field of the generated message that `get(key) or default`
      keeps: present, a string, and not empty. */
  predicate KeptText(msg: G.Payload, key: string) {
    key in msg && msg[key].Str? && msg[key].s != ""
  }

  /** The `email_data` the route builds: the generated subject, sender and
      body when they are non-empty strings and the fixed defaults otherwise,
      the generated indicators when they are a list, and no tracking id. */
  function NowData(msg: G.Payload, recipient: string, fromEnv: Option<string>): (d: E.EmailData)
    ensures d.emailType == "phishing" && d.recipientEmail == recipient && d.clickTrackingId.None?
    ensures KeptText(msg, "subject") ==> d.subject == msg["subject"].s
    ensures !KeptText(msg, "subject") ==> d.subject == "Security Alert"
    ensures KeptText(msg, "sender") ==> d.senderEmail == msg["sender"].s
    ensures !KeptText(msg, "sender") ==> d.senderEmail == E.EnvFromEmail(fromEnv)
    ensures KeptText(msg, "body") ==> d.body == msg["body"].s
    ensures !KeptText(msg, "body") ==> d.body == "Please verify your account."
    ensures "phishing_indicators" in msg && msg["phishing_indicators"].StrList? ==>
      d.indicators == msg["phishing_indicators"].items
    ensures !("phishing_indicators" in msg && msg["phishing_indicators"].StrList?) ==> d.indicators == []
    ensures d.explanation == ExplanationOf(msg)
    ensures d.subject != "" && d.body != ""
  {
    E.EmailData(
      "phishing",
      G.TextOr(msg, "subject", "Security Alert"),
      G.TextOr(msg, "sender", E.EnvFromEmail(fromEnv)),
      recipient,
      G.TextOr(msg, "body", "Please verify your account."),
      G.ListOr(msg, "phishing_indicators"),
      ExplanationOf(msg),
      None)
  }

  /** When generation fails the template's texts are what is sent, from
      the configured sender. */
  lemma FallbackDataIsTemplate(recipient: string, fromEnv: Option<string>)
    ensures var d := NowData(FallbackMessage(fromEnv), recipient, fromEnv);
      && d.subject == FallbackSubject && d.body == FallbackBody
      && d.indicators == FallbackIndicators && d.explanation == FallbackExplanation
      && d.senderEmail == E.EnvFromEmail(fromEnv)
  {
  }

  /** The route's email carries no tracking link: with no tracking id the
      HTML document goes out exactly as rendered. */
  lemma NowMailHasNoLink(msg: G.Payload, recipient: string, fromEnv: Option<string>)
    ensures E.LinkedHtml(NowData(msg, recipient, fromEnv)) == E.CreateEmailHtml(NowData(msg, recipient, fromEnv))
  {
  }

  /** The generation step of `send_phishing_now`, with its fallback. */
  method ComposeMessage(req: PhishingNowRequest, reply: (string, nat) -> G.Reply, parse: string -> G.JsonDoc,
                        fromEnv: Option<string>) returns (message: G.Payload)
    ensures message == NowMessage(req, reply, parse, fromEnv)
  {
    var generated := G.GenerateMessage(NowRequest(req), reply, parse);
    message := if generated.Ok? then generated.value else FallbackMessage(fromEnv);
  }

  /** `send_phishing_now`. The address is looked up first; without one the
      route answers 404 before generating or sending anything. A mailer
      that cannot be set up answers 500. Otherwise the message is sent to
      the stored address and the answer says whether SendGrid accepted it. */
  method SendPhishingNow(req: PhishingNowRequest, users: seq<S.UserRow>, reply: (string, nat) -> G.Reply,
                         parse: string -> G.JsonDoc, registry: E.ServiceRegistry, apiKey: Option<string>,
                         fromEnv: Option<string>, transport: E.Mail -> E.TransportOutcome)
    returns (r: Result<SendResult, HttpError>, sent: Option<E.Mail>)
    modifies registry
    ensures !Truthy(S.GetUserEmail(users, req.userId)) ==>
      r == Err(UserNotFound) && sent.None? && registry.instance == old(registry.instance)
    ensures Truthy(S.GetUserEmail(users, req.userId)) && old(registry.instance) == null && !Truthy(apiKey) ==>
      r == Err(HttpError(500, "Failed to send phishing email: " + E.NotConfigured)) && sent.None?
    ensures Truthy(S.GetUserEmail(users, req.userId)) && (old(registry.instance) != null || Truthy(apiKey)) ==>
      var email := S.GetUserEmail(users, req.userId).value;
      var d := NowData(NowMessage(req, reply, parse, fromEnv), email, fromEnv);
      && registry.instance != null
      && sent == Some(E.Mail(registry.instance.fromEmail, email, d.subject, E.Content("text/html", E.CreateEmailHtml(d)), None))
      && r.Ok?
      && r.value == (if E.Accepted(transport(sent.value)) then SendResult(true, "Email sent to " + email)
                     else SendResult(false, "Failed to send email"))
  {
    var userEmail := S.GetUserEmail(users, req.userId);
    if !Truthy(userEmail) {
      return Err(UserNotFound), None;
    }
    var message := ComposeMessage(req, reply, parse, fromEnv);
    var service := registry.GetEmailService(apiKey, fromEnv);
    if service.Err? {
      return Err(HttpError(500, "Failed to send phishing email: " + service.error)), None;
    }
    var data := NowData(message, userEmail.value, fromEnv);
    var ok;
    ok, sent := service.value.SendCampaignEmail(data, userEmail.value, transport);
    NowMailHasNoLink(message, userEmail.value, fromEnv);
    if ok {
      r := Ok(SendResult(true, "Email sent to " + userEmail.value));
    } else {
      r := Ok(SendResult(false, "Failed to send email"));
    }
  }
}
