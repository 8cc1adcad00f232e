/** The `/generate` endpoints: request validation, the mapping of generation
    errors to 502, the random and sample endpoints and the info listing.

    A route's answer is the generated payload or an HTTP failure. The model
    and `json.loads` are the `reply` and `parse` parameters of the generation
    call; `random.choice` is an index chosen by the caller. */
module GenerateRouter {
  import opened Common
  import G = GeminiClient

  /** `MessageGenerationRequest`. `difficulty` may be sent as null. */
  datatype MessageRequest = MessageRequest(
    messageType: string,
    contentType: string,
    difficulty: Option<string>,
    theme: Option<string>,
    customPrompt: Option<string>)

  /** An `HTTPException` raised by a route: 400 with a detail, or 502 with
      the generation error whose text is the detail. */
  datatype HttpFailure = BadRequest(detail: string) | BadGateway(cause: G.GeminiError)

  function StatusCode(f: HttpFailure): int {
    match f
    case BadRequest(_) => 400
    case BadGateway(_) => 502
  }

  const MessageTypes: seq<string> := ["email", "sms"]
  const ContentTypes: seq<string> := ["phishing", "legitimate"]
  const Difficulties: seq<string> := ["easy", "medium", "hard"]
  const Themes: seq<string> := ["friend", "job", "offer", "bank", "health", "other"]

  const BadMessageType := "message_type must be either 'email' or 'sms'"
  const BadContentType := "content_type must be either 'phishing' or 'legitimate'"
  const BadDifficulty := "difficulty must be 'easy', 'medium', or 'hard'"

  /** The body of `GET /generate/`. */
  datatype GenerationInfo = GenerationInfo(
    message: string,
    description: string,
    messageTypes: seq<string>,
    contentTypes: seq<string>,
    difficulties: seq<string>,
    themes: seq<string>)

  /** `get_generation_info`. */
  function GetGenerationInfo(): (info: GenerationInfo)
    ensures |info.messageTypes| == 2 && |info.contentTypes| == 2
    ensures |info.difficulties| == 3 && |info.themes| == 6
    ensures info.messageTypes == MessageTypes && info.contentTypes == ContentTypes
    ensures info.difficulties == Difficulties && info.themes == Themes
  {
    GenerationInfo(
      "Message generation endpoint",
      "Generate fake phishing or legitimate emails/SMS for training purposes",
      MessageTypes, ContentTypes, Difficulties, Themes)
  }

  /** The validation of `generate_training_message`: the message type is
      checked first, then the content type, then the difficulty; the first
      failing check gives the detail. */
  function ValidationError(req: MessageRequest): (detail: Option<string>)
    ensures req.messageType !in MessageTypes ==> detail == Some(BadMessageType)
    ensures req.messageType in MessageTypes && req.contentType !in ContentTypes ==> detail == Some(BadContentType)
    ensures (&& req.messageType in MessageTypes && req.contentType in ContentTypes
             && (req.difficulty.None? || req.difficulty.value !in Difficulties)) ==> detail == Some(BadDifficulty)
  {
    if req.messageType !in MessageTypes then Some(BadMessageType)
    else if req.contentType !in ContentTypes then Some(BadContentType)
    else if req.difficulty.None? || req.difficulty.value !in Difficulties then Some(BadDifficulty)
    else None
  }

  /** A request is accepted exactly when every field takes a value the info
      endpoint advertises; a null difficulty is refused. */
  lemma ValidationMatchesInfo(req: MessageRequest)
    ensures ValidationError(req).None? <==>
      && req.messageType in GetGenerationInfo().messageTypes
      && req.contentType in GetGenerationInfo().contentTypes
      && req.difficulty.Some? && req.difficulty.value in GetGenerationInfo().difficulties
  {
  }

  /** The arguments a validated request passes to `generate_message`. */
  function ToGenRequest(req: MessageRequest): G.GenRequest
    requires req.difficulty.Some?
  {
    G.GenRequest(req.messageType, req.contentType, req.difficulty.value, req.theme, req.customPrompt)
  }

  /** A generation call whose `GeminiClientError` becomes a 502. */
  function Generate(req: G.GenRequest, reply: (string, nat) -> G.Reply, parse: string -> G.JsonDoc)
    : Result<G.Payload, HttpFailure>
  {
    match G.GenerateSpec(req, reply, parse)
    case Ok(p) => Ok(p)
    case Err(e) => Err(BadGateway(e))
  }

  /** `POST /generate/message`. */
  function GenerateTrainingMessage(req: MessageRequest, reply: (string, nat) -> G.Reply, parse: string -> G.JsonDoc)
    : (r: Result<G.Payload, HttpFailure>)
    ensures ValidationError(req).Some? ==> r == Err(BadRequest(ValidationError(req).value))
  {
    match ValidationError(req)
    case Some(detail) => Err(BadRequest(detail))
    case None => Generate(ToGenRequest(req), reply, parse)
  }

  /** A refused request never reaches the model: its answer is a 400 that
      does not depend on the model; an accepted one answers 502 exactly when
      generation fails, carrying that failure, and otherwise answers the
      generated message, stamped with the request and holding the fields
      its message type requires. */
  lemma GenerateTrainingMessageOutcomes(req: MessageRequest, reply: (string, nat) -> G.Reply,
                                        other: (string, nat) -> G.Reply, parse: string -> G.JsonDoc)
    ensures ValidationError(req).Some? ==>
      && GenerateTrainingMessage(req, reply, parse) == GenerateTrainingMessage(req, other, parse)
      && StatusCode(GenerateTrainingMessage(req, reply, parse).error) == 400
    ensures ValidationError(req).None? ==>
      var r := GenerateTrainingMessage(req, reply, parse);
      var g := G.GenerateSpec(ToGenRequest(req), reply, parse);
      && (r.Err? <==> g.Err?)
      && (r.Err? ==> r.error == BadGateway(g.error) && StatusCode(r.error) == 502)
      && (r.Ok? ==>
            && r.value["message_type"] == G.Str(req.messageType)
            && r.value["content_type"] == G.Str(req.contentType)
            && r.value["difficulty"] == G.Str(req.difficulty.value)
            && forall f :: f in G.RequiredFields(req.messageType) ==> G.Present(r.value, f))
  {
    if ValidationError(req).None? && G.GenerateSpec(ToGenRequest(req), reply, parse).Ok? {
      G.GeneratedMessageValid(ToGenRequest(req), reply, parse);
    }
  }

  /** The choices `random.choice` makes, as indices into the four lists. */
  datatype RandomDraw = RandomDraw(messageType: nat, contentType: nat, difficulty: nat, theme: nat)

  /** The request `generate_random_message` builds from a draw. */
  function RandomRequest(draw: RandomDraw): (req: G.GenRequest)
    ensures req.messageType in MessageTypes && req.contentType in ContentTypes
    ensures req.difficulty in Difficulties
    ensures req.theme.Some? && req.theme.value in Themes
    ensures req.customPrompt.None?
  {
    G.GenRequest(
      MessageTypes[draw.messageType % |MessageTypes|],
      ContentTypes[draw.contentType % |ContentTypes|],
      Difficulties[draw.difficulty % |Difficulties|],
      Some(Themes[draw.theme % |Themes|]),
      None)
  }

  /** Every combination of the lists can be drawn, and every drawn request
      would pass the validation of `POST /generate/message`. */
  lemma RandomRequestsAreValid(draw: RandomDraw, m: string, c: string, d: string, t: string)
    ensures var req := RandomRequest(draw);
      ValidationError(MessageRequest(req.messageType, req.contentType, Some(req.difficulty), req.theme, None)).None?
    ensures m in MessageTypes && c in ContentTypes && d in Difficulties && t in Themes ==>
      exists draw' :: RandomRequest(draw') == G.GenRequest(m, c, d, Some(t), None)
  {
    if m in MessageTypes && c in ContentTypes && d in Difficulties && t in Themes {
      var i :| 0 <= i < |MessageTypes| && MessageTypes[i] == m;
      var j :| 0 <= j < |ContentTypes| && ContentTypes[j] == c;
      var k :| 0 <= k < |Difficulties| && Difficulties[k] == d;
      var l :| 0 <= l < |Themes| && Themes[l] == t;
      assert RandomRequest(RandomDraw(i, j, k, l)) == G.GenRequest(m, c, d, Some(t), None);
    }
  }

  /** `POST /generate/random`: no validation, a 502 on generation failure. */
  function GenerateRandomMessage(draw: RandomDraw, reply: (string, nat) -> G.Reply, parse: string -> G.JsonDoc)
    : Result<G.Payload, HttpFailure>
  {
    Generate(RandomRequest(draw), reply, parse)
  }

  /** The random endpoint answers like the validated endpoint would for the
      same choices. */
  lemma RandomMatchesValidated(draw: RandomDraw, reply: (string, nat) -> G.Reply, parse: string -> G.JsonDoc)
    ensures var req := RandomRequest(draw);
      GenerateRandomMessage(draw, reply, parse)
        == GenerateTrainingMessage(MessageRequest(req.messageType, req.contentType, Some(req.difficulty), req.theme, None),
                                   reply, parse)
  {
    RandomRequestsAreValid(draw, "", "", "", "");
  }

  const SamplePhishingRequest := G.GenRequest("email", "phishing", "medium", Some("bank"), None)
  const SampleLegitimateRequest := G.GenRequest("email", "legitimate", "medium", Some("job"), None)

  /** `GET /generate/sample-phishing`. */
  function GetSamplePhishingMessage(reply: (string, nat) -> G.Reply, parse: string -> G.JsonDoc)
    : Result<G.Payload, HttpFailure>
  {
    Generate(SamplePhishingRequest, reply, parse)
  }

  /** `GET /generate/sample-legitimate`. */
  function GetSampleLegitimateMessage(reply: (string, nat) -> G.Reply, parse: string -> G.JsonDoc)
    : Result<G.Payload, HttpFailure>
  {
    Generate(SampleLegitimateRequest, reply, parse)
  }

  /** A generation through a route that succeeds answers the message
      stamped with the request and holding the fields its type requires. */
  lemma GenerateStamps(req: G.GenRequest, reply: (string, nat) -> G.Reply, parse: string -> G.JsonDoc)
    ensures var r := Generate(req, reply, parse);
      r.Ok? ==>
        && r.value["message_type"] == G.Str(req.messageType)
        && r.value["content_type"] == G.Str(req.contentType)
        && r.value["difficulty"] == G.Str(req.difficulty)
        && r.value["theme"] == (if req.theme.Some? then G.Str(req.theme.value) else G.Null)
        && forall f :: f in G.RequiredFields(req.messageType) ==> G.Present(r.value, f)
  {
    if Generate(req, reply, parse).Ok? {
      G.GeneratedMessageValid(req, reply, parse);
    }
  }

  /** The phishing sample is a bank-themed phishing email of medium
      difficulty: on success it carries that metadata and the four email
      fields. */
  lemma SamplePhishingIsBankEmail(reply: (string, nat) -> G.Reply, parse: string -> G.JsonDoc)
    ensures var r := GetSamplePhishingMessage(reply, parse);
      r.Ok? ==>
        && r.value["content_type"] == G.Str("phishing") && r.value["theme"] == G.Str("bank")
        && r.value["message_type"] == G.Str("email") && r.value["difficulty"] == G.Str("medium")
        && forall f :: f in ["subject", "sender", "recipient", "body"] ==> G.Present(r.value, f)
  {
    GenerateStamps(SamplePhishingRequest, reply, parse);
    assert G.RequiredFields("email") == ["subject", "sender", "recipient", "body"];
  }

  /** The legitimate sample is a job-themed legitimate email of medium
      difficulty. */
  lemma SampleLegitimateIsJobEmail(reply: (string, nat) -> G.Reply, parse: string -> G.JsonDoc)
    ensures var r := GetSampleLegitimateMessage(reply, parse);
      r.Ok? ==>
        && r.value["content_type"] == G.Str("legitimate") && r.value["theme"] == G.Str("job")
        && r.value["message_type"] == G.Str("email") && r.value["difficulty"] == G.Str("medium")
        && forall f :: f in ["subject", "sender", "recipient", "body"] ==> G.Present(r.value, f)
  {
    GenerateStamps(SampleLegitimateRequest, reply, parse);
    assert G.RequiredFields("email") == ["subject", "sender", "recipient", "body"];
  }
}
