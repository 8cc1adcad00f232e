/** backend/services/gemini_client.py: building the generation prompt,
    reading the model's reply, cleaning and validating the parsed payload,
    the three-attempt retry loop, and scoring an email for phishing risk.

    The model itself is not modelled: a call is a `reply` function from the
    prompt and the attempt number to what the SDK returns, and `json.loads`
    is a `parse` function from text to the parsed document. */
module GeminiClient {
  import opened Common
  import opened PyText

  // ---------------------------------------------------------------- data

  /** A JSON value of a parsed payload (the kinds the backend reads). */
  datatype Value = Null | Int(i: int) | Str(s: string) | StrList(items: seq<string>)

  /** A parsed JSON object: Python's `Dict[str, ...]`. */
  type Payload = map<string, Value>

  /** `p.get(key) or default` where the caller expects text: a missing, null
      or empty value gives the default. */
  function TextOr(p: Payload, key: string, default: string): string {
    if key in p && p[key].Str? && p[key].s != "" then p[key].s else default
  }

  /** `p.get(key) or []` where the caller expects a list of strings. */
  function ListOr(p: Payload, key: string): seq<string> {
    if key in p && p[key].StrList? then p[key].items else []
  }

  /** What `json.loads` yields: a decode error, a value that is not an object,
      or an object. */
  datatype JsonDoc = Malformed | NonObject | Object(fields: Payload)

  /** The SDK's reply: a raised exception, or a list of candidates whose
      content (when present) is a list of parts carrying text. */
  datatype Part = Part(text: string)
  datatype Candidate = Candidate(content: Option<seq<Part>>)
  datatype Reply = Raised(reason: string) | Replied(candidates: seq<Candidate>)

  /** Why one generation attempt was discarded. */
  datatype AttemptFailure =
    | CallRaised(reason: string)   // the SDK call raised
    | NoText                       // `_extract_text` found no usable candidate
    | BadJson                      // `json.loads` failed
    | NotObject                    // the JSON was not an object, so `.items()` raised
    | MissingField(field: string)  // a required field was absent or null

  /** `GeminiClientError`, by the place that raises it. */
  datatype GeminiError =
    | ApiCallFailed(reason: string)
    | NoUsableText
    | InvalidJson
    | MissingExpectedFields
    | EmptyRationale
    | RetriesExhausted(last: AttemptFailure)

  /** The arguments of `generate_message`. */
  datatype GenRequest = GenRequest(
    messageType: string,
    contentType: string,
    difficulty: string,
    theme: Option<string>,
    customPrompt: Option<string>)

  const MaxRetries: nat := 3

  // ------------------------------------------------------ _extract_text

  /** The texts of the parts that are not blank (`text and text.strip()`),
      in order. */
  function Chunks(parts: seq<Part>): seq<string>
  {
    if parts == [] then []
    else if !Blank(parts[0].text) then [parts[0].text] + Chunks(parts[1..])
    else Chunks(parts[1..])
  }

  /** Every kept text is non-blank, and there are never more chunks than
      parts. */
  lemma {:induction false} ChunksNonBlank(parts: seq<Part>)
    ensures |Chunks(parts)| <= |parts|
    ensures forall k :: 0 <= k < |Chunks(parts)| ==> !Blank(Chunks(parts)[k])
  {
    if parts != [] {
      ChunksNonBlank(parts[1..]);
    }
  }

  /** The chunks are exactly the texts of the non-blank parts: every kept
      text is some part's, every non-blank part's text is kept, and nothing
      is kept exactly when every part is blank. */
  lemma {:induction false} ChunksAreNonBlankParts(parts: seq<Part>)
    ensures Chunks(parts) == [] <==> forall j :: 0 <= j < |parts| ==> Blank(parts[j].text)
    ensures forall k :: 0 <= k < |Chunks(parts)| ==> exists j :: 0 <= j < |parts| && parts[j].text == Chunks(parts)[k]
    ensures forall j :: 0 <= j < |parts| && !Blank(parts[j].text) ==> parts[j].text in Chunks(parts)
  {
    if parts != [] {
      ChunksAreNonBlankParts(parts[1..]);
      var rest := Chunks(parts[1..]);
      forall j | 1 <= j < |parts| && !Blank(parts[j].text) ensures parts[j].text in rest {
        assert parts[1..][j - 1] == parts[j];
      }
      var r := Chunks(parts);
      forall k | 0 <= k < |r| ensures exists j :: 0 <= j < |parts| && parts[j].text == r[k] {
        if !Blank(parts[0].text) && k == 0 {
          assert parts[0].text == r[k];
        } else {
          var m := if !Blank(parts[0].text) then k - 1 else k;
          assert r[k] == rest[m];
          var j :| 0 <= j < |parts[1..]| && parts[1..][j].text == rest[m];
          assert parts[j + 1].text == r[k];
        }
      }
      assert forall k :: 0 <= k < |Chunks(parts)| ==> exists j :: 0 <= j < |parts| && parts[j].text == Chunks(parts)[k];
    } else {
      assert Chunks(parts) == [];
    }
  }

  /** A single part is kept exactly when it is not blank. */
  lemma ChunksOne(p: Part)
    ensures Chunks([p]) == if Blank(p.text) then [] else [p.text]
  {
    assert [p][1..] == [];
  }

  /** One step of `Chunks`, stated for a part put in front of others. */
  lemma ChunksCons(p: Part, rest: seq<Part>)
    ensures Chunks([p] + rest) == (if Blank(p.text) then [] else [p.text]) + Chunks(rest)
  {
    assert ([p] + rest)[0] == p && ([p] + rest)[1..] == rest;
  }

  /** Parts are kept in order: the chunks of two runs of parts are the
      chunks of the first followed by those of the second. */
  lemma {:induction false} ChunksAppend(a: seq<Part>, b: seq<Part>)
    ensures Chunks(a + b) == Chunks(a) + Chunks(b)
  {
    if a == [] {
      assert a + b == b;
    } else {
      ChunksAppend(a[1..], b);
      var head := if Blank(a[0].text) then [] else [a[0].text];
      ChunksCons(a[0], a[1..]);
      ChunksCons(a[0], a[1..] + b);
      assert a == [a[0]] + a[1..];
      assert a + b == [a[0]] + (a[1..] + b);
      Associative(head, Chunks(a[1..]), Chunks(b));
    }
  }

  function CandidateChunks(c: Candidate): seq<string> {
    match c.content
    case None => []
    case Some(parts) => Chunks(parts)
  }

  /** The index of the first candidate with a non-blank part, or
      `|cands|` when there is none. */
  function FirstUsable(cands: seq<Candidate>): (i: nat)
    ensures i <= |cands|
    ensures forall j :: 0 <= j < i ==> CandidateChunks(cands[j]) == []
    ensures i < |cands| ==> CandidateChunks(cands[i]) != []
  {
    if cands == [] || CandidateChunks(cands[0]) != [] then 0
    else 1 + FirstUsable(cands[1..])
  }

  /** Any index before which no candidate has text and at which one has
      (or the end) is the one `FirstUsable` finds. */
  lemma {:induction false} FirstUsableIsFirst(cands: seq<Candidate>, i: nat)
    requires i <= |cands|
    requires forall j :: 0 <= j < i ==> CandidateChunks(cands[j]) == []
    requires i < |cands| ==> CandidateChunks(cands[i]) != []
    ensures FirstUsable(cands) == i
  {
    if cands != [] && i > 0 {
      FirstUsableIsFirst(cands[1..], i - 1);
    }
  }

  /** The text `_extract_text` returns from a candidate with usable parts. */
  function JoinedText(c: Candidate): string {
    Strip(Join("\n", CandidateChunks(c)))
  }

  /** The specification of `_extract_text`: the joined text of the first
      candidate with a non-blank part, and nothing when there is none. */
  function FirstText(cands: seq<Candidate>): Option<string> {
    var i := FirstUsable(cands);
    if i < |cands| then Some(JoinedText(cands[i])) else None
  }

  /** Joining non-blank chunks and stripping the result leaves text, so the
      text `_extract_text` answers is never blank. */
  lemma JoinedTextNotBlank(c: Candidate)
    requires CandidateChunks(c) != []
    ensures JoinedText(c) != ""
  {
    var ch := CandidateChunks(c);
    ChunksNonBlank(c.content.value);
    var first := ch[0];
    var k :| 0 <= k < |first| && !IsSpace(first[k]);
    var joined := Join("\n", ch);
    assert joined[k] == joined[..|first|][k] == first[k];
    NotBlankStrips(joined, k);
  }

  /** When no candidate before `i` has usable text and `cands[i]` has,
      `FirstText` is the text of `cands[i]`, which is not empty. */
  lemma FirstTextAt(cands: seq<Candidate>, i: nat)
    requires i < |cands| && CandidateChunks(cands[i]) != []
    requires forall j :: 0 <= j < i ==> CandidateChunks(cands[j]) == []
    ensures FirstText(cands) == Some(JoinedText(cands[i])) && JoinedText(cands[i]) != ""
  {
    FirstUsableIsFirst(cands, i);
    JoinedTextNotBlank(cands[i]);
  }

  /** `_extract_text`: loops over the candidates and returns at the first
      one with usable text; raises when there is none. */
  method ExtractText(cands: seq<Candidate>) returns (r: Result<string, GeminiError>)
    ensures r.Err? <==> forall j :: 0 <= j < |cands| ==> CandidateChunks(cands[j]) == []
    ensures r.Err? ==> r.error == NoUsableText
    ensures r.Ok? ==> r == Ok(FirstText(cands).value) && r.value != ""
  {
    var i := 0;
    while i < |cands|
      invariant 0 <= i <= |cands|
      invariant forall j :: 0 <= j < i ==> CandidateChunks(cands[j]) == []
    {
      var chunks := CandidateChunks(cands[i]);
      if chunks != [] {
        var text := Strip(Join("\n", chunks));
        FirstTextAt(cands, i);
        assert text == JoinedText(cands[i]);
        return Ok(text);
      }
      i := i + 1;
    }
    return Err(NoUsableText);
  }

  // ------------------------------------------------------- prompt assembly

  /** The lines `generate_message` may put in its prompt. */
  datatype PromptLine =
    | Intro
    | Task(contentType: string, messageType: string, difficulty: string)
    | Theme(theme: string)
    | Requirements(customPrompt: string)
    | RealisticWithIndicators | PhishingTactics
    | ProfessionalMessage | ProperFormatting
    | FormatHeader
    | EmailSchema | EmailNullIndicators | EmailConcise
    | SmsSchema | SmsNullIndicators | SmsShort | SmsRealisticContacts

  /** The text of each prompt line. */
  function Render(line: PromptLine): string {
    match line
    case Intro => ("You are an expert message generator "
                 + "creating training materials for phishing "
                 + "detection education.")
    case Task(ct, mt, d) => "Generate a " + ct + " " + mt + " with " + d + " difficulty level."
    case Theme(t) => "Theme: " + t
    case Requirements(c) => "Additional requirements: " + c
    case RealisticWithIndicators => ("Make it realistic but include subtle "
                                   + "phishing indicators that security training "
                                   + "participants should learn to identify.")
    case PhishingTactics => ("Include common phishing tactics like "
                           + "urgency, suspicious links, requests "
                           + "for personal information, or impersonation.")
    case ProfessionalMessage => ("Make it a legitimate, professional message "
                               + "that would be safe to interact with.")
    case ProperFormatting => ("Use proper formatting, legitimate-looking "
                            + "sender, and appropriate content.")
    case FormatHeader => ("Format your response as a JSON object "
                        + "with the following structure:")
    case EmailSchema => ("{\"subject\": \"Email subject line\", "
                       + "\"sender\": \"sender@domain.com\", \"recipient\": "
                       + "\"recipient@domain.com\", \"body\": "
                       + "\"Email body content\", \"phishing_indicators\": "
                       + "[\"list\", \"of\", \"indicators\"], "
                       + "\"explanation\": \"Brief explanation "
                       + "of why this is phishing/legitimate\"}")
    case EmailNullIndicators => ("For legitimate emails, set phishing_indicators "
                               + "to null.")
    case EmailConcise => "Keep the email concise but realistic."
    case SmsSchema => ("{\"phone_number\": \"+1234567890\", "
                     + "\"contact_name\": \"Contact Name\", "
                     + "\"message\": \"SMS message content\", "
                     + "\"phishing_indicators\": [\"list\", "
                     + "\"of\", \"indicators\"], \"explanation\": "
                     + "\"Brief explanation of why this is "
                     + "phishing/legitimate\"}")
    case SmsNullIndicators => ("For legitimate SMS, set phishing_indicators "
                             + "to null.")
    case SmsShort => ("Keep the SMS message short (under 160 "
                    + "characters) and realistic.")
    case SmsRealisticContacts => ("Use realistic phone numbers and contact "
                                + "names appropriate for the theme.")
  }

  /** The theme line, when a theme is given. */
  function ThemeLines(req: GenRequest): seq<PromptLine> {
    if Truthy(req.theme) then [Theme(req.theme.value)] else []
  }

  /** The custom requirements line, when a custom prompt is given. */
  function RequirementLines(req: GenRequest): seq<PromptLine> {
    if Truthy(req.customPrompt) then [Requirements(req.customPrompt.value)] else []
  }

  /** The guidance for phishing or for legitimate content. */
  function GuidanceLines(req: GenRequest): seq<PromptLine> {
    if req.contentType == "phishing" then [RealisticWithIndicators, PhishingTactics]
    else [ProfessionalMessage, ProperFormatting]
  }

  /** The response format for an email or for an SMS. */
  function FormatLines(req: GenRequest): seq<PromptLine> {
    if req.messageType == "email" then [FormatHeader, EmailSchema, EmailNullIndicators, EmailConcise]
    else [FormatHeader, SmsSchema, SmsNullIndicators, SmsShort, SmsRealisticContacts]
  }

  /** The lines of the prompt, in the order they are appended. */
  function PromptLines(req: GenRequest): seq<PromptLine> {
    [Intro, Task(req.contentType, req.messageType, req.difficulty)]
    + ThemeLines(req) + RequirementLines(req) + GuidanceLines(req) + FormatLines(req)
  }

  function RenderAll(lines: seq<PromptLine>): (texts: seq<string>)
    ensures |texts| == |lines|
    ensures forall i :: 0 <= i < |lines| ==> texts[i] == Render(lines[i])
  {
    if lines == [] then [] else [Render(lines[0])] + RenderAll(lines[1..])
  }

  /** The prompt text: the rendered lines joined by newlines. */
  function PromptText(req: GenRequest): string {
    Join("\n", RenderAll(PromptLines(req)))
  }

  /** Assembles the prompt line by line, as `prompt_parts` is built. */
  method BuildPrompt(req: GenRequest) returns (prompt: string)
    ensures prompt == PromptText(req)
  {
    var head := [Intro, Task(req.contentType, req.messageType, req.difficulty)];
    var parts := head;
    if Truthy(req.theme) {
      parts := parts + [Theme(req.theme.value)];
    }
    assert parts == head + ThemeLines(req);
    if Truthy(req.customPrompt) {
      parts := parts + [Requirements(req.customPrompt.value)];
    }
    assert parts == head + ThemeLines(req) + RequirementLines(req);
    if req.contentType == "phishing" {
      parts := parts + [RealisticWithIndicators, PhishingTactics];
    } else {
      parts := parts + [ProfessionalMessage, ProperFormatting];
    }
    assert parts == head + ThemeLines(req) + RequirementLines(req) + GuidanceLines(req);
    if req.messageType == "email" {
      parts := parts + [FormatHeader, EmailSchema, EmailNullIndicators, EmailConcise];
    } else {
      parts := parts + [FormatHeader, SmsSchema, SmsNullIndicators, SmsShort, SmsRealisticContacts];
    }
    assert parts == PromptLines(req);
    prompt := Join("\n", RenderAll(parts));
  }

  /** The prompt opens with the introduction and the task line; it has a
      theme line exactly when a theme is given, and then that line carries
      the theme. */
  lemma PromptThemeLine(req: GenRequest)
    ensures var lines := PromptLines(req);
      && lines[0] == Intro
      && lines[1] == Task(req.contentType, req.messageType, req.difficulty)
      && (Truthy(req.theme) <==> exists l :: l in lines && l.Theme?)
      && (forall l :: l in lines && l.Theme? ==> l == Theme(req.theme.value))
  {
    var head := [Intro, Task(req.contentType, req.messageType, req.difficulty)];
    var rest := RequirementLines(req) + GuidanceLines(req) + FormatLines(req);
    var lines := PromptLines(req);
    assert lines == head + ThemeLines(req) + rest;
    assert forall l :: l in rest ==> !l.Theme?;
    if Truthy(req.theme) {
      assert lines[2] == Theme(req.theme.value);
    }
  }

  /** The prompt has a requirements line exactly when a custom prompt is
      given, and then that line carries the custom prompt. */
  lemma PromptRequirementsLine(req: GenRequest)
    ensures var lines := PromptLines(req);
      && (Truthy(req.customPrompt) <==> exists l :: l in lines && l.Requirements?)
      && (forall l :: l in lines && l.Requirements? ==> l == Requirements(req.customPrompt.value))
  {
    var head := [Intro, Task(req.contentType, req.messageType, req.difficulty)] + ThemeLines(req);
    var rest := GuidanceLines(req) + FormatLines(req);
    var lines := PromptLines(req);
    assert lines == head + RequirementLines(req) + rest;
    assert forall l :: l in head ==> !l.Requirements?;
    assert forall l :: l in rest ==> !l.Requirements?;
    if Truthy(req.customPrompt) {
      assert lines[|head|] == Requirements(req.customPrompt.value);
    }
  }

  /** The prompt asks for phishing tactics exactly for phishing content, and
      shows the email schema exactly for email and the SMS schema
      otherwise. */
  lemma PromptGuidanceAndSchema(req: GenRequest)
    ensures var lines := PromptLines(req);
      && (req.contentType == "phishing" <==> PhishingTactics in lines)
      && (req.contentType != "phishing" <==> ProfessionalMessage in lines)
      && (req.messageType == "email" <==> EmailSchema in lines)
      && (req.messageType != "email" <==> SmsSchema in lines)
  {
    var head := [Intro, Task(req.contentType, req.messageType, req.difficulty)]
      + ThemeLines(req) + RequirementLines(req);
    var lines := PromptLines(req);
    assert lines == head + GuidanceLines(req) + FormatLines(req);
    assert forall l :: l in head ==> l.Intro? || l.Task? || l.Theme? || l.Requirements?;
  }

  // ------------------------------------------------- cleanup and validation

  predicate IsNullText(v: Value) {
    v == Str("null") || v == Str("")
  }

  /** The payload after `"null"` and `""` values have been set to None. */
  function Cleaned(p: Payload): Payload {
    map k | k in p :: if IsNullText(p[k]) then Null else p[k]
  }

  /** Cleaning is idempotent and leaves no `"null"` or `""` value behind. */
  lemma CleanedIdempotent(p: Payload)
    ensures Cleaned(Cleaned(p)) == Cleaned(p)
    ensures forall k :: k in Cleaned(p) ==> !IsNullText(Cleaned(p)[k])
  {
  }

  /** The cleanup loop: every `"null"` or `""` value becomes None, every
      other value and every key stays as it was. */
  method CleanNulls(parsed: Payload) returns (cleaned: Payload)
    ensures cleaned == Cleaned(parsed)
    ensures cleaned.Keys == parsed.Keys
    ensures forall k :: k in parsed && IsNullText(parsed[k]) ==> cleaned[k] == Null
    ensures forall k :: k in parsed && !IsNullText(parsed[k]) ==> cleaned[k] == parsed[k]
  {
    cleaned := parsed;
    var todo := parsed.Keys;
    while todo != {}
      invariant todo <= parsed.Keys
      invariant cleaned.Keys == parsed.Keys
      invariant forall k :: k in parsed && k !in todo ==> cleaned[k] == Cleaned(parsed)[k]
      invariant forall k :: k in todo ==> cleaned[k] == parsed[k]
      decreases todo
    {
      var key :| key in todo;
      if parsed[key] == Str("null") || parsed[key] == Str("") {
        cleaned := cleaned[key := Null];
      }
      todo := todo - {key};
    }
  }

  /** The fields a payload must carry, by message type. */
  function RequiredFields(messageType: string): (fields: seq<string>)
    ensures |fields| > 0
  {
    if messageType == "email" then ["subject", "sender", "recipient", "body"]
    else ["phone_number", "contact_name", "message"]
  }

  predicate Present(p: Payload, field: string) {
    field in p && p[field] != Null
  }

  /** The index of the first required field that is absent or null, or
      `|fields|` when all are present. */
  function MissingIndex(p: Payload, fields: seq<string>): (i: nat)
    ensures i <= |fields|
    ensures forall j :: 0 <= j < i ==> Present(p, fields[j])
    ensures i < |fields| ==> !Present(p, fields[i])
  {
    if fields == [] then 0
    else if !Present(p, fields[0]) then 0
    else 1 + MissingIndex(p, fields[1..])
  }

  /** The validation loop, which stops at the first missing field. */
  method FindMissingField(p: Payload, fields: seq<string>) returns (i: nat)
    ensures i == MissingIndex(p, fields)
  {
    i := 0;
    while i < |fields|
      invariant i <= |fields|
      invariant forall j :: 0 <= j < i ==> Present(p, fields[j])
    {
      if !Present(p, fields[i]) {
        break;
      }
      i := i + 1;
    }
    MissingIndexIsFirst(p, fields, i);
  }

  /** Any index before which every field is present and at which one is
      missing (or the end) is the one `MissingIndex` finds. */
  lemma {:induction false} MissingIndexIsFirst(p: Payload, fields: seq<string>, i: nat)
    requires i <= |fields|
    requires forall j :: 0 <= j < i ==> Present(p, fields[j])
    requires i < |fields| ==> !Present(p, fields[i])
    ensures MissingIndex(p, fields) == i
  {
    if fields != [] && i > 0 {
      MissingIndexIsFirst(p, fields[1..], i - 1);
    }
  }

  // ------------------------------------------------------- one attempt

  /** What an attempt makes of a parsed JSON object: the cleaned payload,
      or the first required field that is absent or null. */
  function ObjectOutcome(fields: Payload, messageType: string): Result<Payload, AttemptFailure> {
    var cleaned := Cleaned(fields);
    var required := RequiredFields(messageType);
    var i := MissingIndex(cleaned, required);
    if i < |required| then Err(MissingField(required[i])) else Ok(cleaned)
  }

  /** What one attempt makes of the model's reply. */
  function AttemptOutcome(reply: Reply, parse: string -> JsonDoc, messageType: string)
    : Result<Payload, AttemptFailure>
  {
    match reply
    case Raised(reason) => Err(CallRaised(reason))
    case Replied(cands) =>
      match FirstText(cands)
      case None => Err(NoText)
      case Some(text) =>
        match parse(text)
        case Malformed => Err(BadJson)
        case NonObject => Err(NotObject)
        case Object(fields) => ObjectOutcome(fields, messageType)
  }

  /** An accepted payload carries every required field, none of them null,
      and no `"null"` or `""` value; a rejected one names a required field
      that is absent or null. */
  lemma ObjectOutcomeValidates(fields: Payload, messageType: string)
    ensures var r := ObjectOutcome(fields, messageType);
      && (r.Ok? ==> forall f :: f in RequiredFields(messageType) ==> Present(r.value, f))
      && (r.Ok? ==> forall k :: k in r.value ==> !IsNullText(r.value[k]))
      && (r.Err? ==> r.error.MissingField? && r.error.field in RequiredFields(messageType)
                     && !Present(Cleaned(fields), r.error.field))
  {
    var cleaned := Cleaned(fields);
    var required := RequiredFields(messageType);
    CleanedIdempotent(fields);
    if MissingIndex(cleaned, required) == |required| {
      forall f | f in required ensures Present(cleaned, f) {
        var j :| 0 <= j < |required| && required[j] == f;
      }
    }
  }

  /** One attempt of the retry loop: call, extract, parse, clean, validate. */
  method RunAttempt(reply: Reply, parse: string -> JsonDoc, messageType: string)
    returns (r: Result<Payload, AttemptFailure>)
    ensures r == AttemptOutcome(reply, parse, messageType)
  {
    match reply
    case Raised(reason) =>
      r := Err(CallRaised(reason));
    case Replied(cands) =>
      var text := ExtractText(cands);
      if text.Err? {
        return Err(NoText);
      }
      match parse(text.value)
      case Malformed =>
        r := Err(BadJson);
      case NonObject =>
        r := Err(NotObject);
      case Object(fields) =>
        var cleaned := CleanNulls(fields);
        var required := RequiredFields(messageType);
        var i := FindMissingField(cleaned, required);
        if i < |required| {
          r := Err(MissingField(required[i]));
        } else {
          r := Ok(cleaned);
        }
  }

  // ------------------------------------------------------ retry loop

  /** The outcomes of the three attempts the retry loop may make. */
  function Attempts(prompt: string, reply: (string, nat) -> Reply, parse: string -> JsonDoc,
                    messageType: string): (outcomes: seq<Result<Payload, AttemptFailure>>)
    ensures |outcomes| == MaxRetries
    ensures forall k :: 0 <= k < MaxRetries ==> outcomes[k] == AttemptOutcome(reply(prompt, k), parse, messageType)
  {
    seq(MaxRetries, k requires 0 <= k => AttemptOutcome(reply(prompt, k), parse, messageType))
  }

  /** The retry loop from attempt `k` on: the first accepted payload wins,
      and the failure of the last attempt is the error. */
  function Retry(outcomes: seq<Result<Payload, AttemptFailure>>, k: nat): Result<Payload, GeminiError>
    requires k < |outcomes|
    decreases |outcomes| - k
  {
    if outcomes[k].Ok? then Ok(outcomes[k].value)
    else if k == |outcomes| - 1 then Err(RetriesExhausted(outcomes[k].error))
    else Retry(outcomes, k + 1)
  }

  /** The index of the first accepted outcome from `k` on, or the number of
      outcomes when none is accepted. */
  function FirstAccepted(outcomes: seq<Result<Payload, AttemptFailure>>, k: nat): (i: nat)
    requires k <= |outcomes|
    ensures k <= i <= |outcomes|
    ensures forall j :: k <= j < i ==> outcomes[j].Err?
    ensures i < |outcomes| ==> outcomes[i].Ok?
    decreases |outcomes| - k
  {
    if k == |outcomes| || outcomes[k].Ok? then k else FirstAccepted(outcomes, k + 1)
  }

  /** From attempt `k` on, the retry loop returns the first accepted payload,
      or, when none is accepted, the failure of the last attempt. */
  lemma {:induction false} RetryFirstAccepted(outcomes: seq<Result<Payload, AttemptFailure>>, k: nat)
    requires k < |outcomes|
    ensures var r := Retry(outcomes, k);
            var i := FirstAccepted(outcomes, k);
      && (r.Ok? <==> i < |outcomes|)
      && (r.Ok? ==> r.value == outcomes[i].value)
      && (r.Err? ==> r.error == RetriesExhausted(outcomes[|outcomes| - 1].error))
    decreases |outcomes| - k
  {
    if outcomes[k].Err? && k < |outcomes| - 1 {
      RetryFirstAccepted(outcomes, k + 1);
    }
  }

  /** One step of the retry loop: attempt `k` with outcome `o` either ends
      the loop or hands over to attempt `k + 1`. */
  lemma RetryStep(outcomes: seq<Result<Payload, AttemptFailure>>, k: nat, o: Result<Payload, AttemptFailure>)
    requires k < |outcomes| && outcomes[k] == o
    ensures o.Ok? ==> Retry(outcomes, k) == Ok(o.value)
    ensures o.Err? && k == |outcomes| - 1 ==> Retry(outcomes, k) == Err(RetriesExhausted(o.error))
    ensures o.Err? && k < |outcomes| - 1 ==> Retry(outcomes, k) == Retry(outcomes, k + 1)
  {
  }

  const MetadataKeys: set<string> := {"message_type", "content_type", "difficulty", "theme"}

  /** The payload with the request's metadata written over it. */
  function Stamp(p: Payload, req: GenRequest): (r: Payload)
    ensures r.Keys == p.Keys + MetadataKeys
    ensures r["message_type"] == Str(req.messageType)
    ensures r["content_type"] == Str(req.contentType)
    ensures r["difficulty"] == Str(req.difficulty)
    ensures r["theme"] == if req.theme.Some? then Str(req.theme.value) else Null
    ensures forall k :: k in p && k !in MetadataKeys ==> r[k] == p[k]
  {
    p["message_type" := Str(req.messageType)]
     ["content_type" := Str(req.contentType)]
     ["difficulty" := Str(req.difficulty)]
     ["theme" := if req.theme.Some? then Str(req.theme.value) else Null]
  }

  /** The three attempts of a request. */
  function RequestAttempts(req: GenRequest, reply: (string, nat) -> Reply, parse: string -> JsonDoc)
    : seq<Result<Payload, AttemptFailure>>
  {
    Attempts(PromptText(req), reply, parse, req.messageType)
  }

  /** The specification of `generate_message`. */
  function GenerateSpec(req: GenRequest, reply: (string, nat) -> Reply, parse: string -> JsonDoc)
    : Result<Payload, GeminiError>
  {
    match Retry(RequestAttempts(req, reply, parse), 0)
    case Ok(p) => Ok(Stamp(p, req))
    case Err(e) => Err(e)
  }

  /** `generate_message`: builds the prompt, then tries at most three times. */
  method GenerateMessage(req: GenRequest, reply: (string, nat) -> Reply, parse: string -> JsonDoc)
    returns (r: Result<Payload, GeminiError>)
    ensures r == GenerateSpec(req, reply, parse)
  {
    var prompt := BuildPrompt(req);
    ghost var outcomes := Attempts(prompt, reply, parse, req.messageType);
    var attempt: nat := 0;
    while true
      invariant attempt < MaxRetries
      invariant Retry(outcomes, 0) == Retry(outcomes, attempt)
      decreases MaxRetries - attempt
    {
      var outcome := RunAttempt(reply(prompt, attempt), parse, req.messageType);
      RetryStep(outcomes, attempt, outcome);
      if outcome.Ok? {
        return Ok(Stamp(outcome.value, req));
      }
      if attempt == MaxRetries - 1 {
        return Err(RetriesExhausted(outcome.error));
      }
      attempt := attempt + 1;
    }
  }

  /** Generation succeeds exactly when one of the three attempts is accepted;
      it then returns the first accepted payload with the metadata stamped
      over it. Otherwise every attempt failed and the error carries the
      third attempt's failure. */
  lemma GenerateFirstAccepted(req: GenRequest, reply: (string, nat) -> Reply, parse: string -> JsonDoc)
    ensures var outcomes := RequestAttempts(req, reply, parse);
            var r := GenerateSpec(req, reply, parse);
            var i := FirstAccepted(outcomes, 0);
      && (r.Ok? <==> i < MaxRetries)
      && (r.Ok? ==> r.value == Stamp(outcomes[i].value, req))
      && (r.Err? ==> forall k :: 0 <= k < MaxRetries ==> outcomes[k].Err?)
      && (r.Err? ==> r.error == RetriesExhausted(outcomes[MaxRetries - 1].error))
  {
    RetryFirstAccepted(RequestAttempts(req, reply, parse), 0);
  }

  /** At most three calls are made: two models that give the same replies to
      attempts 0, 1 and 2 lead to the same result. */
  lemma GenerateUsesThreeAttempts(req: GenRequest, reply1: (string, nat) -> Reply,
                                  reply2: (string, nat) -> Reply, parse: string -> JsonDoc)
    requires forall k :: 0 <= k < MaxRetries ==> reply1(PromptText(req), k) == reply2(PromptText(req), k)
    ensures GenerateSpec(req, reply1, parse) == GenerateSpec(req, reply2, parse)
  {
    assert RequestAttempts(req, reply1, parse) == RequestAttempts(req, reply2, parse);
  }

  /** An accepted attempt yields a payload with every required field present
      and not null. */
  lemma AcceptedAttemptValid(reply: Reply, parse: string -> JsonDoc, messageType: string)
    requires AttemptOutcome(reply, parse, messageType).Ok?
    ensures forall f :: f in RequiredFields(messageType) ==> Present(AttemptOutcome(reply, parse, messageType).value, f)
  {
    var text := FirstText(reply.candidates).value;
    ObjectOutcomeValidates(parse(text).fields, messageType);
  }

  /** A generated message carries the request's metadata, overwriting any
      generated values, and every required field of its type, none null. */
  lemma GeneratedMessageValid(req: GenRequest, reply: (string, nat) -> Reply, parse: string -> JsonDoc)
    requires GenerateSpec(req, reply, parse).Ok?
    ensures var p := GenerateSpec(req, reply, parse).value;
      && p["message_type"] == Str(req.messageType)
      && p["content_type"] == Str(req.contentType)
      && p["difficulty"] == Str(req.difficulty)
      && p["theme"] == (if req.theme.Some? then Str(req.theme.value) else Null)
      && forall f :: f in RequiredFields(req.messageType) ==> Present(p, f)
  {
    GenerateFirstAccepted(req, reply, parse);
    var outcomes := RequestAttempts(req, reply, parse);
    var i := FirstAccepted(outcomes, 0);
    var prompt := PromptText(req);
    assert outcomes[i] == AttemptOutcome(reply(prompt, i), parse, req.messageType);
    AcceptedAttemptValid(reply(prompt, i), parse, req.messageType);
    StampKeepsRequired(outcomes[i].value, req);
  }

  /** Stamping never touches a required field. */
  lemma StampKeepsRequired(p: Payload, req: GenRequest)
    requires forall f :: f in RequiredFields(req.messageType) ==> Present(p, f)
    ensures forall f :: f in RequiredFields(req.messageType) ==> Present(Stamp(p, req), f)
  {
    assert forall f :: f in RequiredFields(req.messageType) ==> f !in MetadataKeys;
  }

  // ------------------------------------------------------- score_email

  /** `max(1, min(score, 100))`. */
  function ClampScore(n: int): (r: int)
    ensures 1 <= r <= 100
    ensures 1 <= n <= 100 ==> r == n
    ensures n < 1 ==> r == 1
    ensures n > 100 ==> r == 100
  {
    if n < 1 then 1 else if n > 100 then 100 else n
  }

  /** `int(v)`: None on the TypeError or ValueError Python raises. */
  function ScoreNumber(v: Value): Option<int> {
    match v
    case Null => None
    case Int(i) => Some(i)
    case Str(s) => ParseInt(s)
    case StrList(_) => None
  }

  /** The items of `str(list)`: each item's `repr`, separated by `", "`. */
  function ListRepr(items: seq<string>): string {
    if items == [] then "" else
    if |items| == 1 then StrRepr(items[0])
    else StrRepr(items[0]) + ", " + ListRepr(items[1..])
  }

  /** `str(v)`. */
  function PyStr(v: Value): string {
    match v
    case Null => "None"
    case Int(i) => IntText(i)
    case Str(s) => s
    case StrList(items) => "[" + ListRepr(items) + "]"
  }

  /** `score_email`, given the model's reply to the scoring prompt. */
  method ScoreEmail(reply: Reply, parse: string -> JsonDoc) returns (r: Result<(int, string), GeminiError>)
    ensures r.Ok? ==> 1 <= r.value.0 <= 100 && r.value.1 != "" && Strip(r.value.1) == r.value.1
    ensures reply.Raised? ==> r == Err(ApiCallFailed(reply.reason))
    ensures reply.Replied? && FirstText(reply.candidates).None? ==> r == Err(NoUsableText)
    ensures reply.Replied? && FirstText(reply.candidates).Some? ==>
      var doc := parse(FirstText(reply.candidates).value);
      && (doc.Malformed? ==> r == Err(InvalidJson))
      && (doc.NonObject? ==> r == Err(MissingExpectedFields))
      && (doc.Object? ==>
            var f := doc.fields;
            if "score" !in f || ScoreNumber(f["score"]).None? || "rationale" !in f
            then r == Err(MissingExpectedFields)
            else if Strip(PyStr(f["rationale"])) == "" then r == Err(EmptyRationale)
            else r == Ok((ClampScore(ScoreNumber(f["score"]).value), Strip(PyStr(f["rationale"])))))
  {
    if reply.Raised? {
      return Err(ApiCallFailed(reply.reason));
    }
    var text := ExtractText(reply.candidates);
    if text.Err? {
      return Err(text.error);
    }
    var doc := parse(text.value);
    if doc.Malformed? {
      return Err(InvalidJson);
    }
    if doc.NonObject? || "score" !in doc.fields || "rationale" !in doc.fields {
      return Err(MissingExpectedFields);
    }
    var score := ScoreNumber(doc.fields["score"]);
    if score.None? {
      return Err(MissingExpectedFields);
    }
    var rationale := Strip(PyStr(doc.fields["rationale"]));
    var clamped := ClampScore(score.value);
    if rationale == "" {
      return Err(EmptyRationale);
    }
    StripEmptyIffBlank(PyStr(doc.fields["rationale"]));
    StripIdempotent(PyStr(doc.fields["rationale"]));
    return Ok((clamped, rationale));
  }

  /** Stripping twice is stripping once. */
  lemma StripIdempotent(s: string)
    ensures Strip(Strip(s)) == Strip(s)
  {
    StripEmptyIffBlank(s);
    StripKeepsTrimmed(Strip(s));
  }

  /** A rationale that is not a string is never empty once converted: only a
      blank string rationale is rejected as empty. */
  lemma OnlyBlankTextRationaleIsEmpty(v: Value)
    requires !v.Str?
    ensures Strip(PyStr(v)) != ""
  {
    var s := PyStr(v);
    assert !IsSpace(s[0]);
    NotBlankStrips(s, 0);
  }
}
