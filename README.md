# PhishSchool backend core, modelled in Dafny

PhishSchool trains people to recognise phishing. Its backend asks Gemini to
write realistic phishing or legitimate emails and SMS, sends training emails
through SendGrid to users who opted in, and keeps learning counters in two
Supabase tables (`Users` and `Scores`). This project models that core and
proves what it promises:

- **`gemini_client.py`** (`gemini_client.dfy`, module `GeminiClient`):
  - how the generation prompt is assembled line by line;
  - how `_extract_text` picks the first candidate with usable text;
  - the cleanup of `"null"`/`""` values and the required-field check;
  - the three-attempt retry loop and the metadata stamped on its result;
  - `score_email`'s parsing, its clamp to 1..100 and its empty-rationale check.
- **`supabase_service.py`** (`supabase_service.dfy`, module `SupabaseService`, class `CampaignService`):
  - the `Users` table as a sequence of rows and `Scores` as a map;
  - upsert of the default row, opting in and out;
  - the learning counters;
  - `_frequency_to_timedelta`;
  - the due filter and the sending loop of `send_scheduled_emails`, with its counters and its `last_sent_at` stamps.
- **`email_service.py`** (`email_service.dfy`, module `Email`):
  - the HTML and plain-text renderings and the two format helpers;
  - the tracking-link substitution;
  - the choice of content in `send_email` and the accepted status codes;
  - the process-wide `get_email_service` instance (class `ServiceRegistry`).
- **`routers/generate.py`** (`generate_router.dfy`, module `GenerateRouter`):
  - the validation order and its 400 details;
  - the 502 mapping of generation errors;
  - the random endpoint, the two sample endpoints and the info listing.
- **`routers/email.py`** (`email_router.dfy`, module `EmailRouter`): `send_phishing_now`, with its 404, the static
  fallback template, the `email_data` defaults and the 500 on a mailer that cannot be set up.
- Python's string behaviour is modelled in `pytext.dfy` (module `PyText`): `isspace`, `strip`, `lower`, `join`,
  `replace`, `int(...)`, `str(...)` and `repr(...)` of a string. Two Python idioms, `x or default` truthiness and `Option`/`Result`,
  are in `common.dfy`.

What the program does not control becomes a parameter:

- the model's reply to a prompt at a given attempt (`reply`) and `json.loads` (`parse`);
- SendGrid's answer to a mail (`transport`);
- the clock, in microseconds (`now`);
- the outcome of `random.random() < 0.7` and the indices `random.choice` draws;
- the variables `SENDGRID_API_KEY` and `SENDGRID_FROM_EMAIL`.

A consequence of the source, stated and proved here:

- `_create_email_html` is an f-string, so its `{{TRACKING_URL}}` is rendered as `{TRACKING_URL}`.
- `send_campaign_email` replaces `{{TRACKING_URL}}`. When no field of the email holds a brace, that text does
  not occur in the HTML, so the HTML document does not receive the tracking link (`Email.HtmlNeverLinked`).
  A field that itself contains `{{TRACKING_URL}}` would receive it.
- The HTML is never empty, so it is always the content that is sent (`Email.EmailService.SendCampaignEmail`).
- The plain text does receive the link (`Email.PlainGetsLink`), but it is never sent.
- Neither caller in this model sets `click_tracking_id` (`SupabaseService.CampaignData`, `EmailRouter.NowData`),
  so for them the substitution does not happen at all (`EmailRouter.NowMailHasNoLink`).
- The model keeps this behaviour exactly as written.

## Model

| member | source | states |
|---|---|---|
| GeminiClient.ChunksNonBlank | backend/services/gemini_client.py:268-272 | every kept text is non-blank, and there are never more chunks than parts |
| GeminiClient.ChunksAreNonBlankParts | backend/services/gemini_client.py:268-272 | every kept text is some part's text, every non-blank part's text is kept, and nothing is kept exactly when every part is blank |
| GeminiClient.ChunksOne | backend/services/gemini_client.py:268-272 | a single part is kept exactly when its text is not blank, and then its text is the one chunk |
| GeminiClient.ChunksAppend | backend/services/gemini_client.py:268-272 | parts are kept in order, each once: the chunks of two runs of parts are the first run's chunks followed by the second's |
| GeminiClient.FirstUsable | backend/services/gemini_client.py:263-273 | the index of the first candidate with a non-blank part: every earlier candidate has none, and the one found has some |
| GeminiClient.FirstUsableIsFirst | backend/services/gemini_client.py:263-273 | any index before which no candidate has text and at which one has is the one the loop stops at |
| GeminiClient.JoinedTextNotBlank | backend/services/gemini_client.py:273-274 | joining non-blank chunks with newlines and stripping never gives empty text |
| GeminiClient.ExtractText | backend/services/gemini_client.py:260-280 | fails, with the no-usable-text error, exactly when no candidate has a non-blank part; otherwise returns the first usable candidate's joined, stripped text, which is never empty |
| GeminiClient.BuildPrompt | backend/services/gemini_client.py:120-159 | appending the parts step by step gives the specified prompt |
| GeminiClient.PromptThemeLine | backend/services/gemini_client.py:121-127 | the prompt opens with the introduction and the task line; it has a theme line exactly when a theme is given, and that line carries the theme |
| GeminiClient.PromptRequirementsLine | backend/services/gemini_client.py:129-130 | there is a requirements line exactly when a custom prompt is given, and that line carries it |
| GeminiClient.PromptGuidanceAndSchema | backend/services/gemini_client.py:132-157 | phishing tactics are requested exactly for phishing content, professional guidance otherwise; the email schema is shown exactly for email, the SMS schema otherwise |
| GeminiClient.CleanedIdempotent | backend/services/gemini_client.py:179-182 | after cleanup no `"null"` or `""` value remains, and cleaning again changes nothing |
| GeminiClient.CleanNulls | backend/services/gemini_client.py:179-182 | every `"null"` or `""` value becomes None; every other value and every key is kept |
| GeminiClient.MissingIndex | backend/services/gemini_client.py:184-197 | the first required field that is absent or null; every earlier field is present |
| GeminiClient.FindMissingField | backend/services/gemini_client.py:185-197 | the validation loop stops at the first absent or null required field, or passes them all |
| GeminiClient.MissingIndexIsFirst | backend/services/gemini_client.py:188-191 | the field the loop stops at is uniquely determined by the payload |
| GeminiClient.ObjectOutcomeValidates | backend/services/gemini_client.py:179-204 | an accepted payload has every required field present and not null, and no `"null"` or `""` value; a rejected one names a required field that is absent or null |
| GeminiClient.RunAttempt | backend/services/gemini_client.py:166-204 | one attempt: a raising call, no usable text, invalid JSON, a non-object or a missing field each discard the attempt; otherwise the cleaned payload is accepted |
| GeminiClient.FirstAccepted | backend/services/gemini_client.py:165-207 | the first accepted attempt; every earlier one failed |
| GeminiClient.RetryFirstAccepted | backend/services/gemini_client.py:165-213 | the loop returns the first accepted payload, or, when none is accepted, the failure of the last attempt |
| GeminiClient.Stamp | backend/services/gemini_client.py:215-219 | the four metadata keys are written over the payload from the request; every other key is kept |
| GeminiClient.GenerateMessage | backend/services/gemini_client.py:99-221 | the prompt, the retry loop and the stamping give the specified result |
| GeminiClient.GenerateFirstAccepted | backend/services/gemini_client.py:164-221 | generation succeeds exactly when one of the three attempts is accepted, with the first accepted payload stamped; otherwise all three failed and the error carries the third failure |
| GeminiClient.GenerateUsesThreeAttempts | backend/services/gemini_client.py:164-167 | only the replies to attempts 0, 1 and 2 matter: at most three calls are made |
| GeminiClient.AcceptedAttemptValid | backend/services/gemini_client.py:184-207 | an accepted attempt's payload carries every required field, none null |
| GeminiClient.GeneratedMessageValid | backend/services/gemini_client.py:184-221 | a generated message carries the request's type, content type, difficulty and theme, and every required field of its type, none null |
| GeminiClient.StampKeepsRequired | backend/services/gemini_client.py:215-219 | stamping the metadata never removes or nulls a required field |
| GeminiClient.ClampScore | backend/services/gemini_client.py:92 | the score is clamped into 1..100 and kept when already inside |
| GeminiClient.ScoreEmail | backend/services/gemini_client.py:46-96 | each error case: a raising call, no text, invalid JSON, a missing or non-integer score or a missing rationale, a blank rationale. Otherwise the score is clamped into 1..100 and the stripped rationale is non-empty and stripped |
| GeminiClient.StripIdempotent | backend/services/gemini_client.py:86 | the stripped rationale is already stripped |
| PyText.StrRepr | backend/services/gemini_client.py:86 | `repr` of a list item starts and ends with its quote: a double quote exactly when the text holds a single quote and no double quote |
| PyText.EscapedRoundTrip | backend/services/gemini_client.py:86 | the escaped text between the quotes reads back as the original item, whichever quote was chosen |
| PyText.PlainRepr | backend/services/gemini_client.py:86 | an item without quotes, backslashes or control characters is written unchanged between single quotes |
| GeminiClient.OnlyBlankTextRationaleIsEmpty | backend/services/gemini_client.py:86-94 | a rationale that is not text never converts to an empty string, so only blank text is refused |
| PyText.StripEmptyIffBlank | backend/services/gemini_client.py:271 | `strip()` is empty exactly when every character is whitespace, and otherwise has no whitespace at either end |
| PyText.NotBlankStrips | backend/services/gemini_client.py:271-274 | text with a non-whitespace character keeps one after `strip()` |
| PyText.Lower | backend/services/supabase_service.py:185 | `lower()` keeps the length and lowers each ASCII capital, nothing else |
| PyText.ReplaceAbsent | backend/services/email_service.py:114-117 | replacing a pattern that does not occur changes nothing |
| PyText.ReplaceInserts | backend/services/email_service.py:118-121 | replacing a pattern that occurs puts the replacement into the result |
| PyText.IntTextRoundTrip | backend/services/gemini_client.py:85 | `int(str(n)) == n` for every integer |
| Email.WrappedAppend | backend/services/email_service.py:222-223 | wrapping a list of items distributes over concatenation |
| Email.WrappedItemAt | backend/services/email_service.py:222-223 | the k-th wrapped piece is the k-th item between the markers |
| Email.IndicatorsHtmlShape | backend/services/email_service.py:216-225 | the indicator block is empty exactly when there are no indicators, and otherwise it is fixed markup around one list item per indicator |
| Email.FormatPhishingIndicators | backend/services/email_service.py:216-225 | the loop builds the specified indicator block |
| Email.FormatExplanation | backend/services/email_service.py:227-232 | empty exactly for an empty explanation; otherwise the explanation can be read back from between the fixed markup |
| Email.CreateEmailHtml | backend/services/email_service.py:135-185 | the document is never empty and carries the `{TRACKING_URL}` placeholder |
| Email.CreateEmailPlain | backend/services/email_service.py:187-214 | the loop builds the specified plain text |
| Email.PlainTextLayout | backend/services/email_service.py:192-212 | the header comes first; the indicator section appears exactly when there are indicators, the explanation line exactly when there is an explanation; the notice and placeholder always end the text |
| Email.PlainHasPlaceholder | backend/services/email_service.py:211-212 | the plain text always carries `{{TRACKING_URL}}` |
| Email.PlainGetsLink | backend/services/email_service.py:111-121 | for a phishing email with a tracking id, the plain text receives "Click here: " and the tracking URL |
| Email.HtmlHasNoDoubleBrace | backend/services/email_service.py:140-185 | when the fields hold no brace, `{{TRACKING_URL}}` does not occur in the HTML |
| Email.HtmlNeverLinked | backend/services/email_service.py:111-117 | when the fields hold no brace, the HTML substitution leaves the document unchanged |
| Email.EmailService.constructor | backend/services/email_service.py:20-27 | needs a non-empty API key; the sender is `SENDGRID_FROM_EMAIL` when set, else `noreply@phishschool.com` |
| Email.EmailService.SendEmail | backend/services/email_service.py:29-89 | HTML content when there is any, else the plain text, else nothing is sent and the result is false. Sender, recipient and subject are as given; tracking is attached exactly when a tracking id is given. Success means the transport answered 200, 201 or 202 |
| Email.EmailService.SendCampaignEmail | backend/services/email_service.py:91-133 | a mail is always sent, with the HTML after substitution, to the recipient, with the data's subject and the service's sender. Tracking is attached exactly when there is a tracking id. Success is the transport's acceptance |
| Email.ServiceRegistry.GetEmailService | backend/services/email_service.py:237-247 | the first successful call creates and stores the service and later calls return that same instance; without an API key creation fails with the configuration error and nothing is stored |
| SupabaseService.FindUser | backend/services/supabase_service.py:81-90 | the first row with the id, or none |
| SupabaseService.GetUser | backend/services/supabase_service.py:81-90 | a found row is in the table with that id; None only when no row has the id |
| SupabaseService.GetUserEmail | backend/services/supabase_service.py:92-101 | the stored email of the first row with the id (None when it is null); no row means None; a returned email always belongs to a row with the id |
| SupabaseService.UpdateWhereKeepsKey | backend/services/supabase_service.py:109-115 | an update that keeps ids keeps `user_id` unique |
| SupabaseService.UpsertedKeepsOthers | backend/services/supabase_service.py:73-78 | the upsert grows the table by at most one row and keeps ids unique; `get_user` finds the written row, with the old `last_sent_at` when there was one; every other user reads back as before |
| SupabaseService.UpsertedStoresDefaults | backend/services/supabase_service.py:54-79 | after the upsert, ids are still unique and `get_user` finds the defaults: opted out, weekly, all counters zero |
| SupabaseService.OptedInRow | backend/services/supabase_service.py:103-108 | the row is opted in at the given frequency, or weekly when none is given; nothing else changes |
| SupabaseService.OptedOutRow | backend/services/supabase_service.py:118-122 | the row is opted out; nothing else changes |
| SupabaseService.OptedIn | backend/services/supabase_service.py:174-182 | the sweep selects exactly the opted-in rows, never more rows than there are |
| SupabaseService.OptedInOne | backend/services/supabase_service.py:174-182 | a single row is selected exactly when it is opted in |
| SupabaseService.OptedInAppend | backend/services/supabase_service.py:174-182 | the selection keeps table order and takes each row once: selecting from two runs of rows is selecting from the first, then from the second |
| SupabaseService.OptInSelectsUser | backend/services/supabase_service.py:103-126 | opting in puts the user among the selected rows and opting out removes them; no other user's selection changes |
| SupabaseService.LearnRecorded | backend/services/supabase_service.py:142-148 | one more attempt, and one more correct answer exactly when the answer was correct; correct stays at most attempts; nothing else changes |
| SupabaseService.ScoreRecorded | backend/services/supabase_service.py:151-164 | a missing `Scores` row counts from zero; otherwise both counters advance the same way as in `Users` |
| SupabaseService.LearnCountsStayOrdered | backend/services/supabase_service.py:140-164 | recording an attempt keeps correct at most attempted in both tables |
| SupabaseService.FrequencyPeriod | backend/services/supabase_service.py:255-263 | one day exactly for "daily", thirty days exactly for "monthly", a week otherwise, whatever the letter case |
| SupabaseService.LowerIdempotent | backend/services/supabase_service.py:185 | lowering twice is lowering once |
| SupabaseService.FrequencyCaseInsensitive | backend/services/supabase_service.py:185-187 | lowering the frequency before mapping it changes nothing |
| SupabaseService.DueUsersSelects | backend/services/supabase_service.py:184-198 | the filter fails exactly when a selected row has an aware timestamp, with the TypeError's message; otherwise it keeps exactly the due rows |
| SupabaseService.DueUsersStep | backend/services/supabase_service.py:184-198 | the filter advances one row at a time |
| SupabaseService.JustSentWaitsOnePeriod | backend/services/supabase_service.py:197-198 | a user stamped at `now` is not due before a whole period has passed, and is due from then on |
| SupabaseService.MessageRequest | backend/services/supabase_service.py:212-218 | every sweep email is a medium-difficulty email, phishing or legitimate, with no theme |
| SupabaseService.CampaignData | backend/services/supabase_service.py:219-227 | the built `email_data` has the drawn type and the recipient, always a non-empty subject and body, and no tracking id |
| SupabaseService.NoAddressNeverDelivered | backend/services/supabase_service.py:205-209 | a due user without an id or an address is never sent an email |
| SupabaseService.FatesDetermined | backend/services/supabase_service.py:204-237 | the fate of every due user is determined by the sweep's inputs |
| SupabaseService.SweepCountsBalance | backend/services/supabase_service.py:204-237 | every due user is counted exactly once: sent, or failed for a missing address, a generation error or a rejected send |
| SupabaseService.DeliveredIdsExact | backend/services/supabase_service.py:229-231 | an id is stamped exactly when some due user with that id was sent an email |
| SupabaseService.EmptyIdNeverMarked | backend/services/supabase_service.py:205-209 | no row is stamped on behalf of a user without an id |
| SupabaseService.WithLastSentOnlyStamps | backend/services/supabase_service.py:231 | the table keeps its length and every column except `last_sent_at`; a marked row carries the sweep's time, an unmarked one is unchanged |
| SupabaseService.WithLastSentUnion | backend/services/supabase_service.py:231 | stamping one more id after a set is stamping their union |
| SupabaseService.SweepMarksOnlyDelivered | backend/services/supabase_service.py:229-233 | sent-to users carry the sweep's time and are not due again at that moment; every other row is unchanged |
| SupabaseService.CampaignService.constructor | backend/services/supabase_service.py:50-51 | the service starts on the given tables with unique user ids |
| SupabaseService.CampaignService.EnsureUsersRow | backend/services/supabase_service.py:54-79 | the table after the upsert; the returned row is the stored one and holds the defaults |
| SupabaseService.CampaignService.OptInUser | backend/services/supabase_service.py:103-116 | the matching row is opted in; the reply is the updated row, or the echoed payload when no row matched |
| SupabaseService.CampaignService.OptOutUser | backend/services/supabase_service.py:118-126 | the matching row is opted out; the reply is the updated row, or the echoed payload |
| SupabaseService.CampaignService.IncrementNumFished | backend/services/supabase_service.py:128-131 | the user's `num_fished` goes up by one; every other row and `Scores` are unchanged |
| SupabaseService.CampaignService.EnsureScoresRow | backend/services/supabase_service.py:134-138 | the user's `Scores` row is (re)set to zeros |
| SupabaseService.CampaignService.RecordLearnAttempt | backend/services/supabase_service.py:140-164 | both tables count the attempt, and the correct answer when there was one; every other row is unchanged |
| SupabaseService.CampaignService.CollectDue | backend/services/supabase_service.py:183-198 | the row-by-row loop gives the specified due filter, including its failure |
| SupabaseService.CampaignService.SendToUser | backend/services/supabase_service.py:204-237 | one due user's fate, and success exactly when the email was accepted |
| SupabaseService.CampaignService.SendToDue | backend/services/supabase_service.py:204-237 | sent plus failed is the number of due users; sent counts the accepted emails; exactly the sent-to users are stamped |
| SupabaseService.CampaignService.SendToDueWithService | backend/services/supabase_service.py:200-244 | an unconfigured mailer aborts with zero counts and nothing changed; otherwise the counts and stamps of the sending loop |
| SupabaseService.CampaignService.SendScheduledEmails | backend/services/supabase_service.py:167-253 | an aware timestamp or an unconfigured mailer returns zero counts and the error, changing nothing; otherwise the report gives the selected and due counts, the sent count and the rest as failed, and exactly the sent-to users are stamped |
| GenerateRouter.GetGenerationInfo | backend/routers/generate.py:59-69 | the listed values are exactly the lists the validation and the random endpoint use: two message types, two content types, three difficulties, six themes |
| GenerateRouter.ValidationError | backend/routers/generate.py:76-95 | the message type is checked first, then the content type, then the difficulty, each with its own detail |
| GenerateRouter.ValidationMatchesInfo | backend/routers/generate.py:59-95 | a request passes validation exactly when every field takes a value the info endpoint lists; a null difficulty is refused |
| GenerateRouter.GenerateTrainingMessage | backend/routers/generate.py:72-111 | a refused request answers 400 with the first failing check's detail |
| GenerateRouter.GenerateTrainingMessageOutcomes | backend/routers/generate.py:72-111 | a refused request never depends on the model. An accepted one answers 502 exactly when generation fails, carrying that failure; otherwise it answers the stamped message with its required fields |
| GenerateRouter.RandomRequest | backend/routers/generate.py:119-128 | every drawn value comes from the four lists, with a theme and no custom prompt |
| GenerateRouter.RandomRequestsAreValid | backend/routers/generate.py:114-128 | every drawn request would pass validation, and every combination of the lists can be drawn |
| GenerateRouter.RandomMatchesValidated | backend/routers/generate.py:114-143 | the random endpoint answers as the validated endpoint would for the same choices |
| GenerateRouter.GenerateStamps | backend/routers/generate.py:97-111 | a successful generation through a route carries the request's metadata and required fields |
| GenerateRouter.SamplePhishingIsBankEmail | backend/routers/generate.py:146-161 | the phishing sample is a bank-themed, medium-difficulty phishing email with the four email fields |
| GenerateRouter.SampleLegitimateIsJobEmail | backend/routers/generate.py:164-179 | the legitimate sample is a job-themed, medium-difficulty legitimate email with the four email fields |
| EmailRouter.FallbackMessage | backend/routers/email.py:110-124 | the fallback template has exactly its five fields |
| EmailRouter.NowRequest | backend/routers/email.py:103-109 | a phishing email at the requested difficulty, medium when none is given, with the requested theme |
| EmailRouter.ExplanationOf | backend/routers/email.py:134 | a missing explanation becomes "This is a simulated phishing email."; a present one is written as `str(...)` exactly when it is truthy, and a string is written as it is |
| EmailRouter.NowData | backend/routers/email.py:127-136 | a phishing email to the looked-up address with no tracking id; the generated subject, sender and body when each is a non-empty string, otherwise "Security Alert", the configured sender and "Please verify your account."; the generated indicators when they are a list, otherwise none; the explanation as above |
| EmailRouter.FallbackDataIsTemplate | backend/routers/email.py:110-136 | when generation fails, the template's subject, body, indicators and explanation are sent from the configured sender |
| EmailRouter.NowMailHasNoLink | backend/routers/email.py:135-138 | without a tracking id the HTML goes out exactly as rendered |
| EmailRouter.ComposeMessage | backend/routers/email.py:102-124 | the generated message, or the fallback template when generation fails |
| EmailRouter.SendPhishingNow | backend/routers/email.py:86-148 | no address answers 404 and sends nothing; an unconfigured mailer answers 500; otherwise the HTML email goes to the stored address without tracking, and the answer reports whether SendGrid accepted it |

## Left out

- The Gemini and SendGrid SDKs, the Supabase client, `load_dotenv` and the model configuration (`_get_model`, `_get_generation_model`, temperature, token limits, response schema) are not modelled. A call is a function parameter. A missing `GEMINI_API_KEY` shows up only as a call that raises.
- The text of `GeminiClientError` and `HTTPException` messages that embed Python object representations is not modelled. A 502 carries the error value whose text would be the detail.
- JSON values are null, integers, strings and lists of strings. Floats, booleans and nested objects are not modelled.
- Where a caller reads text with `get(...) or default`, a value that is not a string reads as absent. Where it reads indicators with `get(...)` or `get(..., [])`, a value that is not a list of strings reads as an empty list. A non-empty string there would be iterated character by character in Python. The send-now route's explanation, read with `get(key, default)`, is modelled by `EmailRouter.ExplanationOf` for every JSON value the model represents.
- The response models' pydantic coercion and validation of the returned payload (`GeneratedMessageResponse(**...)`) are not modelled.
- The HTML style sheet, the meta tags, the fixed footer sentences and the whitespace of the f-string template are not modelled. The fields, the badge, the two optional blocks and the placeholder are.
- `last_sent_at` is abstracted to what parsing it yields: absent, unparsable, naive or aware. ISO-8601 text parsing is not modelled.
- `datetime.utcnow()` is read once per sweep rather than once per row.
- Failures of the database calls themselves (network errors, `maybe_single` raising on duplicates) are not modelled. One consequence: a failed `last_sent_at` update would make the source count a user as both sent and failed.
- Null counters in `Users` and `Scores` read as 0, as `int(x or 0)` does. The model stores them as natural numbers.
- `send_test_email` and the `/send-emails` wrapper route are not modelled. Neither are logging and the `print` diagnostics.
- `score_email`'s prompt text and image parts are not modelled: only the reply to the prompt matters.
- `PyText.Lower` lowers ASCII capitals only, and `PyText.ParseInt` accepts ASCII digits without `_` separators. Python's Unicode case mapping and digit classes go further.
- PyText.StrRepr: non-ASCII characters that Python counts as non-printable are written as they are rather than escaped as `\xNN`, `\uNNNN` or `\UNNNNNNNN`, because Unicode's printable classes are not modelled. Quotes, backslashes and ASCII control characters are escaped as Python does.
- Concurrency of the async routes is not modelled: each operation runs to completion on the state it was given.
