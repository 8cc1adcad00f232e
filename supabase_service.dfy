/** `SupabaseService`: the `Users` and `Scores` tables, the learning
    counters, opting in and out, and the due-based campaign sweep.

    The database is held in memory: `Users` is a sequence of rows in the
    order a query returns them and `Scores` is a map keyed by `score_id`.
    The sweep's environment (the clock, the random choice of content type,
    the model, `json.loads`, SendGrid and the environment variables) is one
    `SweepEnv` parameter. */
module SupabaseService {
  import opened Common
  import opened PyText
  import G = GeminiClient
  import E = Email

  // ---------------------------------------------------------------- data

  /** A `last_sent_at` value as the sweep reads it: absent or empty, text
      `fromisoformat` rejects, or a timestamp (microseconds since the epoch)
      that is naive or still carries an offset. Only a negative offset
      survives the sweep's `split("+")`, which makes the timestamp aware. */
  datatype LastSent = Missing | Unparsable | Naive(at: int) | Aware(at: int)

  /** A row of `Users`. Counters that are null in the table read as 0. */
  datatype UserRow = UserRow(
    userId: string,
    email: Option<string>,
    firstName: Option<string>,
    lastName: Option<string>,
    optedIn: bool,
    frequency: Option<string>,
    numFished: nat,
    correct: nat,
    learnAttempts: nat,
    learnCorrect: nat,
    lastSentAt: LastSent)

  /** A row of `Scores`, keyed by `score_id`. */
  datatype ScoreRow = ScoreRow(learnAttempted: nat, learnCorrect: nat)

  /** What `opt_in_user` and `opt_out_user` return: the updated row, or,
      when no row matched, the payload echoed back with the user id. */
  datatype UpdateReply = Stored(row: UserRow) | Echo(userId: string, optedIn: bool, frequency: Option<string>)

  /** `user_id` is the key of `Users`. */
  predicate UniqueIds(users: seq<UserRow>) {
    forall i, j :: 0 <= i < j < |users| ==> users[i].userId != users[j].userId
  }

  // ---------------------------------------------------------------- queries

  /** The index of the first row with `userId`, or `|users|` when there is none. */
  function FindUser(users: seq<UserRow>, userId: string): (i: nat)
    ensures i <= |users|
    ensures i < |users| ==> users[i].userId == userId
    ensures forall j :: 0 <= j < i ==> users[j].userId != userId
  {
    if users == [] then 0
    else if users[0].userId == userId then 0
    else 1 + FindUser(users[1..], userId)
  }

  /** `get_user`: the row with this id, or `None`. */
  function GetUser(users: seq<UserRow>, userId: string): (r: Option<UserRow>)
    ensures r.Some? ==> r.value in users && r.value.userId == userId
    ensures r.None? ==> forall u :: u in users ==> u.userId != userId
  {
    var i := FindUser(users, userId);
    if i < |users| then Some(users[i]) else None
  }

  /** `get_user_email`: the stored email of the row with this id; `None` when
      there is no such row or its email is null. */
  function GetUserEmail(users: seq<UserRow>, userId: string): (r: Option<string>)
    ensures r.Some? ==> exists u :: u in users && u.userId == userId && u.email == r
    ensures (forall u :: u in users ==> u.userId != userId) ==> r.None?
    ensures FindUser(users, userId) < |users| ==> r == users[FindUser(users, userId)].email
  {
    var row := GetUser(users, userId);
    if row.Some? then row.value.email else None
  }

  /** `update(...).eq("user_id", userId)`: every row with the id is rewritten
      by `f`; the others are kept. */
  function UpdateWhere(users: seq<UserRow>, userId: string, f: UserRow -> UserRow): (r: seq<UserRow>)
    ensures |r| == |users|
    ensures forall i :: 0 <= i < |users| ==> r[i] == (if users[i].userId == userId then f(users[i]) else users[i])
  {
    seq(|users|, i requires 0 <= i < |users| => if users[i].userId == userId then f(users[i]) else users[i])
  }

  /** An update that keeps every row's id keeps the ids unique. */
  lemma UpdateWhereKeepsKey(users: seq<UserRow>, userId: string, f: UserRow -> UserRow)
    requires UniqueIds(users)
    requires forall u :: f(u).userId == u.userId
    ensures UniqueIds(UpdateWhere(users, userId, f))
  {
    var r := UpdateWhere(users, userId, f);
    forall i, j | 0 <= i < j < |r| ensures r[i].userId != r[j].userId {
      assert r[i].userId == users[i].userId && r[j].userId == users[j].userId;
    }
  }

  // ---------------------------------------------------------------- users

  /** The row `ensure_users_row` writes. */
  function UserDefaults(userId: string, email: Option<string>, firstName: Option<string>, lastName: Option<string>)
    : UserRow
  {
    UserRow(userId, email, firstName, lastName, false, Some("weekly"), 0, 0, 0, 0, Missing)
  }

  /** An upsert on `user_id`: a row with the same id gets every written
      column overwritten and keeps `last_sent_at`, which the upsert does not
      name; otherwise the row is added. */
  function Upserted(users: seq<UserRow>, row: UserRow): (r: seq<UserRow>)
    requires row.lastSentAt == Missing
    ensures FindUser(users, row.userId) < |users| ==>
      r == users[FindUser(users, row.userId) := row.(lastSentAt := users[FindUser(users, row.userId)].lastSentAt)]
    ensures FindUser(users, row.userId) == |users| ==> r == users + [row]
  {
    var i := FindUser(users, row.userId);
    if i < |users| then users[i := row.(lastSentAt := users[i].lastSentAt)] else users + [row]
  }

  /** After `ensure_users_row`, the ids are still unique and `get_user` finds
      the defaults, the old `last_sent_at` aside. */
  lemma UpsertedStoresDefaults(users: seq<UserRow>, userId: string, email: Option<string>,
                               firstName: Option<string>, lastName: Option<string>)
    requires UniqueIds(users)
    ensures UniqueIds(Upserted(users, UserDefaults(userId, email, firstName, lastName)))
    ensures var r := GetUser(Upserted(users, UserDefaults(userId, email, firstName, lastName)), userId);
      && r.Some?
      && r.value.(lastSentAt := Missing) == UserDefaults(userId, email, firstName, lastName)
      && !r.value.optedIn && r.value.frequency == Some("weekly")
      && r.value.numFished == 0 && r.value.correct == 0
      && r.value.learnAttempts == 0 && r.value.learnCorrect == 0
  {
    var d := UserDefaults(userId, email, firstName, lastName);
    var i := FindUser(users, userId);
    var r := Upserted(users, d);
    if i < |users| {
      assert r[i].userId == userId;
      assert FindUser(r, userId) == i;
    } else {
      forall j, k | 0 <= j < k < |r| ensures r[j].userId != r[k].userId {
        if k == |users| {
          assert r[j] == users[j];
        }
      }
      assert r[|users|] == d;
      assert FindUser(r, userId) == |users| by {
        assert forall j :: 0 <= j < |users| ==> r[j] == users[j];
      }
    }
  }

  /** Any index before which no row has the id and at which one has (or
      the end) is the one `FindUser` finds. */
  lemma {:induction false} FindUserIsFirst(users: seq<UserRow>, userId: string, i: nat)
    requires i <= |users|
    requires forall j :: 0 <= j < i ==> users[j].userId != userId
    requires i < |users| ==> users[i].userId == userId
    ensures FindUser(users, userId) == i
  {
    if users != [] && i > 0 {
      FindUserIsFirst(users[1..], userId, i - 1);
    }
  }

  /** An upsert touches only its own key: the table grows by at most one
      row, ids stay unique, `get_user` finds the written row (with the old
      `last_sent_at` when there was one), and every other user reads back
      as before. */
  lemma UpsertedKeepsOthers(users: seq<UserRow>, row: UserRow, other: string)
    requires row.lastSentAt == Missing
    requires UniqueIds(users)
    requires other != row.userId
    ensures var r := Upserted(users, row);
      && |users| <= |r| <= |users| + 1
      && UniqueIds(r)
      && GetUser(r, row.userId).Some?
      && GetUser(r, row.userId).value.(lastSentAt := Missing) == row
      && GetUser(r, other) == GetUser(users, other)
  {
    var r := Upserted(users, row);
    var i := FindUser(users, row.userId);
    var o := FindUser(users, other);
    if i < |users| {
      FindUserIsFirst(r, row.userId, i);
      if o < |users| {
        assert o != i;
        FindUserIsFirst(r, other, o);
      } else {
        FindUserIsFirst(r, other, |r|);
      }
    } else {
      forall j, k | 0 <= j < k < |r| ensures r[j].userId != r[k].userId {
        if k == |users| {
          assert r[j] == users[j];
        }
      }
      FindUserIsFirst(r, row.userId, |users|);
      if o < |users| {
        FindUserIsFirst(r, other, o);
      } else {
        FindUserIsFirst(r, other, |r|);
      }
    }
  }

  /** The row `opt_in_user` leaves: opted in, at the given frequency or
      weekly when none is given. */
  function OptedInRow(row: UserRow, frequency: Option<string>): (r: UserRow)
    ensures r.optedIn && Truthy(r.frequency)
    ensures Truthy(frequency) ==> r.frequency == frequency
    ensures !Truthy(frequency) ==> r.frequency == Some("weekly")
    ensures r.(optedIn := row.optedIn, frequency := row.frequency) == row
  {
    row.(optedIn := true, frequency := Some(OrElse(frequency, "weekly")))
  }

  /** The row `opt_out_user` leaves: opted out, everything else kept. */
  function OptedOutRow(row: UserRow): (r: UserRow)
    ensures !r.optedIn
    ensures r.(optedIn := row.optedIn) == row
  {
    row.(optedIn := false)
  }

  /** The rows `send_scheduled_emails` selects: the opted-in ones, in order. */
  function OptedIn(users: seq<UserRow>): (r: seq<UserRow>)
    ensures |r| <= |users|
    ensures forall u :: u in r <==> u in users && u.optedIn
  {
    if users == [] then []
    else if users[0].optedIn then [users[0]] + OptedIn(users[1..])
    else OptedIn(users[1..])
  }

  /** A single row is selected exactly when it is opted in. */
  lemma OptedInOne(u: UserRow)
    ensures OptedIn([u]) == if u.optedIn then [u] else []
  {
    assert [u][1..] == [];
  }

  /** The selection works in table order: selecting from two runs of rows
      is selecting from the first, then from the second. */
  lemma {:induction false} OptedInAppend(a: seq<UserRow>, b: seq<UserRow>)
    ensures OptedIn(a + b) == OptedIn(a) + OptedIn(b)
  {
    if a == [] {
      assert a + b == b;
    } else {
      OptedInAppend(a[1..], b);
      assert (a + b)[0] == a[0] && (a + b)[1..] == a[1..] + b;
      if a[0].optedIn {
        calc {
          OptedIn(a + b);
          [a[0]] + OptedIn(a[1..] + b);
          [a[0]] + (OptedIn(a[1..]) + OptedIn(b));
          { Associative([a[0]], OptedIn(a[1..]), OptedIn(b)); }
          ([a[0]] + OptedIn(a[1..])) + OptedIn(b);
        }
      }
    }
  }

  /** Opting in puts a user among the rows the sweep selects, opting out
      takes them out, and neither changes any other user. */
  lemma OptInSelectsUser(users: seq<UserRow>, userId: string, frequency: Option<string>)
    requires FindUser(users, userId) < |users|
    ensures var after := UpdateWhere(users, userId, u => OptedInRow(u, frequency));
      && OptedInRow(users[FindUser(users, userId)], frequency) in OptedIn(after)
      && (forall u :: u in OptedIn(after) && u.userId != userId ==> u in OptedIn(users))
    ensures var after := UpdateWhere(users, userId, OptedOutRow);
      && (forall u :: u in OptedIn(after) ==> u.userId != userId)
      && (forall u :: u in OptedIn(users) && u.userId != userId ==> u in OptedIn(after))
  {
    OptInSelects(users, userId, frequency);
    OptOutDeselects(users, userId);
  }

  /** The opt-in half of `OptInSelectsUser`. */
  lemma OptInSelects(users: seq<UserRow>, userId: string, frequency: Option<string>)
    requires FindUser(users, userId) < |users|
    ensures var after := UpdateWhere(users, userId, u => OptedInRow(u, frequency));
      && OptedInRow(users[FindUser(users, userId)], frequency) in OptedIn(after)
      && (forall u :: u in OptedIn(after) && u.userId != userId ==> u in OptedIn(users))
  {
    var i := FindUser(users, userId);
    var after := UpdateWhere(users, userId, u => OptedInRow(u, frequency));
    assert after[i] == OptedInRow(users[i], frequency);
    assert after[i] in after;
    forall u | u in OptedIn(after) && u.userId != userId ensures u in OptedIn(users) {
      var j :| 0 <= j < |after| && after[j] == u;
      assert users[j] == u;
    }
  }

  /** The opt-out half of `OptInSelectsUser`. */
  lemma OptOutDeselects(users: seq<UserRow>, userId: string)
    ensures var after := UpdateWhere(users, userId, OptedOutRow);
      && (forall u :: u in OptedIn(after) ==> u.userId != userId)
      && (forall u :: u in OptedIn(users) && u.userId != userId ==> u in OptedIn(after))
  {
    var out := UpdateWhere(users, userId, OptedOutRow);
    forall u | u in OptedIn(users) && u.userId != userId ensures u in OptedIn(out) {
      var j :| 0 <= j < |users| && users[j] == u;
      assert out[j] == u;
    }
  }

  /** The row after `increment_num_fished`. */
  function FishedRow(row: UserRow, current: nat): UserRow {
    row.(numFished := current + 1)
  }

  /** The row after `record_learn_attempt`: one more attempt, and one more
      correct answer exactly when the answer was correct. */
  function LearnRecorded(row: UserRow, wasCorrect: bool): (r: UserRow)
    ensures r.learnAttempts == row.learnAttempts + 1
    ensures r.learnCorrect == row.learnCorrect + (if wasCorrect then 1 else 0)
    ensures row.learnCorrect <= row.learnAttempts ==> r.learnCorrect <= r.learnAttempts
    ensures r.(learnAttempts := row.learnAttempts, learnCorrect := row.learnCorrect) == row
  {
    row.(learnAttempts := row.learnAttempts + 1, learnCorrect := row.learnCorrect + if wasCorrect then 1 else 0)
  }

  /** The `Scores` row after `record_learn_attempt`; a missing row counts
      from zero. */
  function ScoreRecorded(current: Option<ScoreRow>, wasCorrect: bool): (r: ScoreRow)
    ensures current.None? ==> r == ScoreRow(1, if wasCorrect then 1 else 0)
    ensures current.Some? ==> r.learnAttempted == current.value.learnAttempted + 1
    ensures current.Some? ==> r.learnCorrect == current.value.learnCorrect + (if wasCorrect then 1 else 0)
    ensures current.Some? && current.value.learnCorrect <= current.value.learnAttempted ==>
      r.learnCorrect <= r.learnAttempted
  {
    var base := if current.Some? then current.value else ScoreRow(0, 0);
    ScoreRow(base.learnAttempted + 1, base.learnCorrect + if wasCorrect then 1 else 0)
  }

  /** Every user has answered correctly at most as often as they tried. */
  predicate LearnCountsOrdered(users: seq<UserRow>) {
    forall i :: 0 <= i < |users| ==> users[i].learnCorrect <= users[i].learnAttempts
  }

  /** Recording an attempt keeps correct answers at most the attempts, in
      `Users` and in `Scores`. */
  lemma LearnCountsStayOrdered(users: seq<UserRow>, scores: map<string, ScoreRow>, userId: string, wasCorrect: bool)
    requires LearnCountsOrdered(users)
    requires forall id :: id in scores ==> scores[id].learnCorrect <= scores[id].learnAttempted
    ensures LearnCountsOrdered(UpdateWhere(users, userId, u => LearnRecorded(u, wasCorrect)))
    ensures var s := scores[userId := ScoreRecorded(if userId in scores then Some(scores[userId]) else None, wasCorrect)];
      forall id :: id in s ==> s[id].learnCorrect <= s[id].learnAttempted
  {
  }

  // ---------------------------------------------------------------- sweep

  const DayMicros: int := 86_400_000_000

  /** `_frequency_to_timedelta`: one day for "daily", thirty for "monthly",
      and a week for "weekly", an empty value and anything else; letter case
      does not matter. */
  function FrequencyPeriod(frequency: string): (period: int)
    ensures period == DayMicros || period == 7 * DayMicros || period == 30 * DayMicros
    ensures Lower(frequency) == "daily" <==> period == DayMicros
    ensures Lower(frequency) == "monthly" <==> period == 30 * DayMicros
  {
    var f := Lower(if frequency == "" then "weekly" else frequency);
    if f == "daily" then DayMicros
    else if f == "weekly" then 7 * DayMicros
    else if f == "monthly" then 30 * DayMicros
    else 7 * DayMicros
  }

  /** Lowering twice is lowering once. */
  lemma {:induction false} LowerIdempotent(s: string)
    ensures Lower(Lower(s)) == Lower(s)
  {
    if s != [] {
      LowerIdempotent(s[1..]);
      assert Lower(s)[1..] == Lower(s[1..]);
    }
  }

  /** The sweep lowers the frequency before mapping it, which changes nothing. */
  lemma FrequencyCaseInsensitive(frequency: string)
    ensures FrequencyPeriod(Lower(frequency)) == FrequencyPeriod(frequency)
  {
    LowerIdempotent(frequency);
    if frequency == "" {
      assert Lower(frequency) == "";
    } else {
      assert Lower(frequency) != "";
    }
  }

  /** The period a user waits between emails. */
  function UserPeriod(u: UserRow): int {
    FrequencyPeriod(Lower(OrElse(u.frequency, "weekly")))
  }

  /** `str(e)` for the `TypeError` raised when a naive and an aware datetime
      are subtracted. */
  const MixedTimestamps := "can't subtract offset-naive and offset-aware datetimes"

  /** Whether a selected user is due at `now`: one never sent to, or whose
      timestamp cannot be parsed, is due; one sent to at a naive time is due
      once a whole period has passed; an aware timestamp raises. */
  function DueCheck(u: UserRow, now: int): Result<bool, string> {
    match u.lastSentAt
    case Missing => Ok(true)
    case Unparsable => Ok(true)
    case Naive(at) => Ok(now - at >= UserPeriod(u))
    case Aware(_) => Err(MixedTimestamps)
  }

  /** The due filter over the selected rows, in order; the first aware
      timestamp ends the sweep. */
  function DueUsers(rows: seq<UserRow>, now: int): Result<seq<UserRow>, string>
    decreases |rows|
  {
    if rows == [] then Ok([])
    else
      var init := DueUsers(rows[..|rows| - 1], now);
      var last := rows[|rows| - 1];
      if init.Err? then init
      else match DueCheck(last, now)
        case Err(e) => Err(e)
        case Ok(due) => Ok(if due then init.value + [last] else init.value)
  }

  /** The filter fails exactly when some selected row has an aware
      timestamp; otherwise it keeps exactly the rows that are due, and no
      more rows than there are. */
  lemma {:induction false} DueUsersSelects(rows: seq<UserRow>, now: int)
    ensures DueUsers(rows, now).Err? <==> exists i :: 0 <= i < |rows| && rows[i].lastSentAt.Aware?
    ensures DueUsers(rows, now).Err? ==> DueUsers(rows, now).error == MixedTimestamps
    ensures DueUsers(rows, now).Ok? ==>
      && |DueUsers(rows, now).value| <= |rows|
      && forall u :: u in DueUsers(rows, now).value <==> u in rows && DueCheck(u, now) == Ok(true)
    decreases |rows|
  {
    if rows != [] {
      var init := rows[..|rows| - 1];
      var last := rows[|rows| - 1];
      DueUsersSelects(init, now);
      assert rows == init + [last];
      if !last.lastSentAt.Aware? && !(exists i :: 0 <= i < |init| && init[i].lastSentAt.Aware?) {
        assert forall i :: 0 <= i < |rows| ==> !rows[i].lastSentAt.Aware? by {
          forall i | 0 <= i < |rows| ensures !rows[i].lastSentAt.Aware? {
            if i < |init| { assert rows[i] == init[i]; }
          }
        }
      }
      if exists i :: 0 <= i < |init| && init[i].lastSentAt.Aware? {
        var i :| 0 <= i < |init| && init[i].lastSentAt.Aware?;
        assert rows[i] == init[i];
      }
    }
  }

  /** One more row of the due filter, when no aware timestamp came before it. */
  lemma DueUsersStep(rows: seq<UserRow>, i: nat, now: int, due: seq<UserRow>)
    requires i < |rows| && DueUsers(rows[..i], now) == Ok(due)
    requires !rows[i].lastSentAt.Aware?
    ensures DueUsers(rows[..i + 1], now) == Ok(if DueCheck(rows[i], now) == Ok(true) then due + [rows[i]] else due)
  {
    assert rows[..i + 1][..i] == rows[..i];
  }

  /** A user the sweep has just sent to at `now` is not due again until a
      whole period has passed, and is due from then on. */
  lemma JustSentWaitsOnePeriod(u: UserRow, now: int, later: int)
    requires u.lastSentAt == Naive(now)
    ensures later < now + UserPeriod(u) ==> DueCheck(u, later) == Ok(false)
    ensures later >= now + UserPeriod(u) ==> DueCheck(u, later) == Ok(true)
    ensures DueCheck(u, now) == Ok(false)
  {
  }

  /** Everything the sweep draws on besides the tables: the clock, the
      outcome of `random.random() < 0.7` for the k-th due user, the model's
      replies for that user's generation, `json.loads`, SendGrid, and the
      variables `SENDGRID_API_KEY` and `SENDGRID_FROM_EMAIL`. */
  datatype SweepEnv = SweepEnv(
    now: int,
    phishingDraw: nat -> bool,
    reply: nat -> ((string, nat) -> G.Reply),
    parse: string -> G.JsonDoc,
    transport: E.Mail -> E.TransportOutcome,
    apiKey: Option<string>,
    fromEnv: Option<string>)

  /** The summary `send_scheduled_emails` returns. */
  datatype SweepReport = SweepReport(considered: nat, due: nat, sent: nat, failed: nat, error: Option<string>)

  /** The summary after an exception: zero counts and the message. */
  function Aborted(message: string): SweepReport {
    SweepReport(0, 0, 0, 0, Some(message))
  }

  /** What became of one due user. */
  datatype Delivery = NoAddress | GenerationFailed | SendFailed | Delivered

  /** The generation request for the k-th due user. */
  function MessageRequest(k: nat, env: SweepEnv): (req: G.GenRequest)
    ensures req.messageType == "email" && req.difficulty == "medium"
    ensures req.contentType == "phishing" || req.contentType == "legitimate"
    ensures req.theme.None? && req.customPrompt.None?
  {
    G.GenRequest("email", if env.phishingDraw(k) then "phishing" else "legitimate", "medium", None, None)
  }

  /** The `email_data` built from a generated message: the generated text
      with the sweep's fallbacks, and no tracking id. */
  function CampaignData(msg: G.Payload, contentType: string, recipient: string, fromEnv: Option<string>)
    : (d: E.EmailData)
    ensures d.emailType == contentType && d.recipientEmail == recipient
    ensures d.subject != "" && d.body != ""
    ensures d.clickTrackingId.None?
  {
    E.EmailData(
      contentType,
      G.TextOr(msg, "subject", "Security Training"),
      G.TextOr(msg, "sender", E.EnvFromEmail(fromEnv)),
      recipient,
      G.TextOr(msg, "body", "This is a training email."),
      G.ListOr(msg, "phishing_indicators"),
      G.TextOr(msg, "explanation", ""),
      None)
  }

  /** The mail `send_campaign_email` hands to SendGrid for campaign data. */
  function CampaignMail(fromEmail: string, d: E.EmailData, recipient: string): E.Mail {
    E.Mail(fromEmail, recipient, d.subject, E.Content("text/html", E.LinkedHtml(d)), None)
  }

  /** The fate of the k-th due user, sent from `fromEmail`. */
  function DeliveryOf(u: UserRow, k: nat, env: SweepEnv, fromEmail: string): Delivery {
    if u.userId == "" || !Truthy(u.email) then NoAddress
    else
      var req := MessageRequest(k, env);
      match G.GenerateSpec(req, env.reply(k), env.parse)
      case Err(_) => GenerationFailed
      case Ok(msg) =>
        var d := CampaignData(msg, req.contentType, u.email.value, env.fromEnv);
        if E.Accepted(env.transport(CampaignMail(fromEmail, d, u.email.value))) then Delivered else SendFailed
  }

  /** The fates of all due users, in order. */
  function Fates(due: seq<UserRow>, env: SweepEnv, fromEmail: string): (fates: seq<Delivery>)
    ensures |fates| == |due|
  {
    seq(|due|, k requires 0 <= k < |due| => DeliveryOf(due[k], k, env, fromEmail))
  }

  /** The fates of the due users are determined by the sweep's inputs. */
  lemma FatesDetermined(due: seq<UserRow>, env: SweepEnv, fromEmail: string, fates: seq<Delivery>)
    requires Lists(fates, FateOf(due, env, fromEmail), |due|)
    ensures fates == Fates(due, env, fromEmail)
  {
    var spec := Fates(due, env, fromEmail);
    forall j | 0 <= j < |due| ensures fates[j] == spec[j] {
      assert fates[j] == FateOf(due, env, fromEmail)(j) == DeliveryOf(due[j], j, env, fromEmail);
    }
  }

  /** The fate of the j-th due user, as a function of `j`. */
  function FateOf(due: seq<UserRow>, env: SweepEnv, fromEmail: string): nat -> Delivery {
    (j: nat) => if j < |due| then DeliveryOf(due[j], j, env, fromEmail) else NoAddress
  }

  /** `fates` lists `fate(0)`, ..., `fate(n - 1)`. */
  ghost predicate Lists(fates: seq<Delivery>, fate: nat -> Delivery, n: nat) {
    |fates| == n && forall j {:trigger fate(j)} :: 0 <= j < n ==> fates[j] == fate(j)
  }

  /** One more entry extends the list. */
  lemma ListsStep(fates: seq<Delivery>, fate: nat -> Delivery, n: nat, next: Delivery)
    requires Lists(fates, fate, n) && next == fate(n)
    ensures Lists(fates + [next], fate, n + 1)
  {
    var more := fates + [next];
    forall j | 0 <= j < n + 1 ensures more[j] == fate(j) {
      if j < n {
        assert more[j] == fates[j];
      }
    }
  }

  /** How many of the first `n` fates are `kind`. */
  function CountKind(fates: seq<Delivery>, n: nat, kind: Delivery): (c: nat)
    requires n <= |fates|
    ensures c <= n
  {
    if n == 0 then 0
    else CountKind(fates, n - 1, kind) + (if fates[n - 1] == kind then 1 else 0)
  }

  /** The ids of the first `n` due users whose fate is `Delivered`. */
  function DeliveredIds(due: seq<UserRow>, fates: seq<Delivery>, n: nat): set<string>
    requires n <= |due| && n <= |fates|
  {
    if n == 0 then {}
    else DeliveredIds(due, fates, n - 1) + (if fates[n - 1] == Delivered then {due[n - 1].userId} else {})
  }

  /** Counting and marking read only the first `n` fates. */
  lemma {:induction false} FatesPrefix(due: seq<UserRow>, fates: seq<Delivery>, more: seq<Delivery>, n: nat, kind: Delivery)
    requires n <= |due| && n <= |fates| && n <= |more| && fates[..n] == more[..n]
    ensures CountKind(fates, n, kind) == CountKind(more, n, kind)
    ensures DeliveredIds(due, fates, n) == DeliveredIds(due, more, n)
  {
    if n > 0 {
      assert fates[..n - 1] == fates[..n][..n - 1] && more[..n - 1] == more[..n][..n - 1];
      assert fates[n - 1] == fates[..n][n - 1] && more[n - 1] == more[..n][n - 1];
      FatesPrefix(due, fates, more, n - 1, kind);
    }
  }

  /** Every due user is either sent an email or counted as failed: a missing
      id or address, a generation error and a rejected send each count once. */
  lemma {:induction false} SweepCountsBalance(fates: seq<Delivery>, n: nat)
    requires n <= |fates|
    ensures CountKind(fates, n, Delivered) + CountKind(fates, n, NoAddress)
      + CountKind(fates, n, GenerationFailed) + CountKind(fates, n, SendFailed) == n
  {
    if n > 0 {
      SweepCountsBalance(fates, n - 1);
    }
  }

  /** A user without an id or address is never sent an email. */
  lemma NoAddressNeverDelivered(u: UserRow, k: nat, env: SweepEnv, fromEmail: string)
    requires u.userId == "" || !Truthy(u.email)
    ensures DeliveryOf(u, k, env, fromEmail) == NoAddress
  {
  }

  /** An id is marked exactly when some due user with that id was sent an
      email. */
  lemma {:induction false} DeliveredIdsExact(due: seq<UserRow>, fates: seq<Delivery>, n: nat, id: string)
    requires n <= |due| && n <= |fates|
    ensures id in DeliveredIds(due, fates, n) <==>
      exists k :: 0 <= k < n && due[k].userId == id && fates[k] == Delivered
  {
    if n > 0 {
      DeliveredIdsExact(due, fates, n - 1, id);
    }
  }

  /** The sweep never marks a user without an id: such a user is never
      sent an email. */
  lemma EmptyIdNeverMarked(due: seq<UserRow>, env: SweepEnv, fromEmail: string)
    ensures "" !in DeliveredIds(due, Fates(due, env, fromEmail), |due|)
  {
    var fates := Fates(due, env, fromEmail);
    DeliveredIdsExact(due, fates, |due|, "");
    forall k | 0 <= k < |due| && due[k].userId == "" ensures fates[k] != Delivered {
      NoAddressNeverDelivered(due[k], k, env, fromEmail);
    }
  }

  /** The `Users` table after `last_sent_at` is set to `now` on every row
      whose id is in `ids`. */
  function WithLastSent(users: seq<UserRow>, ids: set<string>, now: int): (r: seq<UserRow>)
    ensures |r| == |users|
    ensures forall i :: 0 <= i < |users| ==>
      r[i] == if users[i].userId in ids then users[i].(lastSentAt := Naive(now)) else users[i]
  {
    seq(|users|, i requires 0 <= i < |users| =>
      if users[i].userId in ids then users[i].(lastSentAt := Naive(now)) else users[i])
  }

  /** Stamping touches only `last_sent_at`: the table keeps its rows and
      every other column, a marked row carries the sweep's time, and an
      unmarked row is unchanged. */
  lemma WithLastSentOnlyStamps(users: seq<UserRow>, ids: set<string>, now: int)
    ensures var r := WithLastSent(users, ids, now);
      && |r| == |users|
      && (forall i :: 0 <= i < |users| ==> r[i].(lastSentAt := users[i].lastSentAt) == users[i])
      && (forall i :: 0 <= i < |users| && users[i].userId in ids ==> r[i].lastSentAt == Naive(now))
      && (forall i :: 0 <= i < |users| && users[i].userId !in ids ==> r[i] == users[i])
  {
  }

  /** Marking one more id after a set of them is marking their union. */
  lemma WithLastSentUnion(users: seq<UserRow>, ids: set<string>, id: string, now: int)
    ensures WithLastSent(WithLastSent(users, ids, now), {id}, now) == WithLastSent(users, ids + {id}, now)
  {
  }

  /** After a sweep, the users it sent to all carry the sweep's timestamp,
      so the same sweep run again at the same moment finds none of them due;
      every other row is as it was. */
  lemma SweepMarksOnlyDelivered(users: seq<UserRow>, ids: set<string>, now: int, i: nat)
    requires i < |users|
    ensures var after := WithLastSent(users, ids, now);
      && (users[i].userId in ids ==> after[i].lastSentAt == Naive(now) && DueCheck(after[i], now) == Ok(false))
      && (users[i].userId !in ids ==> after[i] == users[i])
  {
  }

  // ---------------------------------------------------------------- service

  /** The service and the two tables it works on. */
  class CampaignService {
    var users: seq<UserRow>
    var scores: map<string, ScoreRow>

    ghost predicate Valid()
      reads this
    {
      UniqueIds(users)
    }

    constructor (users: seq<UserRow>, scores: map<string, ScoreRow>)
      requires UniqueIds(users)
      ensures Valid()
      ensures this.users == users && this.scores == scores
    {
      this.users := users;
      this.scores := scores;
    }

    /** `ensure_users_row`: upserts the defaults and returns the stored row. */
    method EnsureUsersRow(userId: string, email: Option<string>, firstName: Option<string>, lastName: Option<string>)
      returns (row: UserRow)
      requires Valid()
      modifies this
      ensures Valid()
      ensures users == Upserted(old(users), UserDefaults(userId, email, firstName, lastName))
      ensures GetUser(users, userId) == Some(row)
      ensures row.(lastSentAt := Missing) == UserDefaults(userId, email, firstName, lastName)
      ensures scores == old(scores)
    {
      var defaults := UserDefaults(userId, email, firstName, lastName);
      UpsertedStoresDefaults(users, userId, email, firstName, lastName);
      users := Upserted(users, defaults);
      row := GetUser(users, userId).value;
    }

    /** `opt_in_user`: opts the user in at the given frequency, or weekly. */
    method OptInUser(userId: string, frequency: Option<string>) returns (r: UpdateReply)
      requires Valid()
      modifies this
      ensures Valid()
      ensures users == UpdateWhere(old(users), userId, u => OptedInRow(u, frequency))
      ensures GetUser(old(users), userId).Some? ==>
        r == Stored(OptedInRow(GetUser(old(users), userId).value, frequency))
      ensures GetUser(old(users), userId).None? ==>
        r == Echo(userId, true, Some(OrElse(frequency, "weekly")))
      ensures scores == old(scores)
    {
      var i := FindUser(users, userId);
      UpdateWhereKeepsKey(users, userId, u => OptedInRow(u, frequency));
      var updated := UpdateWhere(users, userId, u => OptedInRow(u, frequency));
      if i < |users| {
        r := Stored(updated[i]);
      } else {
        r := Echo(userId, true, Some(OrElse(frequency, "weekly")));
      }
      users := updated;
    }

    /** `opt_out_user`: opts the user out and keeps the frequency. */
    method OptOutUser(userId: string) returns (r: UpdateReply)
      requires Valid()
      modifies this
      ensures Valid()
      ensures users == UpdateWhere(old(users), userId, OptedOutRow)
      ensures GetUser(old(users), userId).Some? ==> r == Stored(OptedOutRow(GetUser(old(users), userId).value))
      ensures GetUser(old(users), userId).None? ==> r == Echo(userId, false, None)
      ensures scores == old(scores)
    {
      var i := FindUser(users, userId);
      UpdateWhereKeepsKey(users, userId, OptedOutRow);
      var updated := UpdateWhere(users, userId, OptedOutRow);
      if i < |users| {
        r := Stored(updated[i]);
      } else {
        r := Echo(userId, false, None);
      }
      users := updated;
    }

    /** `increment_num_fished`: one more simulated phish for the user; no row
        changes when there is no such user. */
    method IncrementNumFished(userId: string)
      requires Valid()
      modifies this
      ensures Valid()
      ensures |users| == |old(users)|
      ensures forall i :: 0 <= i < |users| ==>
        users[i] == if old(users)[i].userId == userId
                    then old(users)[i].(numFished := old(users)[i].numFished + 1)
                    else old(users)[i]
      ensures scores == old(scores)
    {
      var current := GetUser(users, userId);
      var value := if current.Some? then current.value.numFished else 0;
      UpdateWhereKeepsKey(users, userId, u => FishedRow(u, value));
      users := UpdateWhere(users, userId, u => FishedRow(u, value));
    }

    /** `ensure_scores_row`: (re)sets the user's `Scores` row to zero. */
    method EnsureScoresRow(userId: string)
      modifies this
      ensures scores == old(scores)[userId := ScoreRow(0, 0)]
      ensures users == old(users)
    {
      scores := scores[userId := ScoreRow(0, 0)];
    }

    /** `record_learn_attempt`: counts the attempt, and the correct answer
        when there was one, in both tables. */
    method RecordLearnAttempt(userId: string, wasCorrect: bool)
      requires Valid()
      modifies this
      ensures Valid()
      ensures |users| == |old(users)|
      ensures forall i :: 0 <= i < |users| ==>
        users[i] == if old(users)[i].userId == userId then LearnRecorded(old(users)[i], wasCorrect) else old(users)[i]
      ensures userId in scores
      ensures scores == old(scores)[userId := ScoreRecorded(
        if userId in old(scores) then Some(old(scores)[userId]) else None, wasCorrect)]
    {
      var current := GetUser(users, userId);
      var attempts := (if current.Some? then current.value.learnAttempts else 0) + 1;
      var correct := (if current.Some? then current.value.learnCorrect else 0) + (if wasCorrect then 1 else 0);
      var f := (u: UserRow) => u.(learnAttempts := attempts, learnCorrect := correct);
      UpdateWhereKeepsKey(users, userId, f);
      ghost var before := users;
      users := UpdateWhere(users, userId, f);
      forall i | 0 <= i < |users| && before[i].userId == userId
        ensures users[i] == LearnRecorded(before[i], wasCorrect)
      {
        assert i == FindUser(before, userId);
      }
      var stored := if userId in scores then Some(scores[userId]) else None;
      scores := scores[userId := ScoreRecorded(stored, wasCorrect)];
    }

    /** The due filter of `send_scheduled_emails`, row by row. */
    method CollectDue(rows: seq<UserRow>, now: int) returns (r: Result<seq<UserRow>, string>)
      ensures r == DueUsers(rows, now)
    {
      var due: seq<UserRow> := [];
      var i := 0;
      while i < |rows|
        invariant 0 <= i <= |rows|
        invariant DueUsers(rows[..i], now) == Ok(due)
      {
        var u := rows[i];
        var period := FrequencyPeriod(Lower(OrElse(u.frequency, "weekly")));
        if !u.lastSentAt.Aware? {
          DueUsersStep(rows, i, now, due);
        }
        match u.lastSentAt {
          case Missing =>
            due := due + [u];
          case Unparsable =>
            due := due + [u];
          case Naive(at) =>
            if now - at >= period {
              due := due + [u];
            }
          case Aware(_) =>
            DueUsersSelects(rows, now);
            return Err(MixedTimestamps);
        }
        i := i + 1;
      }
      assert rows[..i] == rows;
      return Ok(due);
    }

    /** One due user of `send_scheduled_emails`: a user without an id or
        address is skipped; otherwise a message is generated and sent, and
        any failure on the way is caught. */
    method SendToUser(u: UserRow, k: nat, env: SweepEnv, mailer: E.EmailService) returns (ok: bool, ghost fate: Delivery)
      ensures fate == DeliveryOf(u, k, env, mailer.fromEmail)
      ensures ok <==> fate == Delivered
      ensures ok ==> u.userId != "" && Truthy(u.email)
    {
      fate := DeliveryOf(u, k, env, mailer.fromEmail);
      if u.userId == "" || !Truthy(u.email) {
        return false, fate;
      }
      var req := MessageRequest(k, env);
      var msg := G.GenerateMessage(req, env.reply(k), env.parse);
      if msg.Err? {
        return false, fate;
      }
      var data := CampaignData(msg.value, req.contentType, u.email.value, env.fromEnv);
      var mail;
      ok, mail := mailer.SendCampaignEmail(data, u.email.value, env.transport);
      assert mail.value == CampaignMail(mailer.fromEmail, data, u.email.value);
    }

    /** The k-th step of the sending loop: send to `due[k]` and record its
        fate after the fates of the users before it. */
    method SendNext(due: seq<UserRow>, k: nat, env: SweepEnv, mailer: E.EmailService, ghost fates: seq<Delivery>)
      returns (ok: bool, ghost more: seq<Delivery>)
      requires k < |due| && Lists(fates, FateOf(due, env, mailer.fromEmail), k)
      ensures Lists(more, FateOf(due, env, mailer.fromEmail), k + 1)
      ensures more == fates + [more[k]]
      ensures ok <==> more[k] == Delivered
    {
      ghost var fate;
      ok, fate := SendToUser(due[k], k, env, mailer);
      ListsStep(fates, FateOf(due, env, mailer.fromEmail), k, fate);
      more := fates + [fate];
    }

    /** The sending loop of `send_scheduled_emails`: every due user is
        either sent an email, and stamped with the sweep's time, or counted
        as failed. */
    method SendToDue(due: seq<UserRow>, env: SweepEnv, mailer: E.EmailService)
      returns (sent: nat, failed: nat, ghost fates: seq<Delivery>)
      modifies this
      ensures scores == old(scores)
      ensures Lists(fates, FateOf(due, env, mailer.fromEmail), |due|)
      ensures sent == CountKind(fates, |due|, Delivered)
      ensures sent + failed == |due|
      ensures users == WithLastSent(old(users), DeliveredIds(due, fates, |due|), env.now)
    {
      fates := [];
      sent, failed := 0, 0;
      var k := 0;
      while k < |due|
        invariant 0 <= k <= |due|
        invariant Lists(fates, FateOf(due, env, mailer.fromEmail), k)
        invariant sent == CountKind(fates, k, Delivered)
        invariant sent + failed == k
        invariant users == WithLastSent(old(users), DeliveredIds(due, fates, k), env.now)
        invariant scores == old(scores)
      {
        var u := due[k];
        var ok;
        ghost var more;
        ok, more := SendNext(due, k, env, mailer, fates);
        ghost var marked := DeliveredIds(due, fates, k);
        FatesPrefix(due, fates, more, k, Delivered);
        fates := more;
        if ok {
          sent := sent + 1;
          WithLastSentUnion(old(users), marked, u.userId, env.now);
          users := WithLastSent(users, {u.userId}, env.now);
        } else {
          failed := failed + 1;
        }
        k := k + 1;
      }
    }

    /** The part of `send_scheduled_emails` after the due users are known:
        set up the mailer, then send to every due user. `considered` is the
        number of opted-in users, reported as is. */
    method SendToDueWithService(considered: nat, due: seq<UserRow>, env: SweepEnv, registry: E.ServiceRegistry)
      returns (report: SweepReport)
      modifies this, registry
      ensures scores == old(scores)
      ensures old(registry.instance) == null && !Truthy(env.apiKey) ==>
        report == Aborted(E.NotConfigured) && users == old(users) && registry.instance == null
      ensures old(registry.instance) != null || Truthy(env.apiKey) ==>
        && registry.instance != null
        && (old(registry.instance) != null ==> registry.instance == old(registry.instance))
        && var fates := Fates(due, env, registry.instance.fromEmail);
           var sent := CountKind(fates, |due|, Delivered);
           && report == SweepReport(considered, |due|, sent, |due| - sent, None)
           && users == WithLastSent(old(users), DeliveredIds(due, fates, |due|), env.now)
    {
      var service := registry.GetEmailService(env.apiKey, env.fromEnv);
      if service.Err? {
        return Aborted(service.error);
      }
      var sent, failed;
      ghost var fates;
      sent, failed, fates := SendToDue(due, env, service.value);
      FatesDetermined(due, env, service.value.fromEmail, fates);
      report := SweepReport(considered, |due|, sent, failed, None);
    }

    /** `send_scheduled_emails`: selects the opted-in users, keeps the due
        ones, and sends each a freshly generated email, stamping
        `last_sent_at` on success. An aware timestamp or a mailer that cannot
        be set up ends the sweep before anything is sent, with zero counts. */
    method SendScheduledEmails(env: SweepEnv, registry: E.ServiceRegistry) returns (report: SweepReport)
      modifies this, registry
      ensures scores == old(scores)
      ensures DueUsers(OptedIn(old(users)), env.now).Err? ==>
        report == Aborted(MixedTimestamps) && users == old(users) && registry.instance == old(registry.instance)
      ensures DueUsers(OptedIn(old(users)), env.now).Ok? && old(registry.instance) == null && !Truthy(env.apiKey) ==>
        report == Aborted(E.NotConfigured) && users == old(users) && registry.instance == null
      ensures DueUsers(OptedIn(old(users)), env.now).Ok? && (old(registry.instance) != null || Truthy(env.apiKey)) ==>
        && registry.instance != null
        && (old(registry.instance) != null ==> registry.instance == old(registry.instance))
        && var due := DueUsers(OptedIn(old(users)), env.now).value;
           var fates := Fates(due, env, registry.instance.fromEmail);
           var sent := CountKind(fates, |due|, Delivered);
           && report == SweepReport(|OptedIn(old(users))|, |due|, sent, |due| - sent, None)
           && users == WithLastSent(old(users), DeliveredIds(due, fates, |due|), env.now)
    {
      var rows := OptedIn(users);
      var dueResult := CollectDue(rows, env.now);
      if dueResult.Err? {
        DueUsersSelects(rows, env.now);
        return Aborted(dueResult.error);
      }
      report := SendToDueWithService(|rows|, dueResult.value, env, registry);
    }
  }
}
