/** The API server: the `analyze` endpoint's input check and the fallbacks it applies to the
    summariser's output, the shaping of stored meetings for the list and detail endpoints,
    the feedback message check, and the email one-time-password store behind `send_otp` and
    `verify_otp`. The summariser call, the database and the mail service are outside the model:
    what they return is passed in. */
module Backend {
  import opened Js
  import opened Strings
  import opened Entities

  /** A handler's outcome: its JSON body, or an HTTPException with status code and detail. */
  datatype Reply<T> = Ok(body: T) | HttpError(status: int, detail: string)

  // ---------------------------------------------------------------- analyze

  datatype AnalyzeRequest = AnalyzeRequest(transcript: string, title: Option<string>, date: Option<string>)

  /** The JSON object extracted from the summariser's text; a key it lacks reads as None.
      When no JSON can be extracted the server uses `{}`, which is `NoReply`. */
  datatype ModelReply = ModelReply(
    summary: Option<seq<string>>,
    actionItems: Option<seq<ActionItem>>,
    actions: Option<seq<ActionItem>>,
    decisions: Option<seq<string>>,
    sentiment: Option<SentimentRecord>)

  const NoReply := ModelReply(None, None, None, None, None)

  /** What the summariser call produced: its parsed reply, or the message of the exception
      raised by the call, by reading the reply (a JSON array has no `get`) or by saving the
      record. A reply here always has the types the response model declares. */
  datatype Completion = Completed(reply: ModelReply) | Raised(message: string)

  /** The sentiment used when the reply has none. */
  const DefaultSentiment := SentimentRecord(Undefined, Undefined, Undefined, Some("neutral"), Num(0.0), false)

  /** The record written to the meetings table. */
  datatype MeetingRecord = MeetingRecord(
    title: Option<string>,
    date: Option<string>,
    transcript: string,
    summary: seq<string>,
    actionItems: seq<ActionItem>,
    decisions: seq<string>,
    sentiment: SentimentRecord)

  datatype AnalyzeResponse = AnalyzeResponse(
    summary: seq<string>,
    actionItems: seq<ActionItem>,
    decisions: seq<string>,
    sentiment: SentimentRecord,
    meetingId: int)

  /** Python `xs or fallback` for a list: a missing or empty list gives the fallback. */
  function OrList<T>(xs: Option<seq<T>>, fallback: seq<T>): (r: seq<T>)
    ensures xs.Some? && xs.value != [] ==> r == xs.value
    ensures xs.None? || xs.value == [] ==> r == fallback
  {
    if xs.Some? && xs.value != [] then xs.value else fallback
  }

  /** Python `d or fallback` for the sentiment dict: a missing or empty dict gives the fallback;
      any dict with a key is kept, even one whose keys no page reads. */
  function OrSentiment(d: Option<SentimentRecord>, fallback: SentimentRecord): (r: SentimentRecord)
    ensures d.Some? && HasKeys(d.value) ==> r == d.value
    ensures d.None? || d.value == EmptySentiment ==> r == fallback
  {
    if d.Some? && HasKeys(d.value) then d.value else fallback
  }

  /** The record `analyze` stores for a request and the summariser's reply: the request's title
      and date, the stripped transcript, and the reply's parts with their fallbacks. */
  function RecordFor(req: AnalyzeRequest, reply: ModelReply): (rec: MeetingRecord)
    ensures rec.title == req.title && rec.date == req.date
    ensures rec.transcript == Trim(Python, req.transcript)
    ensures rec.summary == OrList(reply.summary, [])
    ensures rec.actionItems == OrList(reply.actionItems, OrList(reply.actions, []))
    ensures rec.decisions == OrList(reply.decisions, [])
    ensures rec.sentiment == OrSentiment(reply.sentiment, DefaultSentiment) && HasKeys(rec.sentiment)
  {
    MeetingRecord(
      req.title, req.date, Trim(Python, req.transcript),
      OrList(reply.summary, []),
      OrList(reply.actionItems, OrList(reply.actions, [])),
      OrList(reply.decisions, []),
      OrSentiment(reply.sentiment, DefaultSentiment))
  }

  /** `POST /api/v1/analyze`, given the summariser's outcome and the id the database assigns. */
  function Analyze(req: AnalyzeRequest, completion: Completion, meetingId: int): (r: Reply<AnalyzeResponse>)
    ensures IsBlank(Python, req.transcript) <==> r == HttpError(400, "Transcript is empty.")
    ensures r.Ok? <==> !IsBlank(Python, req.transcript) && completion.Completed?
    ensures r.HttpError? && !IsBlank(Python, req.transcript) ==> r.status == 500
  {
    if IsBlank(Python, req.transcript) then HttpError(400, "Transcript is empty.")
    else match completion
      case Raised(message) => HttpError(500, message)
      case Completed(reply) =>
        var rec := RecordFor(req, reply);
        Ok(AnalyzeResponse(rec.summary, rec.actionItems, rec.decisions, rec.sentiment, meetingId))
  }

  /** The fallbacks of a successful analysis: a missing or empty summary or decisions list
      becomes [], action items come from `action_items`, else from `actions`, else [], a
      missing or empty sentiment becomes neutral with score 0, and the response always carries
      a sentiment object with keys. */
  lemma AnalyzeFallbacks(req: AnalyzeRequest, reply: ModelReply, meetingId: int)
    requires !IsBlank(Python, req.transcript)
    ensures var r := Analyze(req, Completed(reply), meetingId);
      && r.Ok?
      && r.body.meetingId == meetingId
      && (reply.summary.None? || reply.summary.value == [] ==> r.body.summary == [])
      && (reply.summary.Some? ==> r.body.summary == reply.summary.value)
      && (reply.decisions.None? || reply.decisions.value == [] ==> r.body.decisions == [])
      && (reply.decisions.Some? ==> r.body.decisions == reply.decisions.value)
      && (reply.actionItems.Some? && reply.actionItems.value != [] ==> r.body.actionItems == reply.actionItems.value)
      && ((reply.actionItems.None? || reply.actionItems.value == []) && reply.actions.Some? ==>
            r.body.actionItems == reply.actions.value)
      && ((reply.actionItems.None? || reply.actionItems.value == []) && (reply.actions.None? || reply.actions.value == []) ==>
            r.body.actionItems == [])
      && (reply.sentiment.None? || !HasKeys(reply.sentiment.value) ==> r.body.sentiment == DefaultSentiment)
      && (reply.sentiment.Some? && HasKeys(reply.sentiment.value) ==> r.body.sentiment == reply.sentiment.value)
      && HasKeys(r.body.sentiment)
  {
  }

  /** A reply from which no JSON could be read yields empty lists and the neutral sentiment. */
  lemma AnalyzeUnparsedReply(req: AnalyzeRequest, meetingId: int)
    requires !IsBlank(Python, req.transcript)
    ensures Analyze(req, Completed(NoReply), meetingId) == Ok(AnalyzeResponse([], [], [], DefaultSentiment, meetingId))
  {
  }

  // ---------------------------------------------------------------- stored meetings

  /** A row of the meetings table. A JSON column holds None when it is NULL or empty, and
      otherwise the value its text decodes to. */
  datatype MeetingRow = MeetingRow(
    id: int,
    title: Option<string>,
    date: Option<string>,
    transcript: Option<string>,
    summary: Option<seq<string>>,
    actionItems: Option<seq<ActionItem>>,
    decisions: Option<seq<string>>,
    sentiment: Option<SentimentRecord>,
    createdAt: string)

  /** The row `save_meeting_record` writes: every JSON column holds the encoded value. */
  function StoredRow(rec: MeetingRecord, id: int, createdAt: string): MeetingRow {
    MeetingRow(id, rec.title, rec.date, Some(rec.transcript), Some(rec.summary), Some(rec.actionItems),
               Some(rec.decisions), Some(rec.sentiment), createdAt)
  }

  /** `summary_preview`: the first two summary items, or [] when no summary is stored. */
  function SummaryPreview(column: Option<seq<string>>): (r: seq<string>)
    ensures column.None? ==> r == []
    ensures column.Some? ==> |r| == MinInt(2, |column.value|) && r == column.value[..|r|]
  {
    match column
    case None => []
    case Some(items) => if |items| <= 2 then items else items[..2]
  }

  /** One listed row: its id, title, date and creation time as stored, with the summary preview. */
  function ListEntry(row: MeetingRow): MeetingListing {
    MeetingListing(row.id, row.title, row.date, SummaryPreview(row.summary), row.createdAt)
  }

  /** `list_meetings` over the rows the query selected, one entry per row, in the same order. */
  function ListMeetings(rows: seq<MeetingRow>): (r: seq<MeetingListing>)
    ensures |r| == |rows|
    ensures forall i :: 0 <= i < |rows| ==>
      r[i] == MeetingListing(rows[i].id, rows[i].title, rows[i].date, SummaryPreview(rows[i].summary), rows[i].createdAt)
  {
    seq(|rows|, i requires 0 <= i < |rows| => ListEntry(rows[i]))
  }

  /** `GET /api/v1/meetings/{id}` over the row the query found, if any. */
  function GetMeeting(row: Option<MeetingRow>): (r: Reply<Meeting>)
    ensures row.None? <==> r == HttpError(404, "Meeting not found.")
    ensures r.Ok? ==> var m := row.value;
      && r.body.id == m.id && r.body.title == m.title && r.body.date == m.date
      && r.body.transcript == m.transcript && r.body.createdAt == m.createdAt
      && r.body.summary == (if m.summary.Some? then m.summary.value else [])
      && r.body.actionItems == (if m.actionItems.Some? then m.actionItems.value else [])
      && r.body.decisions == (if m.decisions.Some? then m.decisions.value else [])
      && r.body.sentiment == (if m.sentiment.Some? then m.sentiment.value else EmptySentiment)
  {
    match row
    case None => HttpError(404, "Meeting not found.")
    case Some(m) =>
      Ok(Meeting(m.id, m.title, m.date, m.transcript,
                 if m.summary.Some? then m.summary.value else [],
                 if m.actionItems.Some? then m.actionItems.value else [],
                 if m.decisions.Some? then m.decisions.value else [],
                 if m.sentiment.Some? then m.sentiment.value else EmptySentiment,
                 m.createdAt))
  }

  /** What `analyze` answers is what the detail endpoint later returns for that meeting, with the
      trimmed transcript, and the list endpoint previews its first two summary items. */
  lemma AnalyzedMeetingReadsBack(req: AnalyzeRequest, reply: ModelReply, id: int, createdAt: string)
    requires !IsBlank(Python, req.transcript)
    ensures var resp := Analyze(req, Completed(reply), id).body;
      var row := StoredRow(RecordFor(req, reply), id, createdAt);
      && GetMeeting(Some(row)) == Ok(Meeting(id, req.title, req.date, Some(Trim(Python, req.transcript)),
                                            resp.summary, resp.actionItems, resp.decisions, resp.sentiment, createdAt))
      && ListEntry(row).summaryPreview == resp.summary[..MinInt(2, |resp.summary|)]
  {
  }

  // ---------------------------------------------------------------- feedback

  /** `POST /api/v1/feedback`: a blank message is refused; otherwise the outcome of saving it. */
  function SubmitFeedback(message: string, saveError: Option<string>): (r: Reply<string>)
    ensures IsBlank(Python, message) ==> r == HttpError(400, "Feedback message is empty.")
    ensures r.Ok? <==> !IsBlank(Python, message) && saveError.None?
  {
    if IsBlank(Python, message) then HttpError(400, "Feedback message is empty.")
    else if saveError.Some? then HttpError(500, "Error saving feedback: " + saveError.value)
    else Ok("Feedback received successfully.")
  }

  // ---------------------------------------------------------------- email one-time passwords

  /** An entry of `otp_store`: the code as text and its expiry time in seconds. */
  datatype OtpEntry = OtpEntry(otp: string, expiresAt: real)

  type OtpMap = map<string, OtpEntry>

  const MinCode := 100000
  const MaxCode := 999999
  const OtpLifetime := 300.0

  /** What the mail service did with the code: accepted it, could not be called for want of an
      API key, answered with a status other than 200 and 202, or could not be reached at all
      (the HTTP client raised, which the handler does not catch). */
  datatype MailOutcome = Delivered | ApiKeyMissing | Rejected | Unreachable

  /** The store after a request, and the reply. */
  datatype OtpStep = OtpStep(store: OtpMap, reply: Reply<string>)

  /** `send_otp` with the drawn code and the current time. The entry is written before the mail
      is sent, so a mail failure leaves the new code in place. */
  function SendOtpStep(store: OtpMap, email: Option<string>, code: int, now: real, mail: MailOutcome): (o: OtpStep)
    requires MinCode <= code <= MaxCode
    ensures !Given(email) ==> o == OtpStep(store, HttpError(400, "Email is required."))
    ensures Given(email) ==> o.store == store[email.value := OtpEntry(DecimalString(code), now + OtpLifetime)]
    ensures o.reply.Ok? <==> Given(email) && mail == Delivered
    ensures Given(email) && mail != Delivered ==> o.reply.HttpError? && o.reply.status == 500
    ensures Given(email) && mail == ApiKeyMissing ==> o.reply.detail == "SendGrid API key missing in .env"
    ensures Given(email) && mail == Rejected ==> o.reply.detail == "Failed to send OTP email."
  {
    if !Given(email) then OtpStep(store, HttpError(400, "Email is required."))
    else
      var updated := store[email.value := OtpEntry(DecimalString(code), now + OtpLifetime)];
      match mail
      case Delivered => OtpStep(updated, Ok("OTP sent to " + email.value))
      case ApiKeyMissing => OtpStep(updated, HttpError(500, "SendGrid API key missing in .env"))
      case Rejected => OtpStep(updated, HttpError(500, "Failed to send OTP email."))
      case Unreachable => OtpStep(updated, HttpError(500, "Internal Server Error"))
  }

  /** `verify_otp` at the current time. */
  function VerifyOtpStep(store: OtpMap, email: Option<string>, otp: Option<string>, now: real): (o: OtpStep)
    ensures o.reply.Ok? <==>
      && Given(email) && Given(otp) && email.value in store
      && now <= store[email.value].expiresAt && store[email.value].otp == otp.value
    ensures o.reply.Ok? ==> o.store == store - {email.value}
    ensures o.reply.HttpError? ==> o.reply.status == 400
    ensures o.store == store || (Given(email) && Given(otp) && email.value in store && o.store == store - {email.value})
  {
    if !Given(email) || !Given(otp) then OtpStep(store, HttpError(400, "Email and OTP required."))
    else if email.value !in store then OtpStep(store, HttpError(400, "No OTP found for this email."))
    else if now > store[email.value].expiresAt then
      OtpStep(store - {email.value}, HttpError(400, "OTP expired. Please request a new one."))
    else if store[email.value].otp != otp.value then OtpStep(store, HttpError(400, "Invalid OTP."))
    else OtpStep(store - {email.value}, Ok("OTP verified successfully."))
  }

  /** `send_otp` stores a six-digit code that reads back as the drawn number, expiring 300
      seconds from now; it replaces an earlier entry for the same email and no other entry changes. */
  lemma SendStoresSixDigitCode(store: OtpMap, email: Option<string>, code: int, now: real, mail: MailOutcome)
    requires MinCode <= code <= MaxCode && Given(email)
    ensures var o := SendOtpStep(store, email, code, now, mail);
      var entry := o.store[email.value];
      && |entry.otp| == 6 && AllDigits(entry.otp) && DigitsValue(entry.otp) == code
      && entry.expiresAt == now + 300.0
      && o.store.Keys == store.Keys + {email.value}
      && forall k :: k in store && k != email.value ==> o.store[k] == store[k]
  {
    assert Pow10(5) == 100000 && Pow10(6) == 1000000;
    DecimalStringLength(code, 6);
    DecimalStringValue(code);
  }

  /** Without an email and a code, or without an entry for the email, verification fails
      with 400 and the store is untouched. */
  lemma VerifyRejectsUnknown(store: OtpMap, email: Option<string>, otp: Option<string>, now: real)
    requires !Given(email) || !Given(otp) || email.value !in store
    ensures var o := VerifyOtpStep(store, email, otp, now);
      && o.store == store
      && o.reply == HttpError(400, if !Given(email) || !Given(otp) then "Email and OTP required."
                                   else "No OTP found for this email.")
  {
  }

  /** Expiry is strict: at the expiry time the stored code is still accepted; after it the
      entry is deleted and every code, the stored one included, is refused as expired. */
  lemma ExpiryIsStrict(store: OtpMap, email: string, otp: string, now: real)
    requires email != [] && email in store && store[email].otp != [] && otp != []
    ensures VerifyOtpStep(store, Some(email), Some(store[email].otp), store[email].expiresAt)
         == OtpStep(store - {email}, Ok("OTP verified successfully."))
    ensures now > store[email].expiresAt ==>
      VerifyOtpStep(store, Some(email), Some(otp), now)
        == OtpStep(store - {email}, HttpError(400, "OTP expired. Please request a new one."))
  {
  }

  /** A wrong code within the lifetime fails and keeps the entry, so the user can retry. */
  lemma WrongCodeKeepsEntry(store: OtpMap, email: string, otp: string, now: real)
    requires email != [] && otp != [] && email in store
    requires now <= store[email].expiresAt && otp != store[email].otp
    ensures VerifyOtpStep(store, Some(email), Some(otp), now) == OtpStep(store, HttpError(400, "Invalid OTP."))
  {
  }

  /** A code verifies at most once: after a success the same request finds no entry. */
  lemma CodeIsSingleUse(store: OtpMap, email: Option<string>, otp: Option<string>, now: real, later: real)
    requires VerifyOtpStep(store, email, otp, now).reply.Ok?
    ensures VerifyOtpStep(VerifyOtpStep(store, email, otp, now).store, email, otp, later).reply
         == HttpError(400, "No OTP found for this email.")
  {
  }

  /** The code just sent verifies at any time up to 300 seconds later, and not after. */
  lemma SentCodeVerifies(store: OtpMap, email: string, code: int, now: real, mail: MailOutcome, later: real)
    requires MinCode <= code <= MaxCode && email != []
    ensures var sent := SendOtpStep(store, Some(email), code, now, mail).store;
      VerifyOtpStep(sent, Some(email), Some(DecimalString(code)), later).reply.Ok? <==> later <= now + 300.0
  {
  }

  /** Sending a new code invalidates the previous one: before expiry the old code is refused as
      invalid, and the new entry stays. */
  lemma ResendInvalidatesOldCode(store: OtpMap, email: string, first: int, second: int, now: real, mail: MailOutcome, later: real)
    requires MinCode <= first <= MaxCode && MinCode <= second <= MaxCode && first != second
    requires email != [] && later <= now + 300.0
    ensures var sent := SendOtpStep(store, Some(email), second, now, mail).store;
      VerifyOtpStep(sent, Some(email), Some(DecimalString(first)), later) == OtpStep(sent, HttpError(400, "Invalid OTP."))
  {
    DecimalStringInjective(first, second);
  }

  /** The in-memory `otp_store`. Each request runs atomically, as under the server's lock. */
  class OtpStore {
    var entries: OtpMap

    /** The server starts with an empty store. */
    constructor ()
      ensures entries == map[]
    {
      entries := map[];
    }

    method SendOtp(email: Option<string>, code: int, now: real, mail: MailOutcome) returns (reply: Reply<string>)
      requires MinCode <= code <= MaxCode
      modifies this
      ensures OtpStep(entries, reply) == SendOtpStep(old(entries), email, code, now, mail)
    {
      if email.None? || email.value == [] {
        return HttpError(400, "Email is required.");
      }
      var otpCode := DecimalString(code);
      var expiry := now + OtpLifetime;
      entries := entries[email.value := OtpEntry(otpCode, expiry)];
      match mail {
        case Delivered => reply := Ok("OTP sent to " + email.value);
        case ApiKeyMissing => reply := HttpError(500, "SendGrid API key missing in .env");
        case Rejected => reply := HttpError(500, "Failed to send OTP email.");
        case Unreachable => reply := HttpError(500, "Internal Server Error");
      }
    }

    method VerifyOtp(email: Option<string>, otp: Option<string>, now: real) returns (reply: Reply<string>)
      modifies this
      ensures OtpStep(entries, reply) == VerifyOtpStep(old(entries), email, otp, now)
    {
      if !Given(email) || !Given(otp) {
        return HttpError(400, "Email and OTP required.");
      }
      var key := email.value;
      if key !in entries {
        return HttpError(400, "No OTP found for this email.");
      }
      var entry := entries[key];
      if now > entry.expiresAt {
        entries := entries - {key};
        return HttpError(400, "OTP expired. Please request a new one.");
      }
      if entry.otp != otp.value {
        return HttpError(400, "Invalid OTP.");
      }
      entries := entries - {key};
      reply := Ok("OTP verified successfully.");
    }
  }
}
