/** The JSON shapes that travel between the API server and the client. */
module Entities {
  import opened Js

  /** A meeting's `sentiment` object. The server writes `{sentiment: label, score}`; older
      records may carry a `{positive, neutral, negative}` triple instead. A key that is
      absent reads as Undefined (for the numbers) or None (for the label). `otherKeys` says
      that the object has a key these fields do not show: a key outside the five, or a
      `sentiment` key holding null. */
  datatype SentimentRecord = SentimentRecord(
    positive: Slot,
    neutral: Slot,
    negative: Slot,
    sentiment: Option<string>,
    score: Slot,
    otherKeys: bool)

  /** The empty object `{}`. */
  const EmptySentiment := SentimentRecord(Undefined, Undefined, Undefined, None, Undefined, false)

  /** Python truthiness of the sentiment dict: it is falsy only when it has no keys. */
  predicate HasKeys(s: SentimentRecord) {
    s != EmptySentiment
  }

  /** One action item as the summariser produces it. */
  datatype ActionItem = ActionItem(
    assignee: Option<string>,
    task: string,
    due: Option<string>,
    context: Option<string>)

  /** One slice of a pie chart: `{name, value, color}`. */
  datatype Slice = Slice(name: string, value: real, color: string)

  /** A meeting as `GET /api/v1/meetings/{id}` returns it. */
  datatype Meeting = Meeting(
    id: int,
    title: Option<string>,
    date: Option<string>,
    transcript: Option<string>,
    summary: seq<string>,
    actionItems: seq<ActionItem>,
    decisions: seq<string>,
    sentiment: SentimentRecord,
    createdAt: string)

  /** One entry of `GET /api/v1/meetings`. */
  datatype MeetingListing = MeetingListing(
    id: int,
    title: Option<string>,
    date: Option<string>,
    summaryPreview: seq<string>,
    createdAt: string)
}
