/** The meeting details page turns a stored sentiment object into the three slices of its pie
    chart. Two stored shapes are understood: a `{positive, neutral, negative}` triple, passed
    through as it is, and a `{sentiment: label, score}` pair, from which a triple is synthesised
    by one of two deliberately asymmetric formulas or a fixed 33/34/33 split. */
module MeetingDetailsPage {
  import opened Js
  import opened Strings
  import opened Entities
  import Backend

  const PositiveColor := "#22C55E"
  const NeutralColor := "#EAB308"
  const NegativeColor := "#EF4444"

  /** The `base` object that the label branch fills in. */
  datatype Breakdown = Breakdown(positive: real, neutral: real, negative: real)

  /** The slices in the order Positive, Neutral, Negative, with their fixed colours. */
  function Slices(b: Breakdown): seq<Slice> {
    [ Slice("Positive", b.positive, PositiveColor),
      Slice("Neutral", b.neutral, NeutralColor),
      Slice("Negative", b.negative, NegativeColor) ]
  }

  /** Three slices with the fixed names and colours, whatever their values. */
  predicate HasFixedLayout(r: seq<Slice>) {
    && |r| == 3
    && r[0].name == "Positive" && r[0].color == PositiveColor
    && r[1].name == "Neutral" && r[1].color == NeutralColor
    && r[2].name == "Negative" && r[2].color == NegativeColor
  }

  /** The number a triple field contributes: the number itself, or 0 when missing or null. */
  function FieldValue(s: Slot): real {
    if s.Num? then s.n else 0.0
  }

  /** The label-and-score branch applies: the label is a non-empty string and a score is present. */
  predicate HasLabelAndScore(rec: SentimentRecord) {
    rec.sentiment.Some? && rec.sentiment.value != [] && rec.score != Undefined
  }

  /** The breakdown synthesised from a lower-cased label and a score. */
  function FromLabel(kind: string, score: real): Breakdown {
    if kind == "positive" then
      var p := Round((score + 1.0) * 50.0) as real;
      var n := 100.0 - p * 0.8;
      Breakdown(p, n, Max(0.0, 100.0 - p - n))
    else if kind == "negative" then
      var g := Round(Abs(score) * 80.0) as real;
      var n := 100.0 - g * 0.8;
      Breakdown(Max(0.0, 100.0 - g - n), n, g)
    else
      Breakdown(33.0, 34.0, 33.0)
  }

  /** `sentimentData` for a meeting whose `sentiment` is `s` (None when the meeting has none). */
  function SentimentData(s: Option<SentimentRecord>): (r: seq<Slice>)
    ensures r == [] || HasFixedLayout(r)
    ensures r == [] <==> s.None? || (s.value.positive == Undefined && !HasLabelAndScore(s.value))
  {
    match s
    case None => []
    case Some(rec) =>
      if rec.positive != Undefined then
        Slices(Breakdown(Or(rec.positive, 0.0), Or(rec.neutral, 0.0), Or(rec.negative, 0.0)))
      else if HasLabelAndScore(rec) then
        Slices(FromLabel(ToLower(rec.sentiment.value), ToNumber(rec.score)))
      else
        []
  }

  function Total(r: seq<Slice>): real
    requires |r| == 3
  {
    r[0].value + r[1].value + r[2].value
  }

  /** A defined `positive` field selects the triple branch, whatever label and score the record
      also carries; the three numbers are shown as they are, a missing or null one as 0. */
  lemma TriplePassesThrough(rec: SentimentRecord)
    requires rec.positive != Undefined
    ensures var r := SentimentData(Some(rec));
      && HasFixedLayout(r)
      && r[0].value == FieldValue(rec.positive)
      && r[1].value == FieldValue(rec.neutral)
      && r[2].value == FieldValue(rec.negative)
  {
  }

  /** The label is compared after lower-casing, so labels that differ only in the case of their
      letters give the same chart. */
  lemma LabelCaseIsIgnored(rec: SentimentRecord, other: string)
    requires HasLabelAndScore(rec) && other != []
    requires ToLower(other) == ToLower(rec.sentiment.value)
    ensures SentimentData(Some(rec.(sentiment := Some(other)))) == SentimentData(Some(rec))
  {
  }

  /** "Positive" and "POSITIVE" select the positive branch, "Negative" and "NEGATIVE" the negative one. */
  lemma CapitalisedLabels()
    ensures ToLower("Positive") == "positive" && ToLower("POSITIVE") == "positive"
    ensures ToLower("Negative") == "negative" && ToLower("NEGATIVE") == "negative"
  {
    assert ToLower("positive") == "positive" by { ToLowerKeepsLower("positive"); }
    assert ToLower("negative") == "negative" by { ToLowerKeepsLower("negative"); }
    assert ToLower("Positive") == ToLower("positive") by { ToLowerEqual("Positive", "positive"); }
    assert ToLower("POSITIVE") == ToLower("positive") by { ToLowerEqual("POSITIVE", "positive"); }
    assert ToLower("Negative") == ToLower("negative") by { ToLowerEqual("Negative", "negative"); }
    assert ToLower("NEGATIVE") == ToLower("negative") by { ToLowerEqual("NEGATIVE", "negative"); }
  }

  /** The positive formula: positive = round((score + 1) * 50), neutral = 100 - 0.8 * positive, and
      negative = max(0, 100 - positive - neutral), which is max(0, -0.2 * positive): it is 0 for
      every score of at least -1. For a score in [-1, 1] positive lies in [0, 100] and the total
      exceeds 100 by a fifth of positive. */
  lemma PositiveLabel(rec: SentimentRecord)
    requires rec.positive == Undefined && HasLabelAndScore(rec)
    requires ToLower(rec.sentiment.value) == "positive"
    ensures var r, x := SentimentData(Some(rec)), ToNumber(rec.score);
      && HasFixedLayout(r)
      && r[0].value == Round((x + 1.0) * 50.0) as real
      && r[1].value == 100.0 - 0.8 * r[0].value
      && r[2].value == Max(0.0, -0.2 * r[0].value)
      && (x >= -1.0 ==> r[2].value == 0.0 && Total(r) == 100.0 + 0.2 * r[0].value)
      && (-1.0 <= x <= 1.0 ==> 0.0 <= r[0].value <= 100.0 && 20.0 <= r[1].value <= 100.0)
  {
    var x := ToNumber(rec.score);
    var p := Round((x + 1.0) * 50.0);
    if x >= -1.0 {
      assert p >= 0;
    }
    if x <= 1.0 {
      assert p <= 100;
    }
  }

  /** Nothing is clamped: a score above 1 gives positive at least 100, and from 1.01 on more than 100. */
  lemma PositiveLabelUnclamped(rec: SentimentRecord)
    requires rec.positive == Undefined && HasLabelAndScore(rec)
    requires ToLower(rec.sentiment.value) == "positive"
    requires ToNumber(rec.score) > 1.0
    ensures var r := SentimentData(Some(rec));
      && r[0].value >= 100.0
      && (ToNumber(rec.score) >= 1.01 ==> r[0].value > 100.0)
  {
    var x := ToNumber(rec.score);
    var p := Round((x + 1.0) * 50.0);
    assert p >= 100;
    if x >= 1.01 {
      assert p > 100;
    }
  }

  /** The negative formula: negative = round(|score| * 80), never negative, neutral =
      100 - 0.8 * negative, and positive = max(0, 100 - negative - neutral), which is always 0. */
  lemma NegativeLabel(rec: SentimentRecord)
    requires rec.positive == Undefined && HasLabelAndScore(rec)
    requires ToLower(rec.sentiment.value) == "negative"
    ensures var r, x := SentimentData(Some(rec)), ToNumber(rec.score);
      && HasFixedLayout(r)
      && r[2].value == Round(Abs(x) * 80.0) as real
      && r[2].value >= 0.0
      && r[1].value == 100.0 - 0.8 * r[2].value
      && r[0].value == 0.0
      && Total(r) == 100.0 + 0.2 * r[2].value
      && (-1.0 <= x <= 1.0 ==> r[2].value <= 80.0 && 36.0 <= r[1].value <= 100.0)
  {
    var x := ToNumber(rec.score);
    var g := Round(Abs(x) * 80.0);
    assert g >= 0;
    if -1.0 <= x <= 1.0 {
      assert g <= 80;
    }
  }

  /** Any other label, "neutral" among them, gives exactly 33/34/33, which adds up to 100. */
  lemma OtherLabel(rec: SentimentRecord)
    requires rec.positive == Undefined && HasLabelAndScore(rec)
    requires ToLower(rec.sentiment.value) != "positive" && ToLower(rec.sentiment.value) != "negative"
    ensures var r := SentimentData(Some(rec));
      && r == Slices(Breakdown(33.0, 34.0, 33.0))
      && Total(r) == 100.0
  {
  }

  /** The worked examples: a positive score of 1 gives 100/20/0, a positive score of 0 gives
      50/60/0, a negative score of -1 gives 0/36/80 and a neutral label gives 33/34/33. */
  lemma WorkedExamples()
    ensures SentimentData(Some(SentimentRecord(Undefined, Undefined, Undefined, Some("positive"), Num(1.0), false)))
         == Slices(Breakdown(100.0, 20.0, 0.0))
    ensures SentimentData(Some(SentimentRecord(Undefined, Undefined, Undefined, Some("positive"), Num(0.0), false)))
         == Slices(Breakdown(50.0, 60.0, 0.0))
    ensures SentimentData(Some(SentimentRecord(Undefined, Undefined, Undefined, Some("negative"), Num(-1.0), false)))
         == Slices(Breakdown(0.0, 36.0, 80.0))
    ensures SentimentData(Some(SentimentRecord(Undefined, Undefined, Undefined, Some("neutral"), Num(0.0), false)))
         == Slices(Breakdown(33.0, 34.0, 33.0))
  {
    ToLowerKeepsLower("positive");
    ToLowerKeepsLower("negative");
    ToLowerKeepsLower("neutral");
    assert Round(100.0) == 100;
    assert Round(50.0) == 50;
    assert Round(80.0) == 80;
  }

  /** A sentiment object whose only keys are ones the page does not read is kept by the server
      as it is, and its meeting then shows no chart; had the summariser sent no sentiment, the
      neutral fallback would show 33/34/33. */
  lemma UnreadSentimentShowsNoChart(req: Backend.AnalyzeRequest, reply: Backend.ModelReply, id: int)
    requires !IsBlank(Python, req.transcript)
    requires reply.sentiment == Some(SentimentRecord(Undefined, Undefined, Undefined, None, Undefined, true))
    ensures var r := Backend.Analyze(req, Backend.Completed(reply), id);
      && r.Ok? && r.body.sentiment == reply.sentiment.value
      && SentimentData(Some(r.body.sentiment)) == []
    ensures var r := Backend.Analyze(req, Backend.Completed(reply.(sentiment := None)), id);
      && r.Ok? && SentimentData(Some(r.body.sentiment)) == Slices(Breakdown(33.0, 34.0, 33.0))
  {
    Backend.AnalyzeFallbacks(req, reply, id);
    Backend.AnalyzeFallbacks(req, reply.(sentiment := None), id);
    FallbackSentimentChart();
  }

  /** The server's fallback sentiment, neutral with score 0, is drawn as 33/34/33. */
  lemma FallbackSentimentChart()
    ensures SentimentData(Some(Backend.DefaultSentiment)) == Slices(Breakdown(33.0, 34.0, 33.0))
  {
    ToLowerKeepsLower("neutral");
  }
}
