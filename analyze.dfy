/** The analyze page: which transcript it sends, when the Generate button is enabled, how it
    normalises the server's answer, and the pie chart it draws from that answer. */
module AnalyzePage {
  import opened Js
  import opened Strings
  import opened Entities
  import Backend

  datatype InputMode = Upload | Paste

  /** The answer of `POST /api/v1/analyze` as the page reads it; a missing or null key is None. */
  datatype ApiData = ApiData(
    summary: Option<seq<string>>,
    actionItems: Option<seq<ActionItem>>,
    decisions: Option<seq<string>>,
    sentiment: Option<SentimentRecord>)

  /** The `results` state. */
  datatype Results = Results(
    summary: seq<string>,
    actionItems: seq<ActionItem>,
    decisions: seq<string>,
    sentiment: SentimentRecord)

  /** JavaScript `x || fallback` on a JSON array: every array is truthy, even an empty one. */
  function OrArray<T>(x: Option<seq<T>>): (r: seq<T>)
    ensures x.Some? ==> r == x.value
    ensures x.None? ==> r == []
  {
    if x.Some? then x.value else []
  }

  /** `setResults({summary: data.summary || [], ...})`: only a missing field is replaced, by []
      for the lists and by `{}` for the sentiment; present values are kept as they are. */
  function NormaliseResults(data: ApiData): (r: Results)
    ensures r.summary == (if data.summary.Some? then data.summary.value else [])
    ensures r.actionItems == (if data.actionItems.Some? then data.actionItems.value else [])
    ensures r.decisions == (if data.decisions.Some? then data.decisions.value else [])
    ensures r.sentiment == (if data.sentiment.Some? then data.sentiment.value else EmptySentiment)
  {
    Results(OrArray(data.summary), OrArray(data.actionItems), OrArray(data.decisions),
            if data.sentiment.Some? then data.sentiment.value else EmptySentiment)
  }

  const PositiveColor := "#22C55E"
  const NeutralColor := "#FACC15"
  const NegativeColor := "#EF4444"

  const PositiveDefault := 70.0
  const NeutralDefault := 20.0
  const NegativeDefault := 10.0

  /** The chart data: nothing before any result, and otherwise three slices whose values are the
      triple's fields with 70, 20 and 10 standing in for a field that is falsy. */
  function ChartData(results: Option<Results>): (r: seq<Slice>)
    ensures results.None? <==> r == []
    ensures results.Some? ==>
      && |r| == 3
      && r[0].name == "Positive" && r[0].color == PositiveColor
      && r[1].name == "Neutral" && r[1].color == NeutralColor
      && r[2].name == "Negative" && r[2].color == NegativeColor
  {
    match results
    case None => []
    case Some(res) =>
      [ Slice("Positive", Or(res.sentiment.positive, PositiveDefault), PositiveColor),
        Slice("Neutral", Or(res.sentiment.neutral, NeutralDefault), NeutralColor),
        Slice("Negative", Or(res.sentiment.negative, NegativeDefault), NegativeColor) ]
  }

  /** A non-zero field is shown as it is; a missing, null or zero field is replaced by its
      default, so a genuine 0 never appears in the chart. */
  lemma ChartFieldDefaults(res: Results)
    ensures var r := ChartData(Some(res));
      && (Truthy(res.sentiment.positive) ==> r[0].value == res.sentiment.positive.n)
      && (!Truthy(res.sentiment.positive) ==> r[0].value == 70.0)
      && (Truthy(res.sentiment.neutral) ==> r[1].value == res.sentiment.neutral.n)
      && (!Truthy(res.sentiment.neutral) ==> r[1].value == 20.0)
      && (Truthy(res.sentiment.negative) ==> r[2].value == res.sentiment.negative.n)
      && (!Truthy(res.sentiment.negative) ==> r[2].value == 10.0)
      && (res.sentiment.positive == Num(0.0) ==> r[0].value == 70.0)
  {
  }

  /** With no triple the chart falls back to 70/20/10, which adds up to 100. */
  lemma DefaultsSumToHundred(res: Results)
    requires !Truthy(res.sentiment.positive) && !Truthy(res.sentiment.neutral) && !Truthy(res.sentiment.negative)
    ensures var r := ChartData(Some(res));
      r[0].value == 70.0 && r[1].value == 20.0 && r[2].value == 10.0
      && r[0].value + r[1].value + r[2].value == 100.0
  {
  }

  /** The button's `disabled` expression; a chosen file counts as present whatever it holds. */
  predicate GenerateDisabled(loading: bool, mode: InputMode, file: Option<string>, text: string) {
    loading || (mode == Upload && file.None?) || (mode == Paste && IsBlank(JavaScript, text))
  }

  /** The transcript sent: the chosen file's text in upload mode when a file is chosen, the pasted
      text otherwise. */
  function Transcript(mode: InputMode, file: Option<string>, text: string): (t: string)
    ensures mode == Upload && file.Some? ==> t == file.value
    ensures mode == Paste || file.None? ==> t == text
  {
    if mode == Upload && file.Some? then file.value else text
  }

  /** An enabled button sends the chosen file in upload mode and non-blank pasted text in paste mode. */
  lemma EnabledSendsInput(loading: bool, mode: InputMode, file: Option<string>, text: string)
    requires !GenerateDisabled(loading, mode, file, text)
    ensures !loading
    ensures mode == Upload ==> file.Some? && Transcript(mode, file, text) == file.value
    ensures mode == Paste ==> Transcript(mode, file, text) == text && !IsBlank(JavaScript, Transcript(mode, file, text))
  {
  }

  /** The button is enabled exactly when nothing is loading and the current mode has input: a
      chosen file, or pasted text that trims to something, which is text with a non-whitespace
      character. */
  lemma EnabledIff(loading: bool, mode: InputMode, file: Option<string>, text: string)
    ensures !GenerateDisabled(loading, mode, file, text) <==>
      && !loading
      && (mode == Upload ==> file.Some?)
      && (mode == Paste ==> Trim(JavaScript, text) != [] && exists i :: 0 <= i < |text| && !IsSpace(JavaScript, text[i]))
  {
    BlankIffTrimsEmpty(JavaScript, text);
  }

  /** The button tests pasted text with JavaScript's `trim`, the server with Python's `strip`:
      whatever title and date the page sends, text that enables the button is refused as empty
      exactly when every character of it is one `strip` removes. */
  lemma PastedTextServerCheck(file: Option<string>, text: string, title: Option<string>, date: Option<string>,
                              completion: Backend.Completion, id: int)
    requires !GenerateDisabled(false, Paste, file, text)
    ensures var req := Backend.AnalyzeRequest(Transcript(Paste, file, text), title, date);
      (Backend.Analyze(req, completion, id) == Backend.HttpError(400, "Transcript is empty."))
        <==> IsBlank(Python, text)
    ensures (exists i :: 0 <= i < |text| && !IsSpace(Python, text[i])) ==>
      Backend.Analyze(Backend.AnalyzeRequest(text, title, date), completion, id) != Backend.HttpError(400, "Transcript is empty.")
  {
  }

  /** The two sets disagree: a pasted U+001C, which `trim` keeps and `strip` removes, enables
      the button, and the server then refuses the request as empty. */
  lemma SeparatorPassesClientOnly(title: Option<string>, date: Option<string>, completion: Backend.Completion, id: int)
    ensures !GenerateDisabled(false, Paste, None, "\U{1C}")
    ensures Backend.Analyze(Backend.AnalyzeRequest(Transcript(Paste, None, "\U{1C}"), title, date), completion, id)
         == Backend.HttpError(400, "Transcript is empty.")
  {
    assert "\U{1C}"[0] == '\U{1C}';
  }

  /** A chosen file that holds only whitespace enables the button in upload mode, and the server
      then refuses the request with 400. */
  lemma BlankFileReachesServer(fileText: string, text: string, title: Option<string>, date: Option<string>,
                                completion: Backend.Completion, id: int)
    requires IsBlank(Python, fileText)
    ensures !GenerateDisabled(false, Upload, Some(fileText), text)
    ensures var req := Backend.AnalyzeRequest(Transcript(Upload, Some(fileText), text), title, date);
      Backend.Analyze(req, completion, id) == Backend.HttpError(400, "Transcript is empty.")
  {
  }

  /** The page's view of a successful server answer: every field is present. */
  function FromResponse(a: Backend.AnalyzeResponse): (d: ApiData)
    ensures NormaliseResults(d) == Results(a.summary, a.actionItems, a.decisions, a.sentiment)
  {
    ApiData(Some(a.summary), Some(a.actionItems), Some(a.decisions), Some(a.sentiment))
  }

  /** The server answers with a label and a score, never with a triple, unless the summariser
      itself produced one; so after any analysis whose sentiment has no triple (its fallback
      sentiment included) the chart shows 70/20/10 whatever the label and score say. */
  lemma ServerSentimentGivesDefaultChart(req: Backend.AnalyzeRequest, reply: Backend.ModelReply, id: int)
    requires !IsBlank(Python, req.transcript)
    requires reply.sentiment.None? || (
      !Truthy(reply.sentiment.value.positive) && !Truthy(reply.sentiment.value.neutral)
      && !Truthy(reply.sentiment.value.negative))
    ensures var r := Backend.Analyze(req, Backend.Completed(reply), id);
      && r.Ok?
      && ChartData(Some(NormaliseResults(FromResponse(r.body)))) ==
           [ Slice("Positive", 70.0, PositiveColor), Slice("Neutral", 20.0, NeutralColor),
             Slice("Negative", 10.0, NegativeColor) ]
  {
    Backend.AnalyzeFallbacks(req, reply, id);
  }
}
