/** The dashboard: the recent-meetings list with its "View All" switch, the activity chart
    chosen by time range, and the insights panel of the selected meeting with its sentiment
    label and bar. The page's state is one value; each handler maps it to the next value. */
module DashboardPage {
  import opened Js
  import opened Entities
  import Backend

  // ---------------------------------------------------------------- recent meetings

  const CollapsedCount := 2

  /** The meetings listed: all of them when expanded, otherwise `slice(0, 2)`. */
  function Visible(meetings: seq<MeetingListing>, expanded: bool): (r: seq<MeetingListing>)
    ensures expanded ==> r == meetings
    ensures !expanded ==> |r| == MinInt(CollapsedCount, |meetings|) && r == meetings[..|r|]
  {
    if expanded || |meetings| <= CollapsedCount then meetings else meetings[..CollapsedCount]
  }

  /** Collapsing never hides a meeting of a list of at most two. */
  lemma ShortListFullyShown(meetings: seq<MeetingListing>, expanded: bool)
    requires |meetings| <= CollapsedCount
    ensures Visible(meetings, expanded) == meetings
  {
  }

  // ---------------------------------------------------------------- activity chart

  datatype TimeRange = Week | Month | Year

  datatype Point = Point(name: string, meetings: int)

  /** The fixed `chartData` entry of each time range. */
  function ChartData(r: TimeRange): (points: seq<Point>)
    ensures r == Week ==> |points| == 7
    ensures r == Month ==> |points| == 4
    ensures r == Year ==> |points| == 6
  {
    match r
    case Week =>
      [ Point("Mon", 12), Point("Tue", 15), Point("Wed", 18), Point("Thu", 14),
        Point("Fri", 16), Point("Sat", 4), Point("Sun", 2) ]
    case Month =>
      [ Point("Week 1", 54), Point("Week 2", 48), Point("Week 3", 60), Point("Week 4", 58) ]
    case Year =>
      [ Point("Jan", 220), Point("Feb", 180), Point("Mar", 240), Point("Apr", 210),
        Point("May", 300), Point("Jun", 280) ]
  }

  // ---------------------------------------------------------------- insights panel

  /** The label shown: `sentiment.sentiment || "neutral"`. */
  function SentimentLabel(rec: SentimentRecord): (shown: string)
    ensures shown != []
    ensures Given(rec.sentiment) ==> shown == rec.sentiment.value
    ensures !Given(rec.sentiment) ==> shown == "neutral"
  {
    if Given(rec.sentiment) then rec.sentiment.value else "neutral"
  }

  /** The bar's width in percent: `min(max((score || 0) * 50 + 50, 0), 100)`. */
  function BarWidth(score: Slot): (w: real)
    ensures 0.0 <= w <= 100.0
    ensures !Truthy(score) ==> w == 50.0
    ensures Truthy(score) && -1.0 <= score.n <= 1.0 ==> w == score.n * 50.0 + 50.0
    ensures Truthy(score) && score.n >= 1.0 ==> w == 100.0
    ensures Truthy(score) && score.n <= -1.0 ==> w == 0.0
  {
    Clamp(Or(score, 0.0) * 50.0 + 50.0, 0.0, 100.0)
  }

  /** A higher score never gives a shorter bar. */
  lemma BarWidthMonotone(a: real, b: real)
    requires a <= b
    ensures BarWidth(Num(a)) <= BarWidth(Num(b))
  {
  }

  /** A meeting analysed without a sentiment from the summariser shows "neutral" at half width. */
  lemma DefaultSentimentPanel()
    ensures SentimentLabel(Backend.DefaultSentiment) == "neutral"
    ensures BarWidth(Backend.DefaultSentiment.score) == 50.0
  {
  }

  // ---------------------------------------------------------------- page state

  const LoadMeetingsError := "Failed to load recent meetings."
  const DetailsError := "Unable to load meeting details. Try again."

  datatype View = View(
    recentMeetings: seq<MeetingListing>,
    loadingMeetings: bool,
    meetingsError: Option<string>,
    expandedAll: bool,
    timeRange: TimeRange,
    selected: Option<Meeting>,
    loadingDetails: bool,
    detailsError: Option<string>)

  /** The state on mount: an empty list still loading (the shimmer), collapsed, the week
      chart, nothing selected. */
  function Initial(): (v: View)
    ensures v.recentMeetings == [] && v.loadingMeetings && v.meetingsError.None? && !v.expandedAll
    ensures Visible(v.recentMeetings, v.expandedAll) == [] && RecentPanel(v) == Shimmer
    ensures v.timeRange == Week && |ChartData(v.timeRange)| == 7
    ensures v.selected.None? && !v.loadingDetails && v.detailsError.None?
  {
    View([], true, None, false, Week, None, false, None)
  }

  /** What the "Recent Meetings" card shows. */
  datatype ListPanel = Shimmer | ErrorText(message: string) | NoMeetingsYet | Listed(items: seq<MeetingListing>)

  /** The card's content: the shimmer while loading, then the error, then the empty-list
      text, then the visible meetings. */
  function RecentPanel(v: View): (p: ListPanel)
    ensures p == Shimmer <==> v.loadingMeetings
    ensures p.ErrorText? <==> !v.loadingMeetings && Given(v.meetingsError)
    ensures p.ErrorText? ==> p.message == v.meetingsError.value
    ensures p == NoMeetingsYet <==> !v.loadingMeetings && !Given(v.meetingsError) && v.recentMeetings == []
    ensures p.Listed? ==> p.items == Visible(v.recentMeetings, v.expandedAll) && p.items != []
  {
    if v.loadingMeetings then Shimmer
    else if Given(v.meetingsError) then ErrorText(v.meetingsError.value)
    else if |v.recentMeetings| == 0 then NoMeetingsYet
    else Listed(Visible(v.recentMeetings, v.expandedAll))
  }

  /** After the mount fetch the card shows the error, the empty-list text, or the first
      meetings, never the shimmer again. */
  lemma MountLoadPanel(meetings: Option<Option<seq<MeetingListing>>>)
    ensures var p := RecentPanel(MeetingsLoaded(Initial(), meetings));
      && (meetings.None? ==> p == ErrorText(LoadMeetingsError))
      && (meetings.Some? && meetings.value.Some? && meetings.value.value != [] ==>
            p == Listed(meetings.value.value[..MinInt(CollapsedCount, |meetings.value.value|)]))
      && (meetings.Some? && (meetings.value.None? || meetings.value.value == []) ==> p == NoMeetingsYet)
  {
  }

  /** "View All" / "Collapse". */
  function ToggleExpanded(v: View): (w: View)
    ensures w.expandedAll == !v.expandedAll
    ensures w == v.(expandedAll := w.expandedAll)
  {
    v.(expandedAll := !v.expandedAll)
  }

  /** Two clicks restore the list as it was. */
  lemma ToggleExpandedTwice(v: View)
    ensures ToggleExpanded(ToggleExpanded(v)) == v
  {
  }

  /** The list after a click: collapsed, the first two; expanded, all. */
  lemma ToggleShowsAllOrFirstTwo(v: View)
    requires !v.expandedAll
    ensures Visible(ToggleExpanded(v).recentMeetings, ToggleExpanded(v).expandedAll) == v.recentMeetings
    ensures Visible(ToggleExpanded(ToggleExpanded(v)).recentMeetings, false) == v.recentMeetings[..MinInt(2, |v.recentMeetings|)]
  {
  }

  /** A time-range button: the chart then shows that range's data. */
  function SelectRange(v: View, r: TimeRange): (w: View)
    ensures ChartData(w.timeRange) == ChartData(r)
    ensures w == v.(timeRange := r)
  {
    v.(timeRange := r)
  }

  /** The list fetch: `data.meetings || []` on success, the error message on failure; either
      way loading ends. */
  function MeetingsLoaded(v: View, meetings: Option<Option<seq<MeetingListing>>>): (w: View)
    ensures !w.loadingMeetings
    ensures meetings.None? ==> w == v.(meetingsError := Some(LoadMeetingsError), loadingMeetings := false)
    ensures meetings.Some? && meetings.value.Some? ==>
      w == v.(recentMeetings := meetings.value.value, loadingMeetings := false)
    ensures meetings.Some? && meetings.value.None? ==> w == v.(recentMeetings := [], loadingMeetings := false)
  {
    match meetings
    case None => v.(meetingsError := Some(LoadMeetingsError), loadingMeetings := false)
    case Some(body) => v.(recentMeetings := if body.Some? then body.value else [], loadingMeetings := false)
  }

  /** A click on a meeting: selection and error are cleared while the details load. */
  function StartSelect(v: View): (w: View)
    ensures w.selected.None? && w.detailsError.None? && w.loadingDetails
    ensures w == v.(selected := None, detailsError := None, loadingDetails := true)
  {
    v.(selected := None, detailsError := None, loadingDetails := true)
  }

  /** The details fetch completes: the meeting is selected, or the error is shown. */
  function FinishSelect(v: View, meeting: Option<Meeting>): (w: View)
    ensures !w.loadingDetails
    ensures meeting.Some? ==> w == v.(selected := meeting, loadingDetails := false)
    ensures meeting.None? ==> w == v.(detailsError := Some(DetailsError), loadingDetails := false)
  {
    if meeting.Some? then v.(selected := meeting, loadingDetails := false)
    else v.(detailsError := Some(DetailsError), loadingDetails := false)
  }

  /** A whole selection: the meeting on success, nothing selected and the error on failure. */
  lemma SelectMeetingOutcome(v: View, meeting: Option<Meeting>)
    ensures var w := FinishSelect(StartSelect(v), meeting);
      && !w.loadingDetails
      && w.selected == meeting
      && (w.detailsError.None? <==> meeting.Some?)
  {
  }

  /** "Close" on the insights panel. */
  function Close(v: View): (w: View)
    ensures w.selected.None? && w.detailsError.None?
    ensures w == v.(selected := None, detailsError := None)
  {
    v.(selected := None, detailsError := None)
  }
}
