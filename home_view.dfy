/** The rules of the home screen's composables (home/HomeView.kt): where START and
    the activity cards lead, how the cards are laid out two to a row, and the colour
    of a day's circle in the streak card. */
module HomeView {
  import opened Wrappers
  import opened HomeModel
  import opened HomeRepository

  /** The three navigation callbacks of the home screen. */
  datatype Route = FeedRoute | MapRoute | ActivityRoute(activityId: string)

  /** The `when (id)` shared by START and by a card click. */
  function RouteFor(activityId: string): (r: Route)
    ensures r == FeedRoute <==> activityId == "stories"
    ensures r == MapRoute <==> activityId == "mobility"
    ensures r.ActivityRoute? <==> activityId != "stories" && activityId != "mobility"
    ensures r.ActivityRoute? ==> r.activityId == activityId
  {
    match activityId
    case "stories" => FeedRoute
    case "mobility" => MapRoute
    case _ => ActivityRoute(activityId)
  }

  /** The START button of the header: the route of the first activity not yet
      completed, or nothing. */
  function StartTarget(activities: seq<Activity>): (r: Option<Route>)
    ensures r.None? <==> forall i :: 0 <= i < |activities| ==> activities[i].isCompleted
    ensures r.Some? ==> exists i :: IsFirstIncompleteAt(activities, i) && r.value == RouteFor(activities[i].id)
  {
    if |activities| > 0 then
      var first := FirstIncomplete(activities);
      if first.Some? then Some(RouteFor(first.value.id)) else None
    else None
  }

  /** START leads where a click on the first incomplete card leads, so an empty list or
      a fully completed one makes START do nothing. */
  lemma StartMatchesCardClick(activities: seq<Activity>, i: nat)
    requires IsFirstIncompleteAt(activities, i)
    ensures StartTarget(activities) == Some(RouteFor(activities[i].id))
  {
    var r := StartTarget(activities);
    var k :| IsFirstIncompleteAt(activities, k) && r.value == RouteFor(activities[k].id);
    if k != i {
      assert false;
    }
  }

  // ---------------------------------------------------------------------------
  // The activity grid

  /** Concatenates the rows of the grid. */
  function Flatten<T>(rows: seq<seq<T>>): seq<T> {
    if rows == [] then [] else rows[0] + Flatten(rows[1..])
  }

  /** Kotlin `chunked(2)`: consecutive pairs, the last row holding a single item when
      the count is odd. */
  function Chunked<T>(xs: seq<T>): (rows: seq<seq<T>>)
    ensures |rows| == (|xs| + 1) / 2
    ensures forall k :: 0 <= k < |rows| ==> 1 <= |rows[k]| <= 2
    ensures forall k :: 0 <= k < |rows| - 1 ==> |rows[k]| == 2
    ensures |rows| > 0 ==> |rows[|rows| - 1]| == 2 - |xs| % 2
    decreases |xs|
  {
    if |xs| <= 2 then (if xs == [] then [] else [xs])
    else [xs[..2]] + Chunked(xs[2..])
  }

  /** Read row by row, the grid shows every activity once, in list order. */
  lemma {:induction false} ChunkedFlattens<T>(xs: seq<T>)
    ensures Flatten(Chunked(xs)) == xs
    decreases |xs|
  {
    if |xs| > 2 {
      ChunkedFlattens(xs[2..]);
      var rows := Chunked(xs);
      assert rows[1..] == Chunked(xs[2..]);
      assert xs[..2] + xs[2..] == xs;
    } else if xs != [] {
      assert Flatten([xs]) == xs + Flatten<T>([]);
    }
  }

  /** A row gets a filler spacer exactly when it holds a single card. */
  predicate NeedsFiller<T>(row: seq<T>) {
    |row| == 1
  }

  /** Only an odd number of cards leaves a row with a filler, and then only the last row. */
  lemma FillerOnlyInLastRow<T>(xs: seq<T>, k: nat)
    requires k < |Chunked(xs)|
    ensures NeedsFiller(Chunked(xs)[k]) <==> k == |Chunked(xs)| - 1 && |xs| % 2 == 1
  {
  }

  // ---------------------------------------------------------------------------
  // The streak card

  type Argb = int

  const CurrentDayFill: Argb := 0xFFDCFCE7
  const ActiveDayFill: Argb := 0xFF10B981
  const InactiveDayFill: Argb := 0xFFE5E7EB

  /** The fill of a day's circle: current before active before inactive. */
  function StreakCircleColor(day: StreakDay): (c: Argb)
    ensures day.isCurrent ==> c == CurrentDayFill
    ensures !day.isCurrent && day.isActive ==> c == ActiveDayFill
    ensures !day.isCurrent && !day.isActive ==> c == InactiveDayFill
    ensures c == ActiveDayFill <==> day.isActive && !day.isCurrent
  {
    if day.isCurrent then CurrentDayFill
    else if day.isActive then ActiveDayFill
    else InactiveDayFill
  }

  /** The colour of a day's label: blue for the current day, grey otherwise. */
  function StreakLabelColor(day: StreakDay): (c: Argb)
    ensures c == 0xFF2563EB <==> day.isCurrent
  {
    if day.isCurrent then 0xFF2563EB else 0xFF6B7280
  }

  /** Recording today does not turn today's circle green: the current slot keeps the
      current-day fill whether or not it is active. */
  lemma TodayStaysCurrentColored(stored: seq<string>, dayOfWeek: int, i: nat)
    requires i < 7 && WeekDays[i] == CurrentDayName(dayOfWeek)
    ensures StreakCircleColor(WeekTable(stored, CurrentDayName(dayOfWeek))[i]) == CurrentDayFill
    ensures StreakCircleColor(WeekTable(stored + [CurrentDayName(dayOfWeek)], CurrentDayName(dayOfWeek))[i]) == CurrentDayFill
  {
  }
}
