/** The home screen's records (home/HomeViewModel.kt) and the helpers that both the
    repository and the view-model use: the seven weekday labels, the weekday of the
    device calendar, and the first activity not yet completed. Kept apart from the
    view-model so that the repository can use them without an import cycle. */
module HomeModel {
  import opened Wrappers

  datatype StreakDay = StreakDay(name: string, isActive: bool, isCurrent: bool)

  /** The drawable resources an activity card can show. */
  datatype Drawable =
    | IcStories | IcQuiz | IcMobility | IcWellness | IcEyeClosed
    | ImgEarthStory | ImgQuiz | ImgMobility | ImgWellness | AppIcon

  datatype Activity = Activity(
    id: string,
    title: string,
    iconRes: Drawable,
    imageRes: Drawable,
    xp: int,
    hasNotification: bool,
    isCompleted: bool := false)

  /** The week's slots, Monday first. */
  const WeekDays: seq<string> := ["Mon", "Tue", "Wed", "Thu", "Fri", "Sat", "Sun"]

  /** The seven labels are pairwise different. */
  lemma WeekDaysDistinct()
    ensures |WeekDays| == 7
    ensures forall i, j :: 0 <= i < j < 7 ==> WeekDays[i] != WeekDays[j]
  {
    assert WeekDays[0][0] == 'M' && WeekDays[1][0] == 'T' && WeekDays[2][0] == 'W';
    assert WeekDays[3][0] == 'T' && WeekDays[4][0] == 'F' && WeekDays[5][0] == 'S' && WeekDays[6][0] == 'S';
    assert WeekDays[1][1] == 'u' && WeekDays[3][1] == 'h';
    assert WeekDays[5][1] == 'a' && WeekDays[6][1] == 'u';
  }

  /** `getCurrentDayName`: the label of `Calendar.DAY_OF_WEEK` (SUNDAY = 1 ..
      SATURDAY = 7), "Mon" for any other value. */
  function CurrentDayName(dayOfWeek: int): (day: string)
    ensures day in WeekDays
    ensures !(1 <= dayOfWeek <= 7) ==> day == "Mon"
    ensures 1 <= dayOfWeek <= 7 ==> day == WeekDays[(dayOfWeek + 5) % 7]
  {
    match dayOfWeek
    case 2 => "Mon"
    case 3 => "Tue"
    case 4 => "Wed"
    case 5 => "Thu"
    case 6 => "Fri"
    case 7 => "Sat"
    case 1 => "Sun"
    case _ => "Mon"
  }

  /** Every slot of the week is the current day on exactly one calendar weekday. */
  lemma CurrentDayNameIsBijective(i: nat)
    requires i < 7
    ensures CurrentDayName((i + 1) % 7 + 1) == WeekDays[i]
    ensures forall d :: 1 <= d <= 7 && CurrentDayName(d) == WeekDays[i] ==> d == (i + 1) % 7 + 1
  {
    WeekDaysDistinct();
    forall d | 1 <= d <= 7 && CurrentDayName(d) == WeekDays[i]
      ensures d == (i + 1) % 7 + 1
    {
      assert WeekDays[(d + 5) % 7] == WeekDays[i];
    }
  }

  /** Index `i` holds the first activity that is not completed. */
  predicate IsFirstIncompleteAt(activities: seq<Activity>, i: int) {
    0 <= i < |activities| && !activities[i].isCompleted
    && forall j :: 0 <= j < i ==> activities[j].isCompleted
  }

  /** `activities.firstOrNull { !it.isCompleted }` */
  function FirstIncomplete(activities: seq<Activity>): (r: Option<Activity>)
    ensures r.None? <==> forall i :: 0 <= i < |activities| ==> activities[i].isCompleted
    ensures r.Some? ==> exists i :: IsFirstIncompleteAt(activities, i) && activities[i] == r.value
  {
    if activities == [] then None
    else if !activities[0].isCompleted then
      assert IsFirstIncompleteAt(activities, 0);
      Some(activities[0])
    else
      var r := FirstIncomplete(activities[1..]);
      assert r.Some? ==> exists i :: IsFirstIncompleteAt(activities, i) && activities[i] == r.value
      by {
        if r.Some? {
          var i :| IsFirstIncompleteAt(activities[1..], i) && activities[1..][i] == r.value;
          assert IsFirstIncompleteAt(activities, i + 1) by {
            forall j | 0 <= j < i + 1 ensures activities[j].isCompleted {
              if j > 0 { assert activities[j] == activities[1..][j - 1]; }
            }
          }
        }
      }
      r
  }
}
