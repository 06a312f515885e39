/** The home screen's view-model (home/HomeViewModel.kt): the default state, the merge
    of the three repository loads, the START button and the logout dialog. */
module HomeViewModel {
  import opened Wrappers
  import opened HomeModel
  import opened HomeRepository
  import opened Text

  /** The week shown before anything is loaded: no day active, Tuesday current. */
  function DefaultStreakDays(): seq<StreakDay> {
    [StreakDay("Mon", false, false), StreakDay("Tue", false, true), StreakDay("Wed", false, false),
     StreakDay("Thu", false, false), StreakDay("Fri", false, false), StreakDay("Sat", false, false),
     StreakDay("Sun", false, false)]
  }

  /** The four activity cards shown before anything is loaded. */
  function DefaultActivities(): seq<Activity> {
    [Activity("stories", "Stories", IcStories, ImgEarthStory, 20, true),
     Activity("quiz", "Quiz", IcQuiz, ImgQuiz, 10, true),
     Activity("mobility", "Mobility", IcMobility, ImgMobility, 15, false),
     Activity("wellness", "Wellness", IcWellness, ImgWellness, 15, false)]
  }

  datatype HomeState = HomeState(
    streakCount: int := 0,
    starCount: int := 0,
    roseCount: int := 0,
    currentDay: string := "Tue",
    streakDays: seq<StreakDay> := DefaultStreakDays(),
    activities: seq<Activity> := DefaultActivities(),
    isLoading: bool := true,
    isLogoutDialogVisible: bool := false,
    error: Option<string> := None)

  /** The default week is the week table of a Tuesday with no recorded day: seven
      slots in order, none active, exactly Tuesday current. */
  lemma DefaultWeekIsEmptyTuesday()
    ensures DefaultStreakDays() == WeekTable([], "Tue")
    ensures |DefaultStreakDays()| == 7
    ensures forall i :: 0 <= i < 7 ==> !DefaultStreakDays()[i].isActive
    ensures forall i :: 0 <= i < 7 ==> (DefaultStreakDays()[i].isCurrent <==> i == 1)
  {
    var w := WeekTable([], "Tue");
    forall i | 0 <= i < 7
      ensures w[i] == DefaultStreakDays()[i]
      ensures DefaultStreakDays()[i].isCurrent <==> i == 1
    {
      TuesdaySlot(i);
    }
  }

  lemma TuesdaySlot(i: nat)
    requires i < 7
    ensures WeekDays[i] == DefaultStreakDays()[i].name
    ensures WeekDays[i] == "Tue" <==> i == 1
    ensures DefaultStreakDays()[i].isCurrent <==> i == 1
    ensures !DefaultStreakDays()[i].isActive
  {
    WeekDaysDistinct();
  }

  /** Before any load completes, every default activity is still to do, so START has a target. */
  lemma DefaultActivitiesAllIncomplete()
    ensures forall i :: 0 <= i < |DefaultActivities()| ==> !DefaultActivities()[i].isCompleted
    ensures FirstIncomplete(DefaultActivities()) == Some(DefaultActivities()[0])
  {
  }

  /** The messages `loadHomeData` throws for the first repository call that fails. */
  const StatsFailed := "Failed to load user statistics"
  const StreakFailed := "Failed to load streak data"
  const ActivitiesFailed := "Failed to load activities"

  /** The state `loadHomeData` leaves once its coroutine has finished: the three loads
      in order, the first failure ending the attempt with its own fixed message (the
      repository's message is not shown), every displayed value kept as it was. */
  function LoadOutcome(s: HomeState, stats: Result<UserStats>, week: Result<seq<StreakDay>>,
                       activities: Result<seq<Activity>>, dayOfWeek: int): (r: HomeState)
    ensures !r.isLoading
    ensures r.isLogoutDialogVisible == s.isLogoutDialogVisible
    ensures r.error.None? <==> stats.Success? && week.Success? && activities.Success?
    ensures stats.Failure? ==> r.error == Some(StatsFailed)
    ensures stats.Success? && week.Failure? ==> r.error == Some(StreakFailed)
    ensures stats.Success? && week.Success? && activities.Failure? ==> r.error == Some(ActivitiesFailed)
    ensures r.error.Some? ==> r == s.(isLoading := false, error := r.error)
    ensures r.error.None? ==>
      r == s.(streakCount := stats.value.streakCount, starCount := stats.value.starCount,
              roseCount := stats.value.roseCount, currentDay := CurrentDayName(dayOfWeek),
              streakDays := week.value, activities := activities.value, isLoading := false, error := None)
  {
    if stats.Failure? then s.(isLoading := false, error := Some(StatsFailed))
    else if week.Failure? then s.(isLoading := false, error := Some(StreakFailed))
    else if activities.Failure? then s.(isLoading := false, error := Some(ActivitiesFailed))
    else
      s.(streakCount := stats.value.streakCount, starCount := stats.value.starCount,
         roseCount := stats.value.roseCount, currentDay := CurrentDayName(dayOfWeek),
         streakDays := week.value, activities := activities.value, isLoading := false, error := None)
  }

  /** When the week comes from the repository on the same calendar day, the slot
      the loaded state marks current is exactly the one named by its `currentDay`. */
  lemma LoadedWeekMarksCurrentDay(s: HomeState, userId: Option<string>, read: Result<StreakDocument>,
                                  stats: Result<UserStats>, activities: Result<seq<Activity>>, dayOfWeek: int, i: nat)
    requires i < 7
    requires stats.Success? && activities.Success?
    requires GetWeeklyStreak(userId, read, dayOfWeek).Success?
    ensures var r := LoadOutcome(s, stats, GetWeeklyStreak(userId, read, dayOfWeek), activities, dayOfWeek);
      |r.streakDays| == 7 && (r.streakDays[i].isCurrent <==> r.streakDays[i].name == r.currentDay)
  {
  }

  /** A reload that fails keeps what a previous successful load showed. */
  lemma FailedReloadKeepsData(s: HomeState, stats: Result<UserStats>, week: Result<seq<StreakDay>>,
                              activities: Result<seq<Activity>>, dayOfWeek: int)
    requires stats.Failure? || week.Failure? || activities.Failure?
    ensures var r := LoadOutcome(s, stats, week, activities, dayOfWeek);
      r.streakDays == s.streakDays && r.activities == s.activities && r.currentDay == s.currentDay
      && r.streakCount == s.streakCount && r.starCount == s.starCount && r.roseCount == s.roseCount
  {
  }

  class HomeViewModel {
    var state: HomeState
    /** Whether `FirebaseAuth.signOut` has been called. */
    var signedOut: bool

    /** The initial state; the load that `init` launches is the first `LoadHomeData` call. */
    constructor ()
      ensures state == HomeState()
      ensures state.isLoading && state.currentDay == "Tue" && state.error.None?
      ensures !signedOut
    {
      state := HomeState();
      signedOut := false;
    }

    /** `loadHomeData`: the loading flag and cleared error while the calls run, then the
        outcome. The three results stand for the three repository calls (a later one
        is not made when an earlier one failed, so its argument is then ignored). */
    method LoadHomeData(stats: Result<UserStats>, week: Result<seq<StreakDay>>,
                        activities: Result<seq<Activity>>, dayOfWeek: int)
      returns (ghost whileLoading: HomeState)
      modifies this
      ensures whileLoading == old(state).(isLoading := true, error := None)
      ensures state == LoadOutcome(whileLoading, stats, week, activities, dayOfWeek)
      ensures signedOut == old(signedOut)
    {
      state := state.(isLoading := true, error := None);
      whileLoading := state;
      if stats.Failure? {
        state := state.(isLoading := false, error := Some(StatsFailed));
        return;
      }
      if week.Failure? {
        state := state.(isLoading := false, error := Some(StreakFailed));
        return;
      }
      if activities.Failure? {
        state := state.(isLoading := false, error := Some(ActivitiesFailed));
        return;
      }
      state := state.(streakCount := stats.value.streakCount, starCount := stats.value.starCount,
                      roseCount := stats.value.roseCount, currentDay := CurrentDayName(dayOfWeek),
                      streakDays := week.value, activities := activities.value,
                      isLoading := false, error := None);
    }

    /** `onActivityClick`: `markActivityCompleted` on the id, then a reload whatever
        that call returned. `userId`, `date`, `now`, `addFailure` and `streakResult` are
        the signed-in user, today's date, the clock and the outcomes of the repository's
        two writes; `completion` is what the repository call returned and wrote. */
    method OnActivityClick(activityId: string, userId: Option<string>, date: string, now: int,
                           addFailure: Option<string>, streakResult: Result<bool>,
                           stats: Result<UserStats>, week: Result<seq<StreakDay>>,
                           activities: Result<seq<Activity>>, dayOfWeek: int)
      returns (completion: Completion)
      modifies this
      ensures completion == MarkActivityCompleted(userId, activityId, date, now, addFailure, streakResult)
      ensures userId.Some? && !IsBlank(activityId) && addFailure.None? ==>
        completion.written == Some(CompletionRecord(activityId, date, now))
      ensures state == LoadOutcome(old(state).(isLoading := true, error := None), stats, week, activities, dayOfWeek)
      ensures signedOut == old(signedOut)
    {
      completion := MarkActivityCompleted(userId, activityId, date, now, addFailure, streakResult);
      var _ := LoadHomeData(stats, week, activities, dayOfWeek);
    }

    /** `onStartStreakClick`: the first activity not yet completed is clicked; with none,
        nothing happens. */
    method OnStartStreakClick(userId: Option<string>, date: string, now: int,
                              addFailure: Option<string>, streakResult: Result<bool>,
                              stats: Result<UserStats>, week: Result<seq<StreakDay>>,
                              activities: Result<seq<Activity>>, dayOfWeek: int)
      returns (clicked: Option<string>, completion: Option<Completion>)
      modifies this
      ensures FirstIncomplete(old(state).activities).None? ==>
        clicked.None? && completion.None? && state == old(state)
      ensures FirstIncomplete(old(state).activities).Some? ==>
        clicked == Some(FirstIncomplete(old(state).activities).value.id)
        && completion == Some(MarkActivityCompleted(userId, clicked.value, date, now, addFailure, streakResult))
        && state == LoadOutcome(old(state).(isLoading := true, error := None), stats, week, activities, dayOfWeek)
      ensures signedOut == old(signedOut)
    {
      var first := FirstIncomplete(state.activities);
      if first.Some? {
        var c := OnActivityClick(first.value.id, userId, date, now, addFailure, streakResult,
                                 stats, week, activities, dayOfWeek);
        clicked, completion := Some(first.value.id), Some(c);
      } else {
        clicked, completion := None, None;
      }
    }

    method OnLogoutRequested()
      modifies this
      ensures state == old(state).(isLogoutDialogVisible := true)
      ensures signedOut == old(signedOut)
    {
      state := state.(isLogoutDialogVisible := true);
    }

    method DismissLogoutDialog()
      modifies this
      ensures state == old(state).(isLogoutDialogVisible := false)
      ensures signedOut == old(signedOut)
    {
      state := state.(isLogoutDialogVisible := false);
    }

    /** `onLogout`: hides the dialog and signs out. */
    method OnLogout()
      modifies this
      ensures state == old(state).(isLogoutDialogVisible := false)
      ensures signedOut
    {
      state := state.(isLogoutDialogVisible := false);
      signedOut := true;
    }
  }

  /** START clicks the first incomplete activity: every activity before it is completed,
      and when all are completed nothing is clicked. */
  method StartClicksFirstIncomplete(vm: HomeViewModel, userId: Option<string>, date: string, now: int,
                                    addFailure: Option<string>, streakResult: Result<bool>,
                                    stats: Result<UserStats>, week: Result<seq<StreakDay>>,
                                    activities: Result<seq<Activity>>, dayOfWeek: int)
    returns (clicked: Option<string>)
    modifies vm
    ensures clicked.None? <==> forall i :: 0 <= i < |old(vm.state.activities)| ==> old(vm.state.activities)[i].isCompleted
    ensures clicked.Some? ==>
      exists i :: IsFirstIncompleteAt(old(vm.state.activities), i) && old(vm.state.activities)[i].id == clicked.value
  {
    var completion;
    clicked, completion := vm.OnStartStreakClick(userId, date, now, addFailure, streakResult,
                                                 stats, week, activities, dayOfWeek);
  }
}
