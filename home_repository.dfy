/** The data transforms of home/data/HomeRepository.kt. Every Firestore read arrives
    as a parameter (`Failure` when the call threw), every write leaves as a result,
    and the calendar arrives as its field values. */
module HomeRepository {
  import opened Wrappers
  import opened Text
  import opened HomeModel

  datatype UserStats = UserStats(streakCount: int := 0, starCount: int := 0, roseCount: int := 0, totalXP: int := 0)

  const NotAuthenticated := "User not authenticated"

  /** Kotlin `Long.toInt()`: keeps the low 32 bits, read as two's complement. */
  function ToInt32(x: int): (r: int)
    ensures -0x8000_0000 <= r < 0x8000_0000
    ensures (r - x) % 0x1_0000_0000 == 0
    ensures -0x8000_0000 <= x < 0x8000_0000 ==> r == x
  {
    (x + 0x8000_0000) % 0x1_0000_0000 - 0x8000_0000
  }

  // ---------------------------------------------------------------------------
  // User statistics

  /** The numeric fields of `users/{uid}`; `None` where a field is absent. */
  datatype StatsDocument = StatsDocument(streakCount: Option<int>, starCount: Option<int>, roseCount: Option<int>, totalXP: Option<int>)

  function LongFieldAsInt(field: Option<int>): (r: int)
    ensures field.None? ==> r == 0
    ensures field.Some? ==> r == ToInt32(field.value)
  {
    if field.Some? then ToInt32(field.value) else 0
  }

  /** `getUserStats`; `read` is `None` when the document does not exist. */
  function GetUserStats(userId: Option<string>, read: Result<Option<StatsDocument>>): (r: Result<UserStats>)
    ensures userId.None? ==> r == Failure(NotAuthenticated)
    ensures userId.Some? && read.Failure? ==> r == Failure(read.message)
    ensures userId.Some? && read == Success(None) ==> r == Failure("User document not found")
    ensures r.Success? <==> userId.Some? && read.Success? && read.value.Some?
    ensures r.Success? ==> r.value == UserStats(
      LongFieldAsInt(read.value.value.streakCount), LongFieldAsInt(read.value.value.starCount),
      LongFieldAsInt(read.value.value.roseCount), LongFieldAsInt(read.value.value.totalXP))
  {
    if userId.None? then Failure(NotAuthenticated)
    else if read.Failure? then Failure(read.message)
    else if read.value.None? then Failure("User document not found")
    else
      var doc := read.value.value;
      Success(UserStats(LongFieldAsInt(doc.streakCount), LongFieldAsInt(doc.starCount),
                        LongFieldAsInt(doc.roseCount), LongFieldAsInt(doc.totalXP)))
  }

  // ---------------------------------------------------------------------------
  // The week table

  /** `days.map { StreakDay(it, activeDays.contains(it), it == currentDay) }` */
  function MarkDays(days: seq<string>, activeDays: seq<string>, currentDay: string): (r: seq<StreakDay>)
    ensures |r| == |days|
    ensures forall i :: 0 <= i < |days| ==>
      r[i].name == days[i] && (r[i].isActive <==> days[i] in activeDays) && (r[i].isCurrent <==> days[i] == currentDay)
  {
    if days == [] then []
    else [StreakDay(days[0], days[0] in activeDays, days[0] == currentDay)] + MarkDays(days[1..], activeDays, currentDay)
  }

  /** The seven slots of the week, Monday first, for the stored active days. */
  function WeekTable(activeDays: seq<string>, currentDay: string): (r: seq<StreakDay>)
    ensures |r| == 7
    ensures forall i :: 0 <= i < 7 ==> r[i].name == WeekDays[i]
    ensures forall i :: 0 <= i < 7 ==> (r[i].isActive <==> WeekDays[i] in activeDays)
    ensures forall i :: 0 <= i < 7 ==> (r[i].isCurrent <==> WeekDays[i] == currentDay)
  {
    MarkDays(WeekDays, activeDays, currentDay)
  }

  /** For a current day that is one of the labels, exactly one slot is current. */
  lemma ExactlyOneCurrentDay(activeDays: seq<string>, currentDay: string)
    requires currentDay in WeekDays
    ensures exists i :: 0 <= i < 7 && WeekTable(activeDays, currentDay)[i].isCurrent
    ensures forall i, j ::
      (0 <= i < 7 && 0 <= j < 7 && WeekTable(activeDays, currentDay)[i].isCurrent
       && WeekTable(activeDays, currentDay)[j].isCurrent) ==> i == j
  {
    WeekDaysDistinct();
    var k :| 0 <= k < 7 && WeekDays[k] == currentDay;
    assert WeekTable(activeDays, currentDay)[k].isCurrent;
  }

  /** The week the home screen shows for a calendar weekday has exactly one current slot,
      the one named after that weekday. */
  lemma WeekTableForCalendarDay(activeDays: seq<string>, dayOfWeek: int, i: nat)
    requires i < 7
    ensures WeekTable(activeDays, CurrentDayName(dayOfWeek))[i].isCurrent <==> WeekDays[i] == CurrentDayName(dayOfWeek)
    ensures exists k :: 0 <= k < 7 && WeekTable(activeDays, CurrentDayName(dayOfWeek))[k].isCurrent
  {
    ExactlyOneCurrentDay(activeDays, CurrentDayName(dayOfWeek));
  }

  /** The `streak/current` document as `getWeeklyStreak` reads it: whether it exists,
      and its `activeDays` field when that is a list of strings. */
  datatype StreakDocument = StreakDocument(found: bool, activeDays: Option<seq<string>>)

  /** `getWeeklyStreak`: a missing document or field counts as no active day. */
  function GetWeeklyStreak(userId: Option<string>, read: Result<StreakDocument>, dayOfWeek: int): (r: Result<seq<StreakDay>>)
    ensures userId.None? ==> r == Failure(NotAuthenticated)
    ensures userId.Some? && read.Failure? ==> r == Failure(read.message)
    ensures r.Success? <==> userId.Some? && read.Success?
    ensures r.Success? ==> r.value == WeekTable(
      if read.value.found && read.value.activeDays.Some? then read.value.activeDays.value else [],
      CurrentDayName(dayOfWeek))
  {
    if userId.None? then Failure(NotAuthenticated)
    else if read.Failure? then Failure(read.message)
    else
      var activeDays := if read.value.found && read.value.activeDays.Some? then read.value.activeDays.value else [];
      Success(WeekTable(activeDays, CurrentDayName(dayOfWeek)))
  }

  // ---------------------------------------------------------------------------
  // Recording today

  /** The two fields `updateStreak` writes inside its transaction. */
  datatype StreakWrite = StreakWrite(activeDays: seq<string>, currentStreak: int)

  predicate NoDuplicates(s: seq<string>) {
    forall i, j :: 0 <= i < j < |s| ==> s[i] != s[j]
  }

  function Distinct(s: seq<string>): set<string> {
    set d | d in s
  }

  /** Without duplicates, the length of the list is the number of distinct days in it. */
  lemma {:induction false} DistinctCount(s: seq<string>)
    requires NoDuplicates(s)
    ensures |Distinct(s)| == |s|
  {
    if s != [] {
      var t := s[..|s| - 1];
      DistinctCount(t);
      assert Distinct(s) == Distinct(t) + {s[|s| - 1]};
      assert s[|s| - 1] !in Distinct(t);
    }
  }

  /** The body of the transaction in `updateStreak`: today's label is added to the stored
      list when it is missing, and the list and its size are written; when today is
      already there nothing is written. `stored` is `None` when the field is absent. */
  method StreakTransaction(stored: Option<seq<string>>, currentDay: string) returns (write: Option<StreakWrite>)
    ensures var days := if stored.Some? then stored.value else [];
      && (currentDay in days ==> write.None?)
      && (currentDay !in days ==> write == Some(StreakWrite(days + [currentDay], |days| + 1)))
    ensures write.Some? ==> currentDay in write.value.activeDays
    ensures var days := if stored.Some? then stored.value else [];
      write.Some? && NoDuplicates(days) ==>
        NoDuplicates(write.value.activeDays) && write.value.currentStreak == |Distinct(write.value.activeDays)|
  {
    var days := if stored.Some? then stored.value else [];
    if currentDay !in days {
      var activeDays := days + [currentDay];
      write := Some(StreakWrite(activeDays, |activeDays|));
      if NoDuplicates(days) {
        DistinctCount(activeDays);
      }
    } else {
      write := None;
    }
  }

  /** Recording the same day twice: the second transaction, run on what the first one
      wrote, writes nothing; no recorded day is ever removed. */
  method RecordSameDayTwice(stored: seq<string>, currentDay: string) returns (first: Option<StreakWrite>, second: Option<StreakWrite>)
    ensures second.None?
    ensures first.Some? ==> stored <= first.value.activeDays
    ensures first.None? ==> currentDay in stored
  {
    first := StreakTransaction(Some(stored), currentDay);
    var after := if first.Some? then first.value.activeDays else stored;
    second := StreakTransaction(Some(after), currentDay);
  }

  /** After today is recorded, the week table shows today's slot active and current. */
  lemma RecordedDayIsActiveAndCurrent(stored: seq<string>, dayOfWeek: int, i: nat)
    requires i < 7 && WeekDays[i] == CurrentDayName(dayOfWeek)
    ensures var days := stored + [CurrentDayName(dayOfWeek)];
      WeekTable(days, CurrentDayName(dayOfWeek))[i].isActive && WeekTable(days, CurrentDayName(dayOfWeek))[i].isCurrent
  {
    var days := stored + [CurrentDayName(dayOfWeek)];
    assert days[|stored|] == WeekDays[i];
  }

  // ---------------------------------------------------------------------------
  // Completing an activity

  /** A document added to `users/{uid}/completedActivities`. */
  datatype CompletionRecord = CompletionRecord(activityId: string, date: string, timestamp: int)

  /** What `markActivityCompleted` returns and which completion it wrote. */
  datatype Completion = Completion(result: Result<bool>, written: Option<CompletionRecord>)

  /** `markActivityCompleted`: fails without a user or with a blank id before writing;
      otherwise adds the completion (`addFailure` is the message if that write threw) and
      then updates the streak, whose outcome `streakResult` is logged and ignored. */
  function MarkActivityCompleted(userId: Option<string>, activityId: string, date: string, now: int,
                                 addFailure: Option<string>, streakResult: Result<bool>): (c: Completion)
    ensures userId.None? ==> c == Completion(Failure(NotAuthenticated), None)
    ensures userId.Some? && IsBlank(activityId) ==> c == Completion(Failure("Activity ID cannot be empty"), None)
    ensures c.written.Some? <==> userId.Some? && !IsBlank(activityId) && addFailure.None?
    ensures c.result.Success? <==> c.written.Some?
    ensures c.result.Success? ==> c.result.value && c.written.value == CompletionRecord(activityId, date, now)
  {
    if userId.None? then Completion(Failure(NotAuthenticated), None)
    else if IsBlank(activityId) then Completion(Failure("Activity ID cannot be empty"), None)
    else if addFailure.Some? then Completion(Failure(addFailure.value), None)
    else
      var _ := streakResult;
      Completion(Success(true), Some(CompletionRecord(activityId, date, now)))
  }

  /** A failed streak update never turns a completed activity into a failure. */
  lemma StreakFailureIsIgnored(userId: Option<string>, activityId: string, date: string, now: int,
                               addFailure: Option<string>, streakResult: Result<bool>)
    ensures MarkActivityCompleted(userId, activityId, date, now, addFailure, streakResult)
         == MarkActivityCompleted(userId, activityId, date, now, addFailure, Success(true))
  {
  }

  // ---------------------------------------------------------------------------
  // Today's activities

  /** The drawable for a Firestore `iconName`. */
  function IconResource(iconName: string): (d: Drawable)
    ensures d == IcEyeClosed <==> iconName !in {"stories", "quiz", "mobility", "wellness"}
    ensures d in {IcStories, IcQuiz, IcMobility, IcWellness, IcEyeClosed}
  {
    match iconName
    case "stories" => IcStories
    case "quiz" => IcQuiz
    case "mobility" => IcMobility
    case "wellness" => IcWellness
    case _ => IcEyeClosed
  }

  /** The drawable for a Firestore `imageName`. */
  function ImageResource(imageName: string): (d: Drawable)
    ensures d == AppIcon <==> imageName !in {"earth_story", "quiz", "mobility", "wellness"}
    ensures d in {ImgEarthStory, ImgQuiz, ImgMobility, ImgWellness, AppIcon}
  {
    match imageName
    case "earth_story" => ImgEarthStory
    case "quiz" => ImgQuiz
    case "mobility" => ImgMobility
    case "wellness" => ImgWellness
    case _ => AppIcon
  }

  /** The fields of one `activities` document; `None` where a field is absent.
      `wellTyped` is false when some field the mapping reads holds a value of another
      Firestore type (an `xp` stored as text, say), so that its typed getter throws. */
  datatype ActivityDocument = ActivityDocument(
    id: string,
    title: Option<string>,
    iconName: Option<string>,
    imageName: Option<string>,
    xp: Option<int>,
    hasNotification: Option<bool>,
    wellTyped: bool)

  predicate HasTitle(doc: ActivityDocument) {
    doc.title.Some? && !IsBlank(doc.title.value)
  }

  /** A document that becomes a card: titled, and every field readable at its type. */
  predicate Readable(doc: ActivityDocument) {
    HasTitle(doc) && doc.wellTyped
  }

  /** One document as an activity card, or `None` when its title is missing or blank,
      or when reading one of its fields throws and the per-document catch drops it. */
  function ActivityFromDocument(doc: ActivityDocument, completedIds: seq<string>): (r: Option<Activity>)
    ensures r.Some? <==> HasTitle(doc) && doc.wellTyped
    ensures r.Some? ==> r.value.id == doc.id && r.value.title == doc.title.value
    ensures r.Some? ==> (r.value.isCompleted <==> doc.id in completedIds)
    ensures r.Some? ==> r.value.xp == LongFieldAsInt(doc.xp)
    ensures r.Some? ==> (r.value.hasNotification <==> doc.hasNotification == Some(true))
    ensures r.Some? ==> r.value.iconRes == IconResource(if doc.iconName.Some? then doc.iconName.value else "")
    ensures r.Some? ==> r.value.imageRes == ImageResource(if doc.imageName.Some? then doc.imageName.value else "")
  {
    if !HasTitle(doc) || !doc.wellTyped then None
    else
      Some(Activity(
        id := doc.id,
        title := doc.title.value,
        iconRes := IconResource(if doc.iconName.Some? then doc.iconName.value else ""),
        imageRes := ImageResource(if doc.imageName.Some? then doc.imageName.value else ""),
        xp := LongFieldAsInt(doc.xp),
        hasNotification := if doc.hasNotification.Some? then doc.hasNotification.value else false,
        isCompleted := doc.id in completedIds))
  }

  /** The function `mapNotNull` applies to each activity document. */
  function CardOf(completedIds: seq<string>): ActivityDocument -> Option<Activity> {
    doc => ActivityFromDocument(doc, completedIds)
  }

  /** `documents.mapNotNull { ... }` over the active activities. */
  function ActivitiesFromDocuments(docs: seq<ActivityDocument>, completedIds: seq<string>): (r: seq<Activity>)
    ensures |r| <= |docs|
  {
    MapNotNull(docs, CardOf(completedIds))
  }

  /** The number of documents that are titled and readable at every field's type. */
  function CountReadable(docs: seq<ActivityDocument>): nat {
    if docs == [] then 0 else (if Readable(docs[0]) then 1 else 0) + CountReadable(docs[1..])
  }

  /** The mapping works document by document, so the order of the query is kept. */
  lemma ActivitiesFromDocumentsSplits(d1: seq<ActivityDocument>, d2: seq<ActivityDocument>, completedIds: seq<string>)
    ensures ActivitiesFromDocuments(d1 + d2, completedIds)
         == ActivitiesFromDocuments(d1, completedIds) + ActivitiesFromDocuments(d2, completedIds)
  {
    MapNotNullSplits(d1, d2, CardOf(completedIds));
  }

  /** Every card has a non-blank title and is completed exactly when its id was
      recorded as completed. */
  lemma CardsAreTitledAndMarked(docs: seq<ActivityDocument>, completedIds: seq<string>)
    ensures var r := ActivitiesFromDocuments(docs, completedIds);
      forall i :: 0 <= i < |r| ==> !IsBlank(r[i].title) && (r[i].isCompleted <==> r[i].id in completedIds)
  {
    var r := ActivitiesFromDocuments(docs, completedIds);
    forall i | 0 <= i < |r|
      ensures !IsBlank(r[i].title) && (r[i].isCompleted <==> r[i].id in completedIds)
    {
      MapNotNullFrom(docs, CardOf(completedIds), i);
      var j :| 0 <= j < |docs| && CardOf(completedIds)(docs[j]) == Some(r[i]);
      assert ActivityFromDocument(docs[j], completedIds) == Some(r[i]);
    }
  }

  /** Exactly the titled, well-typed documents become activities. */
  lemma {:induction false} ActivitiesAreTheReadable(docs: seq<ActivityDocument>, completedIds: seq<string>)
    ensures |ActivitiesFromDocuments(docs, completedIds)| == CountReadable(docs)
  {
    if docs != [] {
      ActivitiesAreTheReadable(docs[1..], completedIds);
      assert CardOf(completedIds)(docs[0]).Some? <==> Readable(docs[0]);
    }
  }

  /** A titled document with a mistyped field is skipped on its own: the documents
      around it still become cards, and the read as a whole does not fail. */
  lemma MistypedDocumentSkipped(before: seq<ActivityDocument>, bad: ActivityDocument,
                                after: seq<ActivityDocument>, completedIds: seq<string>)
    requires HasTitle(bad) && !bad.wellTyped
    ensures ActivitiesFromDocuments(before + [bad] + after, completedIds)
         == ActivitiesFromDocuments(before + after, completedIds)
  {
    ActivitiesFromDocumentsSplits(before + [bad], after, completedIds);
    ActivitiesFromDocumentsSplits(before, [bad], completedIds);
    ActivitiesFromDocumentsSplits(before, after, completedIds);
    assert ActivitiesFromDocuments([bad], completedIds) == [];
  }

  /** `getTodaysActivities`: today's completed ids (an empty list when that read
      threw), then the active activities. `completedRead` holds the `activityId` field
      of each completion document, `None` where it is absent. */
  function GetTodaysActivities(userId: Option<string>, completedRead: Result<seq<Option<string>>>,
                               activitiesRead: Result<seq<ActivityDocument>>): (r: Result<seq<Activity>>)
    ensures userId.None? ==> r == Failure(NotAuthenticated)
    ensures r.Success? <==> userId.Some? && activitiesRead.Success?
    ensures userId.Some? && activitiesRead.Failure? ==> r == Failure(activitiesRead.message)
    ensures r.Success? ==> r.value == ActivitiesFromDocuments(activitiesRead.value,
      if completedRead.Success? then PresentValues(completedRead.value) else [])
    ensures r.Success? && completedRead.Failure? ==> forall i :: 0 <= i < |r.value| ==> !r.value[i].isCompleted
  {
    if userId.None? then Failure(NotAuthenticated)
    else
      var completedIds := if completedRead.Success? then PresentValues(completedRead.value) else [];
      if activitiesRead.Failure? then Failure(activitiesRead.message)
      else
        CardsAreTitledAndMarked(activitiesRead.value, completedIds);
        Success(ActivitiesFromDocuments(activitiesRead.value, completedIds))
  }

  /** `mapNotNull { it }`: the present values, in order. */
  function PresentValues(xs: seq<Option<string>>): (r: seq<string>)
    ensures forall v :: v in r <==> Some(v) in xs
  {
    if xs == [] then [] else (if xs[0].Some? then [xs[0].value] else []) + PresentValues(xs[1..])
  }

  // ---------------------------------------------------------------------------
  // Today's date

  /** `getTodayDate`: "year-month-day" with the month counted from 1 and no padding.
      `month` is `Calendar.MONTH`, counted from 0. */
  function TodayDate(year: nat, month: nat, dayOfMonth: nat): (date: string)
    ensures Split(date, '-') == [NatToString(year), NatToString(month + 1), NatToString(dayOfMonth)]
  {
    var y, m, d := NatToString(year), NatToString(month + 1), NatToString(dayOfMonth);
    assert y + "-" + m + "-" + d == y + ['-'] + (m + ['-'] + d);
    SplitFirstField(y, '-', m + ['-'] + d);
    SplitFirstField(m, '-', d);
    SplitNoSeparator(d, '-');
    y + "-" + m + "-" + d
  }

  /** The date splits at '-' into three unpadded numbers: the year, the month counted
      from 1, and the day. */
  lemma TodayDateFields(year: nat, month: nat, dayOfMonth: nat)
    ensures var parts := Split(TodayDate(year, month, dayOfMonth), '-');
      && |parts| == 3
      && DigitsValue(parts[0]) == year && DigitsValue(parts[1]) == month + 1 && DigitsValue(parts[2]) == dayOfMonth
      && (forall k :: 0 <= k < 3 ==> parts[k][0] != '0' || |parts[k]| == 1)
  {
    NatToStringRoundTrip(year);
    NatToStringRoundTrip(month + 1);
    NatToStringRoundTrip(dayOfMonth);
  }
}
