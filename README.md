# LiveSustainably — a verified model of the view-models and their rules

LiveSustainably is an Android app that nudges its users towards a sustainable
everyday life. It has a home screen with a weekly streak and daily activities, a
news feed, a leaderboard, a chatbot, a friends map, a report screen, a profile,
and login and sign-up forms. Every screen is driven by a view-model that holds one
immutable state record and replaces it on each user action. This project models
those view-models and the pure rules around them in Dafny.

* **View-models.** Each view-model is a `class` whose `state` field holds a
  `datatype` copy of the screen state (`FeedState`, `HomeState`, `ChatbotState`,
  …). Each action is a `method` that `modifies this` and states the whole new
  state in terms of the old one.
  * The answer of a backend, an asset read or a JSON parse is a parameter (`Result`,
    `LoadResult`, `AuthResult`).
  * So are the clock, the calendar day and the random roll.
  * The state shown while a coroutine is suspended (loading, typing, waiting for the
    authentication service) is returned as a ghost out-parameter.
* **Pure rules.** The list transformations are functions with their own
  contracts, and lemmas tie them to a partner:
  * liking, showing comments, commenting and following are each their own inverse,
    or leave every other item alone;
  * the ordered validation chains of the login and sign-up forms;
  * the weekly streak table and the streak transaction of the home repository;
  * the mapping of Firestore documents and JSON records to screen records;
  * the keyword matching of the chatbot;
  * the layout rules of the home grid and the leaderboard.
* **Source wins.** Where the documentation of the app and its code disagree, the
  code is followed:
  * a like count can go below zero;
  * a blank comment can be added through the view-model;
  * the streak's `currentStreak` counts the distinct days ever recorded, and a day is
    never removed;
  * the leaderboard defaults (`"Determined Seed"`, streak 15, roses 3, four locked
    leagues) are those of `LeaderboardView.kt`, not those its unit test expects.

Modules: `Wrappers` (Option/Result), `Text` (the Kotlin string functions used:
blank, trim, ASCII lowercase, contains, decimal rendering, split), `Feed`,
`Leaderboard`, `HomeModel`, `HomeRepository`, `HomeViewModel`, `HomeView`, `Chatbot`,
`AuthRepository`, `Auth`, `SignUp`, `Profile`, `Report`, `FriendsMap`.

## Model

| member | source | states |
|---|---|---|
| Wrappers.MapNotNull | app/src/main/java/com/superhuman/livesustainably/home/data/HomeRepository.kt:119 | Kotlin's `mapNotNull` never yields more elements than it is given |
| Wrappers.MapNotNullSplits | app/src/main/java/com/superhuman/livesustainably/home/data/HomeRepository.kt:119 | `mapNotNull` distributes over concatenation |
| Wrappers.MapNotNullFrom | app/src/main/java/com/superhuman/livesustainably/home/data/HomeRepository.kt:119 | every element `mapNotNull` keeps is the non-null image of some input element |
| Wrappers.MessageOr | app/src/main/java/com/superhuman/livesustainably/map/MapViewModel.kt:78-85 | an exception message when there is one, the fixed fallback otherwise |
| Text.TrimStart | app/src/main/java/com/superhuman/livesustainably/chatbot/ChatbotViewModel.kt:102 | the result is a suffix of the input, starts with a non-blank character, and only whitespace was dropped |
| Text.TrimEnd | app/src/main/java/com/superhuman/livesustainably/chatbot/ChatbotViewModel.kt:102 | the result is a prefix of the input, ends with a non-blank character, and only whitespace was dropped |
| Text.IsBlank | app/src/main/java/com/superhuman/livesustainably/auth/AuthViewModel.kt:58 | `isBlank()` holds exactly when dropping the leading whitespace leaves nothing |
| Text.Utf16Length | app/src/main/java/com/superhuman/livesustainably/auth/AuthViewModel.kt:75 | `length` counts UTF-16 code units: between one and two per character, and exactly one per character iff none lies outside the Basic Multilingual Plane |
| Text.Trim | app/src/main/java/com/superhuman/livesustainably/chatbot/ChatbotViewModel.kt:102-103 | `trim()` is empty exactly when the input is blank; a non-empty result has non-whitespace at both ends and occurs inside the input |
| Text.LowerChar | app/src/main/java/com/superhuman/livesustainably/chatbot/ChatbotViewModel.kt:122 | the result is never upper case; an upper-case letter moves 32 code points, anything else is kept |
| Text.Lower | app/src/main/java/com/superhuman/livesustainably/feed/FeedView.kt:520 | same length, each character lowered pointwise |
| Text.LowerIdempotent | app/src/main/java/com/superhuman/livesustainably/feed/FeedView.kt:520 | lowering twice is lowering once |
| Text.Contains | app/src/main/java/com/superhuman/livesustainably/chatbot/ChatbotViewModel.kt:144 | the empty keyword is contained in every input, and a contained keyword is never longer than the input |
| Text.ContainsIffOccurs | app/src/main/java/com/superhuman/livesustainably/chatbot/ChatbotViewModel.kt:144 | `contains` holds exactly when the keyword occurs at some index |
| Text.UpperNeverContainedInLower | app/src/main/java/com/superhuman/livesustainably/chatbot/ChatbotViewModel.kt:122-144 | a keyword with an upper-case letter is never contained in a lowered input |
| Text.DigitChar | app/src/main/java/com/superhuman/livesustainably/home/data/HomeRepository.kt:222-224 | a decimal digit character whose value is the digit |
| Text.NatToString | app/src/main/java/com/superhuman/livesustainably/home/data/HomeRepository.kt:222-224 | a non-empty string of digits without sign, with no leading zero unless the number is 0 |
| Text.NatToStringRoundTrip | app/src/main/java/com/superhuman/livesustainably/home/data/HomeRepository.kt:222-224 | reading the rendered digits back gives the number |
| Feed.CategoryColor | app/src/main/java/com/superhuman/livesustainably/feed/FeedView.kt:519-528 | the five category colours chosen on the lowered name, grey for any other name |
| Feed.CategoryColorIgnoresCase | app/src/main/java/com/superhuman/livesustainably/feed/FeedView.kt:519-528 | the colour does not depend on letter case |
| Feed.CategoryColorCapitalised | app/src/main/java/com/superhuman/livesustainably/feed/FeedView.kt:519-528 | "Wildlife" as stored in the feed data gets the wildlife pink |
| Feed.LikeToggled | app/src/main/java/com/superhuman/livesustainably/feed/FeedViewModel.kt:44-49 | the like flag flips, the count moves one step in its direction, the likes of others and every other field are kept |
| Feed.WithLikeToggled | app/src/main/java/com/superhuman/livesustainably/feed/FeedViewModel.kt:40-55 | same length and ids; items with the id are like-toggled, all others unchanged |
| Feed.ToggleLikeTwice | app/src/test/java/com/superhuman/livesustainably/feed/FeedViewModelTest.kt:83-130 | toggling a like twice restores the feed |
| Feed.LikeCountCanGoNegative | app/src/main/java/com/superhuman/livesustainably/feed/FeedViewModel.kt:47 | unliking a liked item with count 0 gives -1: there is no floor |
| Feed.WithCommentSectionToggled | app/src/main/java/com/superhuman/livesustainably/feed/FeedViewModel.kt:57-69 | only items with the id change, and only their comment-section flag flips |
| Feed.ToggleCommentSectionTwice | app/src/main/java/com/superhuman/livesustainably/feed/FeedViewModel.kt:57-69 | toggling the comment section twice restores the feed |
| Feed.WithCommentAdded | app/src/main/java/com/superhuman/livesustainably/feed/FeedViewModel.kt:71-91 | items with the id get a new comment by "You", "Just now" appended, carrying the id drawn for that item; all others unchanged |
| Feed.SharedIdGetsDistinctComments | app/src/main/java/com/superhuman/livesustainably/feed/FeedViewModel.kt:71-91 | two posts sharing an id each get their own comment, with different ids when the drawn ids differ |
| Feed.AddCommentUnknownId | app/src/test/java/com/superhuman/livesustainably/feed/FeedViewModelTest.kt:188-206 | commenting on an id no item has changes nothing |
| Feed.AddCommentAcceptsBlank | app/src/main/java/com/superhuman/livesustainably/feed/FeedViewModel.kt:71-91 | the view-model itself accepts an empty comment |
| Feed.FeedViewModel.constructor | app/src/main/java/com/superhuman/livesustainably/feed/FeedView.kt:552-555 | an empty, not loading feed |
| Feed.FeedViewModel.ToggleLike | app/src/main/java/com/superhuman/livesustainably/feed/FeedViewModel.kt:40-55 | the new state is the old one with the feed like-toggled |
| Feed.FeedViewModel.ToggleCommentSection | app/src/main/java/com/superhuman/livesustainably/feed/FeedViewModel.kt:57-69 | the new state is the old one with the section toggled |
| Feed.FeedViewModel.AddComment | app/src/main/java/com/superhuman/livesustainably/feed/FeedViewModel.kt:71-91 | the new state is the old one with the comment added, one fresh id per feed item |
| Feed.CommentBox.constructor | app/src/main/java/com/superhuman/livesustainably/feed/FeedView.kt:229 | the comment field starts empty |
| Feed.CommentBox.OnTextChanged | app/src/main/java/com/superhuman/livesustainably/feed/FeedView.kt:433 | the field holds the typed text |
| Feed.CommentBox.OnSendClick | app/src/main/java/com/superhuman/livesustainably/feed/FeedView.kt:447-453 | a blank text is not submitted and stays; any other text is submitted and the field cleared |
| Feed.SubmitThroughBox | app/src/main/java/com/superhuman/livesustainably/feed/FeedView.kt:447-453 | through the screen, a comment reaches the feed exactly when it is not blank, and the field is then cleared |
| Leaderboard.PlayerFromJson | app/src/main/java/com/superhuman/livesustainably/leaderboard/LeaderboardViewModel.kt:64-75 | every field of the JSON record is copied to the screen record |
| Leaderboard.PlayerMappingIsBijective | app/src/main/java/com/superhuman/livesustainably/leaderboard/LeaderboardViewModel.kt:64-75 | the mapping loses nothing: it has an inverse on both sides |
| Leaderboard.PlayersFromJson | app/src/main/java/com/superhuman/livesustainably/leaderboard/LeaderboardViewModel.kt:64-75 | the list is mapped element by element, order and length kept |
| Leaderboard.WithFollowToggled | app/src/main/java/com/superhuman/livesustainably/leaderboard/LeaderboardViewModel.kt:98-110 | players with the id flip their follow flag; all others unchanged |
| Leaderboard.ToggleFollowTwice | app/src/main/java/com/superhuman/livesustainably/leaderboard/LeaderboardViewModel.kt:98-110 | following twice restores the list |
| Leaderboard.FollowedAfterToggle | app/src/main/java/com/superhuman/livesustainably/leaderboard/LeaderboardViewModel.kt:98-110 | after a toggle a player is followed iff it was followed xor it has the id |
| Leaderboard.LeaderboardViewModel.constructor | app/src/main/java/com/superhuman/livesustainably/leaderboard/LeaderboardView.kt:647-658 | the screen defaults: "Determined Seed", streak 15, roses 3, four locked leagues, no players |
| Leaderboard.LeaderboardViewModel.LoadLeaderboardData | app/src/main/java/com/superhuman/livesustainably/leaderboard/LeaderboardViewModel.kt:77-94 | a parsed file sets the league fields and players; a failure empties the players and keeps the league; loading ends either way |
| Leaderboard.LeaderboardViewModel.ToggleFollow | app/src/main/java/com/superhuman/livesustainably/leaderboard/LeaderboardViewModel.kt:98-110 | the new state is the old one with the follow toggled |
| Leaderboard.IsTopThree | app/src/main/java/com/superhuman/livesustainably/leaderboard/LeaderboardView.kt:161 | positions 1 to 3 are top three and positions above 3 are not; every non-positive position also counts as top three |
| Leaderboard.RankBadgeOf | app/src/main/java/com/superhuman/livesustainably/leaderboard/LeaderboardView.kt:517-534 | gold, silver and bronze exactly for positions 1, 2, 3; every other position shows its number |
| Leaderboard.CardShapeOf | app/src/main/java/com/superhuman/livesustainably/leaderboard/LeaderboardView.kt:148-153 | all corners for a single row, top corners for the first, bottom for the last, none in between, each iff |
| Leaderboard.DividerRows | app/src/main/java/com/superhuman/livesustainably/leaderboard/LeaderboardView.kt:165-170 | a divider under every row but the last, so n-1 dividers for n rows |
| Leaderboard.LockedLeagueIcons | app/src/main/java/com/superhuman/livesustainably/leaderboard/LeaderboardView.kt:339 | at most the cap (3 compact, 4 otherwise), at most the count, either the count or the cap, and none for a negative count |
| HomeModel.WeekDaysDistinct | app/src/main/java/com/superhuman/livesustainably/home/data/HomeRepository.kt:80 | the week table has seven distinct day names |
| HomeModel.CurrentDayName | app/src/main/java/com/superhuman/livesustainably/home/data/HomeRepository.kt:206-218 | Sunday-first calendar numbers map to the Monday-first names; anything else is "Mon" |
| HomeModel.CurrentDayNameIsBijective | app/src/main/java/com/superhuman/livesustainably/home/data/HomeRepository.kt:206-218 | each day name comes from exactly one calendar number |
| HomeModel.FirstIncomplete | app/src/main/java/com/superhuman/livesustainably/home/HomeViewModel.kt:159-166 | none iff every activity is completed; otherwise the first activity not completed |
| HomeRepository.ToInt32 | app/src/main/java/com/superhuman/livesustainably/home/data/HomeRepository.kt:49-52 | `Long.toInt()`: a 32-bit value congruent to the input modulo 2^32, the input itself when it fits |
| HomeRepository.LongFieldAsInt | app/src/main/java/com/superhuman/livesustainably/home/data/HomeRepository.kt:49-52 | a missing field reads as 0, a present one truncated to 32 bits |
| HomeRepository.GetUserStats | app/src/main/java/com/superhuman/livesustainably/home/data/HomeRepository.kt:35-59 | signed out, a failed read and a missing document each fail with their message; otherwise the four counters |
| HomeRepository.MarkDays | app/src/main/java/com/superhuman/livesustainably/home/data/HomeRepository.kt:80-87 | each day is active iff recorded and current iff it is today |
| HomeRepository.WeekTable | app/src/main/java/com/superhuman/livesustainably/home/data/HomeRepository.kt:80-87 | seven slots Mon..Sun, each active iff recorded and current iff it is today |
| HomeRepository.ExactlyOneCurrentDay | app/src/main/java/com/superhuman/livesustainably/home/data/HomeRepository.kt:80-87 | for a valid day name, exactly one slot is current |
| HomeRepository.WeekTableForCalendarDay | app/src/main/java/com/superhuman/livesustainably/home/data/HomeRepository.kt:61-93 | whatever the calendar returns, the table marks exactly the named day as current |
| HomeRepository.GetWeeklyStreak | app/src/main/java/com/superhuman/livesustainably/home/data/HomeRepository.kt:61-93 | signed out or a failed read fail; a missing document or field gives a table with no active day |
| HomeRepository.DistinctCount | app/src/main/java/com/superhuman/livesustainably/home/data/HomeRepository.kt:156-162 | a list without duplicates has as many distinct days as elements |
| HomeRepository.StreakTransaction | app/src/main/java/com/superhuman/livesustainably/home/data/HomeRepository.kt:154-163 | a new day is appended with the streak set to the list size; a day already recorded writes nothing; a duplicate-free list (an absent one included) stays duplicate-free and the streak equals the distinct days |
| HomeRepository.RecordSameDayTwice | app/src/main/java/com/superhuman/livesustainably/home/data/HomeRepository.kt:154-163 | recording the same day twice writes at most once and never removes a day |
| HomeRepository.RecordedDayIsActiveAndCurrent | app/src/main/java/com/superhuman/livesustainably/home/data/HomeRepository.kt:61-93 | after recording today, today's slot is both active and current |
| HomeRepository.MarkActivityCompleted | app/src/main/java/com/superhuman/livesustainably/home/data/HomeRepository.kt:171-203 | signed out or a blank id fails before any write; a successful add writes the record (id, date, time) and succeeds |
| HomeRepository.StreakFailureIsIgnored | app/src/main/java/com/superhuman/livesustainably/home/data/HomeRepository.kt:193-199 | the result does not depend on the streak update |
| HomeRepository.IconResource | app/src/main/java/com/superhuman/livesustainably/home/data/HomeRepository.kt:227-236 | the four known icons, and the fallback iff the name is unknown |
| HomeRepository.ImageResource | app/src/main/java/com/superhuman/livesustainably/home/data/HomeRepository.kt:238-247 | the four known images, and the app icon iff the name is unknown |
| HomeRepository.ActivityFromDocument | app/src/main/java/com/superhuman/livesustainably/home/data/HomeRepository.kt:119-136 | a card iff the title is present and non-blank and no field read throws (the per-document catch drops it); the card has the document's fields and is completed iff its id is in the completed list |
| HomeRepository.ActivitiesFromDocuments | app/src/main/java/com/superhuman/livesustainably/home/data/HomeRepository.kt:119-136 | no more activities than documents |
| HomeRepository.ActivitiesFromDocumentsSplits | app/src/main/java/com/superhuman/livesustainably/home/data/HomeRepository.kt:119-136 | the mapping distributes over concatenation, so the order of the query is kept |
| HomeRepository.CardsAreTitledAndMarked | app/src/main/java/com/superhuman/livesustainably/home/data/HomeRepository.kt:119-136 | every card has a non-blank title and is completed exactly when its id was recorded as completed |
| HomeRepository.ActivitiesAreTheReadable | app/src/main/java/com/superhuman/livesustainably/home/data/HomeRepository.kt:119-136 | the number of cards is exactly the number of documents with a non-blank title whose fields all read at their types |
| HomeRepository.MistypedDocumentSkipped | app/src/main/java/com/superhuman/livesustainably/home/data/HomeRepository.kt:119-136 | a titled document with a mistyped field is dropped on its own: the other documents still become cards and the read does not fail |
| HomeRepository.GetTodaysActivities | app/src/main/java/com/superhuman/livesustainably/home/data/HomeRepository.kt:95-142 | signed out or a failed activities read fail; a success is the titled documents mapped against the non-null completed ids, or against none when that read failed, so nothing is then completed |
| HomeRepository.PresentValues | app/src/main/java/com/superhuman/livesustainably/home/data/HomeRepository.kt:100-111 | the ids kept are exactly the non-null ones |
| HomeRepository.TodayDate | app/src/main/java/com/superhuman/livesustainably/home/data/HomeRepository.kt:220-225 | the date splits at '-' into exactly the decimal year, month counted from 1, and day |
| HomeRepository.TodayDateFields | app/src/main/java/com/superhuman/livesustainably/home/data/HomeRepository.kt:220-225 | the three fields are unpadded and read back as year, month+1 and day |
| HomeViewModel.DefaultWeekIsEmptyTuesday | app/src/main/java/com/superhuman/livesustainably/home/HomeViewModel.kt:27-37 | the default week is the table with no active day and Tuesday current |
| HomeViewModel.DefaultActivitiesAllIncomplete | app/src/main/java/com/superhuman/livesustainably/home/HomeViewModel.kt:39-78 | no default activity is completed, so START targets the first |
| HomeViewModel.LoadOutcome | app/src/main/java/com/superhuman/livesustainably/home/HomeViewModel.kt:109-148 | loading ends; stats, streak and activity failures are reported in that order, leaving all data as it was; success installs all three and the day |
| HomeViewModel.LoadedWeekMarksCurrentDay | app/src/main/java/com/superhuman/livesustainably/home/HomeViewModel.kt:126-137 | after a successful load the week marks the calendar day current |
| HomeViewModel.FailedReloadKeepsData | app/src/main/java/com/superhuman/livesustainably/home/HomeViewModel.kt:138-146 | a failed reload shows an error and keeps the previous stats, week and activities |
| HomeViewModel.HomeViewModel.constructor | app/src/main/java/com/superhuman/livesustainably/home/HomeViewModel.kt:15-25 | the default state: loading, Tuesday, no error |
| HomeViewModel.HomeViewModel.LoadHomeData | app/src/main/java/com/superhuman/livesustainably/home/HomeViewModel.kt:109-148 | loading is raised and the error cleared, then the three answers merged |
| HomeViewModel.HomeViewModel.OnActivityClick | app/src/main/java/com/superhuman/livesustainably/home/HomeViewModel.kt:150-157 | the id is handed to markActivityCompleted, whose completion is returned and ignored: signed in, with a non-blank id and a successful write, that id is recorded for today; the screen then reloads whatever the outcome |
| HomeViewModel.HomeViewModel.OnStartStreakClick | app/src/main/java/com/superhuman/livesustainably/home/HomeViewModel.kt:159-166 | nothing when all activities are completed; otherwise the first incomplete one is clicked, with markActivityCompleted's completion for that id |
| HomeViewModel.HomeViewModel.OnLogoutRequested | app/src/main/java/com/superhuman/livesustainably/home/HomeViewModel.kt:172-174 | the dialog is shown |
| HomeViewModel.HomeViewModel.DismissLogoutDialog | app/src/main/java/com/superhuman/livesustainably/home/HomeViewModel.kt:176-178 | the dialog is hidden |
| HomeViewModel.HomeViewModel.OnLogout | app/src/main/java/com/superhuman/livesustainably/home/HomeViewModel.kt:180-183 | the dialog is hidden and the user signed out |
| HomeViewModel.StartClicksFirstIncomplete | app/src/main/java/com/superhuman/livesustainably/home/HomeViewModel.kt:159-166 | START clicks nothing iff everything is completed, else the first incomplete activity |
| HomeView.RouteFor | app/src/main/java/com/superhuman/livesustainably/home/HomeView.kt:514-519 | "stories" leads to the feed, "mobility" to the map, every other id to its activity, each iff |
| HomeView.StartTarget | app/src/main/java/com/superhuman/livesustainably/home/HomeView.kt:125-136 | no route iff every activity is completed; otherwise the route of the first incomplete one |
| HomeView.StartMatchesCardClick | app/src/main/java/com/superhuman/livesustainably/home/HomeView.kt:125-136 | START goes where a click on the first incomplete card goes |
| HomeView.Chunked | app/src/main/java/com/superhuman/livesustainably/home/HomeView.kt:505 | (n+1)/2 rows of two, the last holding one card when n is odd |
| HomeView.ChunkedFlattens | app/src/main/java/com/superhuman/livesustainably/home/HomeView.kt:505 | read row by row, the grid is the activity list |
| HomeView.FillerOnlyInLastRow | app/src/main/java/com/superhuman/livesustainably/home/HomeView.kt:524-526 | a filler appears iff the row is the last and the count is odd |
| HomeView.StreakCircleColor | app/src/main/java/com/superhuman/livesustainably/home/HomeView.kt:448-452 | current before active before inactive; the active green iff active and not current |
| HomeView.StreakLabelColor | app/src/main/java/com/superhuman/livesustainably/home/HomeView.kt:441 | the label is blue iff the day is current |
| HomeView.TodayStaysCurrentColored | app/src/main/java/com/superhuman/livesustainably/home/HomeView.kt:448-452 | recording today never turns today's circle green |
| Chatbot.FirstMatch | app/src/main/java/com/superhuman/livesustainably/chatbot/ChatbotViewModel.kt:142-148 | the first category having a keyword in the input, none iff no category matches |
| Chatbot.ReplyPool | app/src/main/java/com/superhuman/livesustainably/chatbot/ChatbotViewModel.kt:139-155 | no data gives the trouble reply; a match gives that category's responses; otherwise encouragement when the roll is above 0.7, else fallback |
| Chatbot.RandomElement | app/src/main/java/com/superhuman/livesustainably/chatbot/ChatbotViewModel.kt:150-154 | some element of the list, none iff the list is empty |
| Chatbot.GenerateResponse | app/src/main/java/com/superhuman/livesustainably/chatbot/ChatbotViewModel.kt:139-155 | the loops return an element of the pool, none iff the pool is empty |
| Chatbot.UpperCaseCategoryNeverChosen | app/src/main/java/com/superhuman/livesustainably/chatbot/ChatbotViewModel.kt:122-148 | a category whose every keyword has a capital letter never answers |
| Chatbot.EmptyKeywordShadowsLaterCategories | app/src/main/java/com/superhuman/livesustainably/chatbot/ChatbotViewModel.kt:142-148 | an empty keyword matches every input, so later categories never answer |
| Chatbot.GreetingPool | app/src/main/java/com/superhuman/livesustainably/chatbot/ChatbotViewModel.kt:71-72 | the loaded greetings, or the default greeting when there are none |
| Chatbot.MessageId | app/src/main/java/com/superhuman/livesustainably/chatbot/ChatbotViewModel.kt:106 | the kind, an underscore, then the clock in digits |
| Chatbot.ChatbotViewModel.constructor | app/src/main/java/com/superhuman/livesustainably/chatbot/ChatbotViewModel.kt:37-43 | no messages, loading, no data |
| Chatbot.ChatbotViewModel.LoadChatbotData | app/src/main/java/com/superhuman/livesustainably/chatbot/ChatbotViewModel.kt:59-95 | the data is kept and a greeting from its pool (or the default) posted; a failure only shows the exception message or the fixed fallback; loading ends |
| Chatbot.ChatbotViewModel.UpdateInput | app/src/main/java/com/superhuman/livesustainably/chatbot/ChatbotViewModel.kt:97-99 | the input field holds the text |
| Chatbot.ChatbotViewModel.SendMessage | app/src/main/java/com/superhuman/livesustainably/chatbot/ChatbotViewModel.kt:101-137 | a blank input does nothing; otherwise the trimmed text is posted and the input cleared while typing, then a reply from the pool of the lowered text is posted |
| Chatbot.ChatbotViewModel.ClearChat | app/src/main/java/com/superhuman/livesustainably/chatbot/ChatbotViewModel.kt:157-172 | the conversation becomes a single greeting |
| Chatbot.SendAndReply | app/src/main/java/com/superhuman/livesustainably/chatbot/ChatbotViewModel.kt:101-137 | a blank input changes nothing; a reply follows the user's message |
| Auth.LoginValidation | app/src/main/java/com/superhuman/livesustainably/auth/AuthViewModel.kt:57-78 | the four checks in order: blank e-mail, bad format, blank password, fewer than six UTF-16 units; none iff all pass |
| Auth.EmailCheckedFirst | app/src/main/java/com/superhuman/livesustainably/auth/AuthViewModel.kt:57-78 | a bad e-mail hides any password problem |
| Auth.BlankLongPasswordRefused | app/src/test/java/com/superhuman/livesustainably/auth/AuthViewModelTest.kt:49-95 | six spaces are refused as an empty password |
| Auth.SurrogatePairCountsTwice | app/src/main/java/com/superhuman/livesustainably/auth/AuthViewModel.kt:75 | four letters and an emoji are five characters but six UTF-16 units, and pass the length check |
| Auth.WithFieldError | app/src/main/java/com/superhuman/livesustainably/auth/AuthViewModel.kt:57-78 | the message lands in its field and nothing else changes |
| Auth.AuthViewModel.constructor | app/src/main/java/com/superhuman/livesustainably/auth/AuthViewModel.kt:15-26 | an empty form with the password field shown |
| Auth.AuthViewModel.OnEmailChanged | app/src/main/java/com/superhuman/livesustainably/auth/AuthViewModel.kt:36-38 | the e-mail is set and its error cleared |
| Auth.AuthViewModel.OnPasswordChanged | app/src/main/java/com/superhuman/livesustainably/auth/AuthViewModel.kt:40-42 | the password is set and its error cleared |
| Auth.AuthViewModel.OnTogglePasswordVisibility | app/src/main/java/com/superhuman/livesustainably/auth/AuthViewModel.kt:44-46 | visibility flips |
| Auth.AuthViewModel.OnLoginError | app/src/main/java/com/superhuman/livesustainably/auth/AuthViewModel.kt:48-50 | the error event is raised |
| Auth.AuthViewModel.OnEmailLoginClicked | app/src/main/java/com/superhuman/livesustainably/auth/AuthViewModel.kt:52-99 | a failed check writes its message and calls nothing; otherwise the credentials are sent while loading, and the answer raises the error or the navigate-home event |
| Auth.AuthViewModel.OnGoogleIdTokenReceived | app/src/main/java/com/superhuman/livesustainably/auth/AuthViewModel.kt:101-115 | an error raises the error event; a success only ends loading |
| Auth.AuthViewModel.OnNavigateToSignUpHandled | app/src/main/java/com/superhuman/livesustainably/auth/AuthViewModel.kt:117-119 | the event is consumed |
| Auth.ToggleVisibilityTwice | app/src/main/java/com/superhuman/livesustainably/auth/AuthViewModel.kt:44-46 | toggling twice restores the form |
| Auth.RejectedLoginChangesOneError | app/src/main/java/com/superhuman/livesustainably/auth/AuthViewModel.kt:57-78 | a rejected login calls nothing and changes only one error field |
| SignUp.SignUpValidation | app/src/main/java/com/superhuman/livesustainably/auth/SignUpViewModel.kt:49-57 | blank e-mail, then a password under six UTF-16 units; none iff both pass |
| SignUp.SignUpWeakerThanLogin | app/src/test/java/com/superhuman/livesustainably/auth/SignUpViewModelTest.kt:61-143 | whatever login accepts sign-up accepts; six spaces pass sign-up but not login |
| SignUp.WithFieldError | app/src/main/java/com/superhuman/livesustainably/auth/SignUpViewModel.kt:49-57 | the message lands in its field and nothing else changes |
| SignUp.AfterAuthResult | app/src/main/java/com/superhuman/livesustainably/auth/SignUpViewModel.kt:59-76 | loading ends; an error raises the error event, a success the back-to-login event |
| SignUp.SignUpViewModel.constructor | app/src/main/java/com/superhuman/livesustainably/auth/SignUpViewModel.kt:15-24 | an empty, idle form |
| SignUp.SignUpViewModel.OnEmailChanged | app/src/main/java/com/superhuman/livesustainably/auth/SignUpViewModel.kt:34-36 | the e-mail is set and its error cleared |
| SignUp.SignUpViewModel.OnPasswordChanged | app/src/main/java/com/superhuman/livesustainably/auth/SignUpViewModel.kt:38-40 | the password is set and its error cleared |
| SignUp.SignUpViewModel.OnTogglePasswordVisibility | app/src/main/java/com/superhuman/livesustainably/auth/SignUpViewModel.kt:42-44 | visibility flips |
| SignUp.SignUpViewModel.OnSignUpClicked | app/src/main/java/com/superhuman/livesustainably/auth/SignUpViewModel.kt:46-77 | a failed check writes its message; otherwise the credentials are sent while loading and the answer handled |
| SignUp.SignUpViewModel.OnGoogleIdTokenReceived | app/src/main/java/com/superhuman/livesustainably/auth/SignUpViewModel.kt:79-98 | loading, then the answer handled as for sign-up |
| SignUp.SignUpViewModel.OnSignUpError | app/src/main/java/com/superhuman/livesustainably/auth/SignUpViewModel.kt:100-102 | the error event is raised |
| SignUp.SignUpViewModel.OnNavigateBackHandled | app/src/main/java/com/superhuman/livesustainably/auth/SignUpViewModel.kt:104-106 | the event is consumed |
| SignUp.ToggleVisibilityTwice | app/src/main/java/com/superhuman/livesustainably/auth/SignUpViewModel.kt:42-44 | toggling twice restores the form |
| Profile.EditableFields | app/src/main/java/com/superhuman/livesustainably/profile/ProfileViewModel.kt:149-159 | the four editable fields of the user, or four empty strings |
| Profile.EditingStarted | app/src/main/java/com/superhuman/livesustainably/profile/ProfileViewModel.kt:149-159 | editing on, the fields copied from the user, nothing else changed |
| Profile.SavedUser | app/src/main/java/com/superhuman/livesustainably/profile/ProfileViewModel.kt:165-183 | the four typed values replace the user's, every other field kept |
| Profile.SaveUneditedIsIdentity | app/src/main/java/com/superhuman/livesustainably/profile/ProfileViewModel.kt:149-183 | saving right after starting to edit leaves the user as it was |
| Profile.SaveKeepsTypedValues | app/src/main/java/com/superhuman/livesustainably/profile/ProfileViewModel.kt:165-199 | what was typed is what is saved |
| Profile.NotificationNamesCoverFlags | app/src/main/java/com/superhuman/livesustainably/profile/ProfileViewModel.kt:201-217 | exactly the five names address a switch, and the five switches determine the record |
| Profile.WithNotificationToggled | app/src/main/java/com/superhuman/livesustainably/profile/ProfileViewModel.kt:201-217 | the named switch flips, every other is kept, an unknown name changes nothing |
| Profile.NotificationToggleTwice | app/src/main/java/com/superhuman/livesustainably/profile/ProfileViewModel.kt:201-217 | flipping twice restores the preferences |
| Profile.PrivacyNamesCoverFlags | app/src/main/java/com/superhuman/livesustainably/profile/ProfileViewModel.kt:219-234 | exactly the four names address a switch, and the four switches determine the record |
| Profile.WithPrivacyToggled | app/src/main/java/com/superhuman/livesustainably/profile/ProfileViewModel.kt:219-234 | the named switch flips, every other is kept, an unknown name changes nothing |
| Profile.PrivacyToggleTwice | app/src/main/java/com/superhuman/livesustainably/profile/ProfileViewModel.kt:219-234 | flipping twice restores the preferences |
| Profile.ProfileViewModel.constructor | app/src/main/java/com/superhuman/livesustainably/profile/ProfileViewModel.kt:87-99 | no user, no preferences, loading, not editing |
| Profile.ProfileViewModel.LoadProfileData | app/src/main/java/com/superhuman/livesustainably/profile/ProfileViewModel.kt:114-147 | user and preferences installed, or the error shown, loading ended |
| Profile.ProfileViewModel.StartEditing | app/src/main/java/com/superhuman/livesustainably/profile/ProfileViewModel.kt:149-159 | the state becomes the editing state of the old one |
| Profile.ProfileViewModel.CancelEditing | app/src/main/java/com/superhuman/livesustainably/profile/ProfileViewModel.kt:161-163 | editing ends and nothing else changes |
| Profile.ProfileViewModel.SaveProfile | app/src/main/java/com/superhuman/livesustainably/profile/ProfileViewModel.kt:165-183 | without a user nothing happens; otherwise the user is saved and editing ends |
| Profile.ProfileViewModel.UpdateEditFirstName | app/src/main/java/com/superhuman/livesustainably/profile/ProfileViewModel.kt:185-187 | the field is set |
| Profile.ProfileViewModel.UpdateEditLastName | app/src/main/java/com/superhuman/livesustainably/profile/ProfileViewModel.kt:189-191 | the field is set |
| Profile.ProfileViewModel.UpdateEditBio | app/src/main/java/com/superhuman/livesustainably/profile/ProfileViewModel.kt:193-195 | the field is set |
| Profile.ProfileViewModel.UpdateEditLocation | app/src/main/java/com/superhuman/livesustainably/profile/ProfileViewModel.kt:197-199 | the field is set |
| Profile.ProfileViewModel.ToggleNotificationPreference | app/src/main/java/com/superhuman/livesustainably/profile/ProfileViewModel.kt:201-217 | without preferences nothing; otherwise the switch flipped |
| Profile.ProfileViewModel.TogglePrivacyPreference | app/src/main/java/com/superhuman/livesustainably/profile/ProfileViewModel.kt:219-234 | without preferences nothing; otherwise the switch flipped |
| Profile.ProfileViewModel.ToggleDarkMode | app/src/main/java/com/superhuman/livesustainably/profile/ProfileViewModel.kt:236-242 | without preferences nothing; otherwise dark mode flipped |
| Profile.ProfileViewModel.ShowLogoutDialog | app/src/main/java/com/superhuman/livesustainably/profile/ProfileViewModel.kt:244-246 | the dialog is shown |
| Profile.ProfileViewModel.DismissLogoutDialog | app/src/main/java/com/superhuman/livesustainably/profile/ProfileViewModel.kt:248-250 | the dialog is hidden |
| Profile.ProfileViewModel.Logout | app/src/main/java/com/superhuman/livesustainably/profile/ProfileViewModel.kt:252-257 | the dialog is hidden and the user signed out |
| Profile.EditThenCancel | app/src/main/java/com/superhuman/livesustainably/profile/ProfileViewModel.kt:149-163 | starting and cancelling an edit keeps the user |
| Profile.EditThenSave | app/src/main/java/com/superhuman/livesustainably/profile/ProfileViewModel.kt:149-183 | starting and saving an edit keeps the user |
| Profile.NotificationSwitchTwice | app/src/main/java/com/superhuman/livesustainably/profile/ProfileViewModel.kt:201-217 | flipping a notification switch twice restores the state |
| Profile.PrivacySwitchTwice | app/src/main/java/com/superhuman/livesustainably/profile/ProfileViewModel.kt:219-234 | flipping a privacy switch twice restores the state |
| Profile.DarkModeTwice | app/src/main/java/com/superhuman/livesustainably/profile/ProfileViewModel.kt:236-242 | flipping dark mode twice restores the state |
| Report.CurrentStats | app/src/main/java/com/superhuman/livesustainably/report/ReportViewModel.kt:112-117 | the weekly or the monthly figures, following the selected period |
| Report.CurrentStatsFollowsPeriod | app/src/main/java/com/superhuman/livesustainably/report/ReportViewModel.kt:92-117 | nothing before loading; after loading, the figures of the selected period |
| Report.ReportViewModel.constructor | app/src/main/java/com/superhuman/livesustainably/report/ReportViewModel.kt:58-66 | weekly, no figures, loading |
| Report.ReportViewModel.LoadReportData | app/src/main/java/com/superhuman/livesustainably/report/ReportViewModel.kt:80-106 | the figures installed, or only loading ended on failure |
| Report.ReportViewModel.SelectPeriod | app/src/main/java/com/superhuman/livesustainably/report/ReportViewModel.kt:108-110 | the period is set and the current figures follow it |
| FriendsMap.MapViewModel.constructor | app/src/main/java/com/superhuman/livesustainably/map/MapViewModel.kt:39-45 | no friends, no selection, loading, the default location in London |
| FriendsMap.MapViewModel.LoadFriendsData | app/src/main/java/com/superhuman/livesustainably/map/MapViewModel.kt:59-87 | friends and location installed, or the error shown, loading ended |
| FriendsMap.MapViewModel.SelectFriend | app/src/main/java/com/superhuman/livesustainably/map/MapViewModel.kt:89-91 | the selection is set |
| FriendsMap.MapViewModel.DismissFriendCard | app/src/main/java/com/superhuman/livesustainably/map/MapViewModel.kt:93-95 | the selection is cleared |
| FriendsMap.SelectThenDismiss | app/src/main/java/com/superhuman/livesustainably/map/MapViewModel.kt:89-95 | selecting and dismissing restores the screen |

## Left out

- **Rendering.** Compose layout and styling are not modelled beyond the rules named
  above: sizes, paddings, animations, image loading, the collapsing header, the map
  drawing and the charts.
- **Backends.** Firebase Authentication, Firestore, Google sign-in and asset reads
  are not modelled. Their answers are parameters.
  - Firestore transactions are not modelled as atomic or retried.
  - `GoogleSignInHelper` and the credential manager are not part of this model.
- **JSON parsing.** Gson parsing and the null fields it can leave in records that
  Kotlin declares non-null are not modelled. Chatbot greetings are modelled as
  optional, because the source guards them. Categories, fallback and encouragement
  are assumed present.
- **Concurrency.** Coroutines, `delay`, `StateFlow` delivery and the order in which
  concurrent loads finish are not modelled. The init block's loads are modelled as a
  first call to the load method.
- **E-mail format.** The `Patterns.EMAIL_ADDRESS` match is the `emailFormatOk`
  parameter.
- Text.LowerChar: lowercases the ASCII letters `A`..`Z` only, while Kotlin's
  `lowercase()` follows Unicode case mapping.
- Text.Lower: built on `Text.LowerChar`, so it shares the same ASCII-only limit.
- **One-time events** are modelled by their payload, not by their identity, so two
  equal events are not told apart.
- **Clock.** Chatbot message ids and timestamps take the clock as a parameter, one
  reading per message: the greeting, the user's message and the bot's reply each use
  the same reading for their id and their timestamp. The source reads the clock twice
  for each of them, once for the id and once for the timestamp default, so the two
  can differ by a millisecond.
- **Random choice.** The UUID comment ids are a parameter, one per feed item. `random()` on a list is a
  nondeterministic choice, and `Math.random()` is the `roll` parameter.
- Chatbot.RandomElement: an empty list throws in the source; the model returns
  `None`, and the view-model then posts no reply.
- Chatbot.ChatbotViewModel.ClearChat: an empty greeting list throws in the source;
  the model leaves the state as it was and returns false.
- HomeRepository.StreakTransaction: the source's `update` on a missing streak
  document fails; the model treats a missing document like an empty day list. It
  says nothing about atomicity.
- HomeRepository.MarkActivityCompleted: the outcome of the streak update is a
  parameter that the result ignores. The streak update itself is
  `HomeRepository.StreakTransaction`.
- **Duplicated helper.** `getCurrentDayName` in `home/HomeViewModel.kt:185-197`
  duplicates the repository's and is modelled once, as `HomeModel.CurrentDayName`.
  The view-model and the repository are assumed to read the same calendar day.
- **refreshData** (`home/HomeViewModel.kt:168-170`) is a call of `LoadHomeData` and
  has no member of its own.
- **Dead event.** `navigateToSignUp` of the login state is never raised in the
  view-model. Only its consumption is modelled.
- **Integer widths.** Stored numbers are unbounded integers, except the Firestore
  longs read through `toInt()` (modelled by `HomeRepository.ToInt32`). Report and map
  figures are `real` rather than floating point.
