/** The weekly league table: its records and defaults (leaderboard/LeaderboardView.kt),
    the view-model's JSON mapping, load handling and follow toggle
    (leaderboard/LeaderboardViewModel.kt), and the row presentation rules. */
module Leaderboard {
  import opened Wrappers

  datatype LeaderboardPlayer = LeaderboardPlayer(
    id: string,
    position: int,
    username: string,
    avatarUrl: string,
    countryFlag: string,
    roseCount: int,
    xp: int,
    isFollowing: bool)

  datatype LeaderboardState = LeaderboardState(
    userPosition: int := 1,
    leagueName: string := "Determined Seed",
    leagueSubtitle: string := "The top 7 advance to the next League",
    timeRemaining: string := "05D 15h",
    streakCount: int := 15,
    starCount: int := 0,
    roseCount: int := 3,
    lockedLeagues: int := 4,
    players: seq<LeaderboardPlayer> := [],
    isLoading: bool := false)

  /** The records of `leaderboard_mock.json` after parsing. */
  datatype LeagueData = LeagueData(name: string, subtitle: string, timeRemaining: string, lockedLeagues: int)

  datatype LeaderboardPlayerJson = LeaderboardPlayerJson(
    id: string,
    position: int,
    username: string,
    avatarUrl: string,
    countryFlag: string,
    roseCount: int,
    xp: int,
    isFollowing: bool)

  datatype LeaderboardJsonData = LeaderboardJsonData(league: LeagueData, players: seq<LeaderboardPlayerJson>)

  // ---------------------------------------------------------------------------
  // JSON mapping

  /** One parsed player as a display record: every field copied one for one. */
  function PlayerFromJson(p: LeaderboardPlayerJson): (r: LeaderboardPlayer)
    ensures r.id == p.id && r.position == p.position && r.username == p.username
    ensures r.avatarUrl == p.avatarUrl && r.countryFlag == p.countryFlag
    ensures r.roseCount == p.roseCount && r.xp == p.xp && r.isFollowing == p.isFollowing
  {
    LeaderboardPlayer(p.id, p.position, p.username, p.avatarUrl, p.countryFlag, p.roseCount, p.xp, p.isFollowing)
  }

  /** The inverse direction, used only to state that the mapping loses nothing. */
  function PlayerToJson(p: LeaderboardPlayer): LeaderboardPlayerJson {
    LeaderboardPlayerJson(p.id, p.position, p.username, p.avatarUrl, p.countryFlag, p.roseCount, p.xp, p.isFollowing)
  }

  /** The mapping is a bijection between parsed and display records. */
  lemma PlayerMappingIsBijective(j: LeaderboardPlayerJson, p: LeaderboardPlayer)
    ensures PlayerToJson(PlayerFromJson(j)) == j
    ensures PlayerFromJson(PlayerToJson(p)) == p
  {
  }

  /** `data.players.map { ... }`: same length, same order, each player mapped. */
  function PlayersFromJson(js: seq<LeaderboardPlayerJson>): (r: seq<LeaderboardPlayer>)
    ensures |r| == |js|
    ensures forall i :: 0 <= i < |js| ==> r[i] == PlayerFromJson(js[i])
  {
    if js == [] then [] else [PlayerFromJson(js[0])] + PlayersFromJson(js[1..])
  }

  // ---------------------------------------------------------------------------
  // Following

  /** `players.map { if (it.id == id) it.copy(isFollowing = !it.isFollowing) else it }` */
  function WithFollowToggled(players: seq<LeaderboardPlayer>, id: string): (r: seq<LeaderboardPlayer>)
    ensures |r| == |players|
    ensures forall i :: 0 <= i < |players| && players[i].id != id ==> r[i] == players[i]
    ensures forall i :: 0 <= i < |players| && players[i].id == id ==>
      r[i].isFollowing == !players[i].isFollowing
      && r[i].(isFollowing := players[i].isFollowing) == players[i]
  {
    if players == [] then []
    else
      [if players[0].id == id then players[0].(isFollowing := !players[0].isFollowing) else players[0]]
      + WithFollowToggled(players[1..], id)
  }

  /** Following and unfollowing the same player restores the table. */
  lemma {:induction false} ToggleFollowTwice(players: seq<LeaderboardPlayer>, id: string)
    ensures WithFollowToggled(WithFollowToggled(players, id), id) == players
  {
    if players != [] {
      ToggleFollowTwice(players[1..], id);
      assert WithFollowToggled(players, id)[1..] == WithFollowToggled(players[1..], id);
    }
  }

  /** After the toggle, a player is followed exactly when it was not followed before
      and has the toggled id, or was followed before and has another id. */
  lemma FollowedAfterToggle(players: seq<LeaderboardPlayer>, id: string, i: nat)
    requires i < |players|
    ensures WithFollowToggled(players, id)[i].isFollowing <==> (players[i].isFollowing != (players[i].id == id))
  {
  }

  // ---------------------------------------------------------------------------
  // The view-model

  class LeaderboardViewModel {
    var state: LeaderboardState

    constructor ()
      ensures state == LeaderboardState()
      ensures state.leagueName == "Determined Seed" && state.streakCount == 15
      ensures state.roseCount == 3 && state.lockedLeagues == 4
      ensures state.players == [] && !state.isLoading
    {
      state := LeaderboardState();
    }

    /** `loadLeaderboardData`: the loading flag, then either the parsed league and
        players or, on any failure, an empty table with the league fields kept. */
    method LoadLeaderboardData(parsed: LoadResult<LeaderboardJsonData>)
      modifies this
      ensures !state.isLoading
      ensures parsed.Loaded? ==> state == old(state).(
        leagueName := parsed.data.league.name,
        leagueSubtitle := parsed.data.league.subtitle,
        timeRemaining := parsed.data.league.timeRemaining,
        lockedLeagues := parsed.data.league.lockedLeagues,
        players := PlayersFromJson(parsed.data.players),
        isLoading := false)
      ensures parsed.LoadFailed? ==> state == old(state).(players := [], isLoading := false)
    {
      state := state.(isLoading := true);
      match parsed
      case Loaded(data) =>
        var players := PlayersFromJson(data.players);
        state := state.(
          leagueName := data.league.name,
          leagueSubtitle := data.league.subtitle,
          timeRemaining := data.league.timeRemaining,
          lockedLeagues := data.league.lockedLeagues,
          players := players,
          isLoading := false);
      case LoadFailed(_) =>
        state := state.(players := [], isLoading := false);
    }

    method ToggleFollow(playerId: string)
      modifies this
      ensures state == old(state).(players := WithFollowToggled(old(state).players, playerId))
    {
      state := state.(players := WithFollowToggled(state.players, playerId));
    }
  }

  // ---------------------------------------------------------------------------
  // Row presentation

  /** The `isTopThree` flag passed to each row. */
  predicate IsTopThree(position: int)
    ensures 1 <= position <= 3 ==> IsTopThree(position)
    ensures position > 3 ==> !IsTopThree(position)
    ensures position <= 0 ==> IsTopThree(position)
  {
    position <= 3
  }

  datatype Medal = Gold | Silver | Bronze

  /** What a row shows in its position column. */
  datatype RankBadge = MedalBadge(medal: Medal) | NumberBadge(position: int)

  function RankBadgeOf(position: int): (b: RankBadge)
    ensures b.MedalBadge? <==> 1 <= position <= 3
    ensures b == MedalBadge(Gold) <==> position == 1
    ensures b == MedalBadge(Silver) <==> position == 2
    ensures b == MedalBadge(Bronze) <==> position == 3
    ensures b.NumberBadge? ==> b.position == position
  {
    if IsTopThree(position) then
      match position
      case 1 => MedalBadge(Gold)
      case 2 => MedalBadge(Silver)
      case 3 => MedalBadge(Bronze)
      case _ => NumberBadge(position)
    else NumberBadge(position)
  }

  /** Which corners of a row's card are rounded. */
  datatype CardShape = AllCorners | TopCorners | BottomCorners | NoCorners

  /** The `when` on list size and row index choosing a row's card shape. */
  function CardShapeOf(index: nat, size: nat): (shape: CardShape)
    requires index < size
    ensures shape == AllCorners <==> size == 1
    ensures shape == TopCorners <==> size > 1 && index == 0
    ensures shape == BottomCorners <==> size > 1 && index == size - 1
    ensures shape == NoCorners <==> 0 < index < size - 1
  {
    if size == 1 then AllCorners
    else if index == 0 then TopCorners
    else if index == size - 1 then BottomCorners
    else NoCorners
  }

  /** A divider is drawn under every row but the last. */
  predicate HasDividerBelow(index: nat, size: nat) {
    index < size - 1
  }

  /** The dividers of a table of `size` rows are those under rows 0 .. size - 2. */
  function DividerRows(size: nat): (rows: set<nat>)
    ensures forall i: nat :: i in rows <==> i < size && HasDividerBelow(i, size)
    ensures size > 0 ==> |rows| == size - 1
  {
    if size <= 1 then {}
    else
      var rest := DividerRows(size - 1);
      assert forall i: nat :: i in rest <==> i < size - 2;
      assert size - 2 !in rest;
      rest + {size - 2}
  }

  /** The number of locked-league badges: `repeat(minOf(lockedLeagues, cap))`, where a
      negative count repeats nothing. */
  function LockedLeagueIcons(lockedLeagues: int, isCompact: bool): (n: nat)
    ensures n <= (if isCompact then 3 else 4)
    ensures lockedLeagues >= 0 ==> n <= lockedLeagues
    ensures n == lockedLeagues || n == (if isCompact then 3 else 4) || (lockedLeagues < 0 && n == 0)
    ensures lockedLeagues < 0 ==> n == 0
  {
    var k := if lockedLeagues < (if isCompact then 3 else 4) then lockedLeagues else (if isCompact then 3 else 4);
    if k < 0 then 0 else k
  }
}
