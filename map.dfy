/** The friends map's view-model (map/MapViewModel.kt): the records of
    `friends_locations.json`, the load handling and the selected friend. Coordinates
    are reals, compared for equality only. */
module FriendsMap {
  import opened Wrappers

  datatype Friend = Friend(
    id: string,
    name: string,
    username: string,
    avatarUrl: string,
    latitude: real,
    longitude: real,
    lastActive: string,
    status: string,
    activity: string)

  datatype UserLocation = UserLocation(latitude: real, longitude: real)

  datatype FriendsData = FriendsData(friends: seq<Friend>, userLocation: UserLocation)

  /** Central London, where the map starts before the data is loaded. */
  const DefaultLocation := UserLocation(51.5074, -0.1278)

  datatype MapState = MapState(
    friends: seq<Friend> := [],
    userLocation: UserLocation := DefaultLocation,
    selectedFriend: Option<Friend> := None,
    isLoading: bool := true,
    error: Option<string> := None)

  class MapViewModel {
    var state: MapState

    /** The initial state; the load that `init` launches is the first `LoadFriendsData` call. */
    constructor ()
      ensures state == MapState()
      ensures state.friends == [] && state.selectedFriend.None? && state.isLoading && state.error.None?
      ensures state.userLocation == UserLocation(51.5074, -0.1278)
    {
      state := MapState();
    }

    /** `loadFriendsData` after the asset has been read and parsed: the friends and the
        user's location; a failure keeps both and sets the error. */
    method LoadFriendsData(parsed: LoadResult<FriendsData>) returns (ghost whileLoading: MapState)
      modifies this
      ensures whileLoading == old(state).(isLoading := true)
      ensures parsed.Loaded? ==>
        state == whileLoading.(friends := parsed.data.friends, userLocation := parsed.data.userLocation, isLoading := false)
      ensures parsed.LoadFailed? ==>
        state == whileLoading.(isLoading := false, error := Some(MessageOr(parsed.message, "Failed to load friends data")))
    {
      state := state.(isLoading := true);
      whileLoading := state;
      match parsed
      case Loaded(data) =>
        state := state.(friends := data.friends, userLocation := data.userLocation, isLoading := false);
      case LoadFailed(message) =>
        state := state.(isLoading := false, error := Some(MessageOr(message, "Failed to load friends data")));
    }

    method SelectFriend(friend: Option<Friend>)
      modifies this
      ensures state == old(state).(selectedFriend := friend)
    {
      state := state.(selectedFriend := friend);
    }

    /** `dismissFriendCard`: the same change as `SelectFriend(None)`. */
    method DismissFriendCard()
      modifies this
      ensures state == old(state).(selectedFriend := None)
    {
      state := state.(selectedFriend := None);
    }
  }

  /** Selecting a friend and dismissing the card restores the map as it was before the
      selection, when no friend was selected then. */
  method SelectThenDismiss(vm: MapViewModel, friend: Friend)
    modifies vm
    requires vm.state.selectedFriend.None?
    ensures vm.state == old(vm.state)
  {
    vm.SelectFriend(Some(friend));
    vm.DismissFriendCard();
  }
}
