/** The profile screen's view-model (profile/ProfileViewModel.kt): the records of
    `user_profile.json`, the load handling, the edit buffers, the preference switches
    and the logout dialog. */
module Profile {
  import opened Wrappers

  datatype UserStats = UserStats(
    streakCount: int, starCount: int, roseCount: int, totalXP: int, activitiesCompleted: int, co2Saved: string)

  datatype NotificationPreferences = NotificationPreferences(
    dailyReminders: bool, achievementAlerts: bool, friendActivity: bool, weeklyDigest: bool, pushNotifications: bool)

  datatype PrivacyPreferences = PrivacyPreferences(
    showOnMap: bool, shareActivity: bool, publicProfile: bool, showOnLeaderboard: bool)

  datatype DisplayPreferences = DisplayPreferences(darkMode: bool, language: string, units: string)

  datatype SustainabilityPreferences = SustainabilityPreferences(
    primaryGoals: seq<string>, interests: seq<string>, dietaryPreference: string)

  datatype Preferences = Preferences(
    notifications: NotificationPreferences,
    privacy: PrivacyPreferences,
    display: DisplayPreferences,
    sustainability: SustainabilityPreferences)

  datatype Achievement = Achievement(id: string, title: string, description: string, icon: string, earnedDate: string)

  datatype UserProfile = UserProfile(
    id: string, firstName: string, lastName: string, email: string, username: string,
    avatarUrl: string, bio: string, location: string, joinDate: string, stats: UserStats)

  datatype UserProfileData = UserProfileData(user: UserProfile, preferences: Preferences, achievements: seq<Achievement>)

  datatype ProfileState = ProfileState(
    user: Option<UserProfile> := None,
    preferences: Option<Preferences> := None,
    achievements: seq<Achievement> := [],
    isLoading: bool := true,
    isEditing: bool := false,
    showLogoutDialog: bool := false,
    error: Option<string> := None,
    editFirstName: string := "",
    editLastName: string := "",
    editBio: string := "",
    editLocation: string := "")

  // ---------------------------------------------------------------------------
  // Editing

  /** The four editable fields of a profile, or "" each without a profile. */
  function EditableFields(user: Option<UserProfile>): (fields: (string, string, string, string))
    ensures user.None? ==> fields == ("", "", "", "")
    ensures user.Some? ==> fields == (user.value.firstName, user.value.lastName, user.value.bio, user.value.location)
  {
    if user.Some? then (user.value.firstName, user.value.lastName, user.value.bio, user.value.location)
    else ("", "", "", "")
  }

  /** `startEditing`: the edit mode with the buffers refilled from the profile. */
  function EditingStarted(s: ProfileState): (r: ProfileState)
    ensures r.isEditing && r.user == s.user && r.preferences == s.preferences
    ensures (r.editFirstName, r.editLastName, r.editBio, r.editLocation) == EditableFields(s.user)
    ensures r.(isEditing := s.isEditing, editFirstName := s.editFirstName, editLastName := s.editLastName,
               editBio := s.editBio, editLocation := s.editLocation) == s
  {
    var f := EditableFields(s.user);
    s.(isEditing := true, editFirstName := f.0, editLastName := f.1, editBio := f.2, editLocation := f.3)
  }

  /** The profile `saveProfile` stores: the buffers written into the four editable
      fields; id, e-mail, username, avatar, join date and statistics are kept. */
  function SavedUser(user: UserProfile, s: ProfileState): (r: UserProfile)
    ensures (r.firstName, r.lastName, r.bio, r.location) == (s.editFirstName, s.editLastName, s.editBio, s.editLocation)
    ensures r.id == user.id && r.email == user.email && r.username == user.username
    ensures r.avatarUrl == user.avatarUrl && r.joinDate == user.joinDate && r.stats == user.stats
  {
    user.(firstName := s.editFirstName, lastName := s.editLastName, bio := s.editBio, location := s.editLocation)
  }

  /** Saving straight after starting to edit gives back the profile unchanged. */
  lemma SaveUneditedIsIdentity(s: ProfileState)
    requires s.user.Some?
    ensures SavedUser(s.user.value, EditingStarted(s)) == s.user.value
  {
  }

  /** What is saved is what was typed last into each buffer after editing started. */
  lemma SaveKeepsTypedValues(s: ProfileState, first: string, last: string, bio: string, location: string)
    requires s.user.Some?
    ensures var e := EditingStarted(s).(editFirstName := first, editLastName := last, editBio := bio, editLocation := location);
      var u := SavedUser(s.user.value, e);
      u.firstName == first && u.lastName == last && u.bio == bio && u.location == location
      && EditableFields(Some(u)) == (first, last, bio, location)
  {
  }

  // ---------------------------------------------------------------------------
  // Preference switches

  const NotificationNames: seq<string> := ["dailyReminders", "achievementAlerts", "friendActivity", "weeklyDigest", "pushNotifications"]
  const PrivacyNames: seq<string> := ["showOnMap", "shareActivity", "publicProfile", "showOnLeaderboard"]

  /** The notification flag a switch name refers to. */
  function NotificationFlag(n: NotificationPreferences, name: string): Option<bool> {
    match name
    case "dailyReminders" => Some(n.dailyReminders)
    case "achievementAlerts" => Some(n.achievementAlerts)
    case "friendActivity" => Some(n.friendActivity)
    case "weeklyDigest" => Some(n.weeklyDigest)
    case "pushNotifications" => Some(n.pushNotifications)
    case _ => None
  }

  /** The five names are the only ones with a flag, and two settings agreeing on every
      named flag are equal. */
  lemma NotificationNamesCoverFlags(n: NotificationPreferences, m: NotificationPreferences)
    ensures forall name :: NotificationFlag(n, name).Some? <==> name in NotificationNames
    ensures (forall k :: 0 <= k < |NotificationNames| ==> NotificationFlag(n, NotificationNames[k]) == NotificationFlag(m, NotificationNames[k]))
      ==> n == m
  {
    if forall k :: 0 <= k < |NotificationNames| ==> NotificationFlag(n, NotificationNames[k]) == NotificationFlag(m, NotificationNames[k]) {
      assert NotificationFlag(n, NotificationNames[0]) == NotificationFlag(m, NotificationNames[0]);
      assert NotificationFlag(n, NotificationNames[1]) == NotificationFlag(m, NotificationNames[1]);
      assert NotificationFlag(n, NotificationNames[2]) == NotificationFlag(m, NotificationNames[2]);
      assert NotificationFlag(n, NotificationNames[3]) == NotificationFlag(m, NotificationNames[3]);
      assert NotificationFlag(n, NotificationNames[4]) == NotificationFlag(m, NotificationNames[4]);
    }
  }

  /** The `when` of `toggleNotificationPreference`: exactly the named flag flips. */
  function WithNotificationToggled(n: NotificationPreferences, name: string): (r: NotificationPreferences)
    ensures forall f :: NotificationFlag(r, f).Some? <==> NotificationFlag(n, f).Some?
    ensures forall f :: f != name ==> NotificationFlag(r, f) == NotificationFlag(n, f)
    ensures NotificationFlag(n, name).Some? ==> NotificationFlag(r, name) == Some(!NotificationFlag(n, name).value)
    ensures NotificationFlag(n, name).None? ==> r == n
  {
    match name
    case "dailyReminders" => n.(dailyReminders := !n.dailyReminders)
    case "achievementAlerts" => n.(achievementAlerts := !n.achievementAlerts)
    case "friendActivity" => n.(friendActivity := !n.friendActivity)
    case "weeklyDigest" => n.(weeklyDigest := !n.weeklyDigest)
    case "pushNotifications" => n.(pushNotifications := !n.pushNotifications)
    case _ => n
  }

  /** Flipping the same notification switch twice restores the settings. */
  lemma NotificationToggleTwice(n: NotificationPreferences, name: string)
    ensures WithNotificationToggled(WithNotificationToggled(n, name), name) == n
  {
  }

  /** The privacy flag a switch name refers to. */
  function PrivacyFlag(p: PrivacyPreferences, name: string): Option<bool> {
    match name
    case "showOnMap" => Some(p.showOnMap)
    case "shareActivity" => Some(p.shareActivity)
    case "publicProfile" => Some(p.publicProfile)
    case "showOnLeaderboard" => Some(p.showOnLeaderboard)
    case _ => None
  }

  /** The four names are the only ones with a flag, and two settings agreeing on every
      named flag are equal. */
  lemma PrivacyNamesCoverFlags(p: PrivacyPreferences, q: PrivacyPreferences)
    ensures forall name :: PrivacyFlag(p, name).Some? <==> name in PrivacyNames
    ensures (forall k :: 0 <= k < |PrivacyNames| ==> PrivacyFlag(p, PrivacyNames[k]) == PrivacyFlag(q, PrivacyNames[k]))
      ==> p == q
  {
    if forall k :: 0 <= k < |PrivacyNames| ==> PrivacyFlag(p, PrivacyNames[k]) == PrivacyFlag(q, PrivacyNames[k]) {
      assert PrivacyFlag(p, PrivacyNames[0]) == PrivacyFlag(q, PrivacyNames[0]);
      assert PrivacyFlag(p, PrivacyNames[1]) == PrivacyFlag(q, PrivacyNames[1]);
      assert PrivacyFlag(p, PrivacyNames[2]) == PrivacyFlag(q, PrivacyNames[2]);
      assert PrivacyFlag(p, PrivacyNames[3]) == PrivacyFlag(q, PrivacyNames[3]);
    }
  }

  /** The `when` of `togglePrivacyPreference`: exactly the named flag flips. */
  function WithPrivacyToggled(p: PrivacyPreferences, name: string): (r: PrivacyPreferences)
    ensures forall f :: PrivacyFlag(r, f).Some? <==> PrivacyFlag(p, f).Some?
    ensures forall f :: f != name ==> PrivacyFlag(r, f) == PrivacyFlag(p, f)
    ensures PrivacyFlag(p, name).Some? ==> PrivacyFlag(r, name) == Some(!PrivacyFlag(p, name).value)
    ensures PrivacyFlag(p, name).None? ==> r == p
  {
    match name
    case "showOnMap" => p.(showOnMap := !p.showOnMap)
    case "shareActivity" => p.(shareActivity := !p.shareActivity)
    case "publicProfile" => p.(publicProfile := !p.publicProfile)
    case "showOnLeaderboard" => p.(showOnLeaderboard := !p.showOnLeaderboard)
    case _ => p
  }

  /** Flipping the same privacy switch twice restores the settings. */
  lemma PrivacyToggleTwice(p: PrivacyPreferences, name: string)
    ensures WithPrivacyToggled(WithPrivacyToggled(p, name), name) == p
  {
  }

  // ---------------------------------------------------------------------------
  // The view-model

  class ProfileViewModel {
    var state: ProfileState
    /** Whether `FirebaseAuth.signOut` has been called. */
    var signedOut: bool

    /** The initial state; the load that `init` launches is the first `LoadProfileData` call. */
    constructor ()
      ensures state == ProfileState()
      ensures state.user.None? && state.preferences.None? && state.isLoading && !state.isEditing
      ensures !signedOut
    {
      state := ProfileState();
      signedOut := false;
    }

    /** `loadProfileData` after the asset has been read and parsed: the profile, the
        settings and the achievements, with the buffers filled from the profile; on a
        failure, only the loading flag and the error. */
    method LoadProfileData(parsed: LoadResult<UserProfileData>) returns (ghost whileLoading: ProfileState)
      modifies this
      ensures whileLoading == old(state).(isLoading := true)
      ensures parsed.Loaded? ==> state == whileLoading.(
        user := Some(parsed.data.user), preferences := Some(parsed.data.preferences),
        achievements := parsed.data.achievements, isLoading := false,
        editFirstName := parsed.data.user.firstName, editLastName := parsed.data.user.lastName,
        editBio := parsed.data.user.bio, editLocation := parsed.data.user.location)
      ensures parsed.LoadFailed? ==>
        state == whileLoading.(isLoading := false, error := Some(MessageOr(parsed.message, "Failed to load profile data")))
      ensures signedOut == old(signedOut)
    {
      state := state.(isLoading := true);
      whileLoading := state;
      match parsed
      case Loaded(data) =>
        state := state.(
          user := Some(data.user), preferences := Some(data.preferences),
          achievements := data.achievements, isLoading := false,
          editFirstName := data.user.firstName, editLastName := data.user.lastName,
          editBio := data.user.bio, editLocation := data.user.location);
      case LoadFailed(message) =>
        state := state.(isLoading := false, error := Some(MessageOr(message, "Failed to load profile data")));
    }

    method StartEditing()
      modifies this
      ensures state == EditingStarted(old(state))
      ensures signedOut == old(signedOut)
    {
      var f := EditableFields(state.user);
      state := state.(isEditing := true, editFirstName := f.0, editLastName := f.1, editBio := f.2, editLocation := f.3);
    }

    /** `cancelEditing`: leaves the edit mode; the profile and the buffers are kept. */
    method CancelEditing()
      modifies this
      ensures state == old(state).(isEditing := false)
      ensures signedOut == old(signedOut)
    {
      state := state.(isEditing := false);
    }

    /** `saveProfile`: without a profile nothing happens. */
    method SaveProfile()
      modifies this
      ensures old(state).user.None? ==> state == old(state)
      ensures old(state).user.Some? ==>
        state == old(state).(user := Some(SavedUser(old(state).user.value, old(state))), isEditing := false)
      ensures signedOut == old(signedOut)
    {
      if state.user.None? {
        return;
      }
      var updated := state.user.value.(firstName := state.editFirstName, lastName := state.editLastName,
                                       bio := state.editBio, location := state.editLocation);
      state := state.(user := Some(updated), isEditing := false);
    }

    method UpdateEditFirstName(value: string)
      modifies this
      ensures state == old(state).(editFirstName := value)
      ensures signedOut == old(signedOut)
    {
      state := state.(editFirstName := value);
    }

    method UpdateEditLastName(value: string)
      modifies this
      ensures state == old(state).(editLastName := value)
      ensures signedOut == old(signedOut)
    {
      state := state.(editLastName := value);
    }

    method UpdateEditBio(value: string)
      modifies this
      ensures state == old(state).(editBio := value)
      ensures signedOut == old(signedOut)
    {
      state := state.(editBio := value);
    }

    method UpdateEditLocation(value: string)
      modifies this
      ensures state == old(state).(editLocation := value)
      ensures signedOut == old(signedOut)
    {
      state := state.(editLocation := value);
    }

    /** `toggleNotificationPreference`: without loaded settings nothing happens. */
    method ToggleNotificationPreference(preference: string)
      modifies this
      ensures old(state).preferences.None? ==> state == old(state)
      ensures old(state).preferences.Some? ==>
        var p := old(state).preferences.value;
        state == old(state).(preferences := Some(p.(notifications := WithNotificationToggled(p.notifications, preference))))
      ensures signedOut == old(signedOut)
    {
      if state.preferences.None? {
        return;
      }
      var current := state.preferences.value;
      var updated := WithNotificationToggled(current.notifications, preference);
      state := state.(preferences := Some(current.(notifications := updated)));
    }

    /** `togglePrivacyPreference`: without loaded settings nothing happens. */
    method TogglePrivacyPreference(preference: string)
      modifies this
      ensures old(state).preferences.None? ==> state == old(state)
      ensures old(state).preferences.Some? ==>
        var p := old(state).preferences.value;
        state == old(state).(preferences := Some(p.(privacy := WithPrivacyToggled(p.privacy, preference))))
      ensures signedOut == old(signedOut)
    {
      if state.preferences.None? {
        return;
      }
      var current := state.preferences.value;
      var updated := WithPrivacyToggled(current.privacy, preference);
      state := state.(preferences := Some(current.(privacy := updated)));
    }

    /** `toggleDarkMode`: without loaded settings nothing happens. */
    method ToggleDarkMode()
      modifies this
      ensures old(state).preferences.None? ==> state == old(state)
      ensures old(state).preferences.Some? ==>
        var p := old(state).preferences.value;
        state == old(state).(preferences := Some(p.(display := p.display.(darkMode := !p.display.darkMode))))
      ensures signedOut == old(signedOut)
    {
      if state.preferences.None? {
        return;
      }
      var current := state.preferences.value;
      state := state.(preferences := Some(current.(display := current.display.(darkMode := !current.display.darkMode))));
    }

    method ShowLogoutDialog()
      modifies this
      ensures state == old(state).(showLogoutDialog := true)
      ensures signedOut == old(signedOut)
    {
      state := state.(showLogoutDialog := true);
    }

    method DismissLogoutDialog()
      modifies this
      ensures state == old(state).(showLogoutDialog := false)
      ensures signedOut == old(signedOut)
    {
      state := state.(showLogoutDialog := false);
    }

    /** `logout`: hides the dialog and signs out. */
    method Logout()
      modifies this
      ensures state == old(state).(showLogoutDialog := false)
      ensures signedOut
    {
      state := state.(showLogoutDialog := false);
      signedOut := true;
    }
  }

  /** Starting to edit and cancelling leaves the profile as it was and the buffers
      holding its fields. */
  method EditThenCancel(vm: ProfileViewModel)
    modifies vm
    ensures vm.state.user == old(vm.state.user) && !vm.state.isEditing
    ensures (vm.state.editFirstName, vm.state.editLastName, vm.state.editBio, vm.state.editLocation)
         == EditableFields(old(vm.state.user))
  {
    vm.StartEditing();
    vm.CancelEditing();
  }

  /** Starting to edit and saving without typing leaves the profile as it was. */
  method EditThenSave(vm: ProfileViewModel)
    modifies vm
    ensures vm.state.user == old(vm.state.user) && (old(vm.state.user).Some? ==> !vm.state.isEditing)
  {
    vm.StartEditing();
    vm.SaveProfile();
  }

  /** A notification switch flipped twice restores the settings. */
  method NotificationSwitchTwice(vm: ProfileViewModel, name: string)
    modifies vm
    ensures vm.state == old(vm.state)
  {
    vm.ToggleNotificationPreference(name);
    vm.ToggleNotificationPreference(name);
    if old(vm.state).preferences.Some? {
      NotificationToggleTwice(old(vm.state).preferences.value.notifications, name);
    }
  }

  /** A privacy switch flipped twice restores the settings. */
  method PrivacySwitchTwice(vm: ProfileViewModel, name: string)
    modifies vm
    ensures vm.state == old(vm.state)
  {
    vm.TogglePrivacyPreference(name);
    vm.TogglePrivacyPreference(name);
    if old(vm.state).preferences.Some? {
      PrivacyToggleTwice(old(vm.state).preferences.value.privacy, name);
    }
  }

  /** The dark-mode switch flipped twice restores the settings. */
  method DarkModeTwice(vm: ProfileViewModel)
    modifies vm
    ensures vm.state == old(vm.state)
  {
    vm.ToggleDarkMode();
    vm.ToggleDarkMode();
  }
}
