/** The application shell: what startup loads from the browser store into the
    slices, the demo sign-in, and which screen is shown. */
module App {
  import opened Types
  import opened StorageService
  import MoodSlice
  import UserSlice
  import ChannelSlice

  /** What startup dispatches: the saved log, the saved channel list and the saved
      selection, each only when there is one to restore. */
  datatype LoadPlan = LoadPlan(
    entries: Option<seq<MoodEntry>>,
    channels: Option<seq<MoodChannel>>,
    selected: Option<string>)

  /** The dispatches `initializeApp` makes for store `s`: nothing when the version
      check fails; otherwise each saved value that is non-empty. */
  function StartupLoad(s: map<string, string>, c: Codecs, env: Env): (p: LoadPlan)
    ensures !VersionValid(s, c, env) ==> p == LoadPlan(None, None, None)
    ensures p.entries.Some? <==> VersionValid(s, c, env) && StoredEntries(s, c, env) != []
    ensures p.entries.Some? ==> p.entries.value == StoredEntries(s, c, env)
    ensures p.channels.Some? <==> VersionValid(s, c, env) && Get(s, ChannelsKey, [], c.channels, env) != []
    ensures p.channels.Some? ==> p.channels.value == Get(s, ChannelsKey, [], c.channels, env)
    ensures p.selected.Some? <==>
              VersionValid(s, c, env) && Get(s, SelectedChannelKey, None, c.text, env).Some? &&
              Get(s, SelectedChannelKey, None, c.text, env).value != ""
    ensures p.selected.Some? ==> Get(s, SelectedChannelKey, None, c.text, env) == p.selected
  {
    if !VersionValid(s, c, env) then LoadPlan(None, None, None)
    else
      var entries := StoredEntries(s, c, env);
      var channels := Get(s, ChannelsKey, [], c.channels, env);
      var selected := Get(s, SelectedChannelKey, None, c.text, env);
      LoadPlan(if entries != [] then Some(entries) else None,
               if channels != [] then Some(channels) else None,
               if selected.Some? && selected.value != "" then selected else None)
  }

  /** The availability probe does not change what startup restores. */
  lemma StartupLoadAfterProbe(s: map<string, string>, c: Codecs, env: Env)
    ensures StartupLoad(Probe(s, env), c, env) == StartupLoad(s, c, env)
  {
    GetAfterProbe(s, VersionKey, None, c.text, env);
    GetAfterProbe(s, MoodEntriesKey, [], c.entries, env);
    GetAfterProbe(s, ChannelsKey, [], c.channels, env);
    GetAfterProbe(s, SelectedChannelKey, None, c.text, env);
  }

  /** The screens, in the order the shell tests for them. */
  datatype Screen = LoadingScreen | ErrorScreen(message: string) | LoginScreen | MainScreen

  /** Loading wins over an error, an error over the login card, and the main
      layout needs a signed-in user; an empty error string counts as no error. */
  function ScreenFor(isLoading: bool, error: Option<string>, isAuthenticated: bool): (r: Screen)
    ensures r == LoadingScreen <==> isLoading
    ensures r.ErrorScreen? <==> !isLoading && error.Some? && error.value != ""
    ensures r.ErrorScreen? ==> r.message == error.value
    ensures r == LoginScreen <==> !isLoading && (error.None? || error.value == "") && !isAuthenticated
    ensures r == MainScreen <==> !isLoading && (error.None? || error.value == "") && isAuthenticated
  {
    if isLoading then LoadingScreen
    else if error.Some? && error.value != "" then ErrorScreen(error.value)
    else if !isAuthenticated then LoginScreen
    else MainScreen
  }

  class Shell {
    var isLoading: bool
    var error: Option<string>
    const mood: MoodSlice.MoodState
    const channels: ChannelSlice.ChannelState
    const users: UserSlice.UserState
    const storage: LocalStorageService

    /** The shell starts on the loading screen with no error. */
    constructor (mood: MoodSlice.MoodState, channels: ChannelSlice.ChannelState,
                 users: UserSlice.UserState, storage: LocalStorageService)
      ensures this.mood == mood && this.channels == channels
      ensures this.users == users && this.storage == storage
      ensures isLoading && error == None
    {
      this.mood := mood;
      this.channels := channels;
      this.users := users;
      this.storage := storage;
      isLoading := true;
      error := None;
    }

    function CurrentScreen(): Screen
      reads this, users
    {
      ScreenFor(isLoading, error, users.isAuthenticated)
    }

    /** Startup: checks the stored version, restores whatever `StartupLoad` says,
        leaves the user slice alone and ends off the loading screen. */
    method InitializeApp(env: Env)
      modifies this, mood, channels, storage
      ensures var plan := StartupLoad(old(storage.store), storage.codecs, env);
              && mood.entries == (if plan.entries.Some? then plan.entries.value else old(mood.entries))
              && channels.channels == (if plan.channels.Some? then plan.channels.value else old(channels.channels))
              && channels.selectedChannelId ==
                 (if plan.selected.Some? then plan.selected else old(channels.selectedChannelId))
      ensures storage.store == if VersionValid(old(storage.store), storage.codecs, env)
                               then Probe(old(storage.store), env)
                               else Reset(old(storage.store), storage.codecs, env)
      ensures mood.stats == old(mood.stats)
      ensures unchanged(users)
      ensures !isLoading && error == old(error)
      ensures CurrentScreen() != LoadingScreen
    {
      isLoading := true;
      ghost var s0 := storage.store;
      var valid := storage.CheckVersion(env);
      if valid {
        StartupLoadAfterProbe(s0, storage.codecs, env);
        RestoreSaved(env);
        ProbeIdempotent(s0, env);
      }
      isLoading := false;
    }

    /** The reads and dispatches of a startup whose version check passed. */
    method RestoreSaved(env: Env)
      requires VersionValid(storage.store, storage.codecs, env)
      modifies mood, channels, storage
      ensures var plan := StartupLoad(old(storage.store), storage.codecs, env);
              && mood.entries == (if plan.entries.Some? then plan.entries.value else old(mood.entries))
              && channels.channels == (if plan.channels.Some? then plan.channels.value else old(channels.channels))
              && channels.selectedChannelId ==
                 (if plan.selected.Some? then plan.selected else old(channels.selectedChannelId))
      ensures storage.store == Probe(old(storage.store), env)
      ensures mood.stats == old(mood.stats)
    {
      ghost var s0 := storage.store;
      var savedEntries := storage.GetMoodEntries(env);
      ProbeIdempotent(s0, env);
      GetAfterProbe(s0, ChannelsKey, [], storage.codecs.channels, env);
      GetAfterProbe(s0, SelectedChannelKey, None, storage.codecs.text, env);
      var savedChannels := storage.GetChannels(env);
      var savedSelected := storage.GetSelectedChannel(env);
      if |savedEntries| > 0 {
        mood.SetMoodEntries(savedEntries);
      }
      if |savedChannels| > 0 {
        channels.SetChannels(savedChannels);
      }
      if savedSelected.Some? && savedSelected.value != "" {
        channels.SetSelectedChannel(savedSelected.value);
      }
    }

    /** The demo sign-in: re-signs-in the current user and persists it; without a
        current user nothing changes. */
    method HandleSignIn(env: Env)
      modifies this, users, storage
      ensures old(users.currentUser).None? ==> unchanged(users) && storage.store == old(storage.store)
      ensures old(users.currentUser).Some? ==>
                && users.currentUser == old(users.currentUser) && users.isAuthenticated
                && users.users == old(users.users)
                && users.isLoading == old(users.isLoading) && users.error == old(users.error)
                && storage.store == Put(old(storage.store), CurrentUserKey,
                                        storage.codecs.user.encode(old(users.currentUser)), env)
      ensures !isLoading && error == old(error)
    {
      isLoading := true;
      if users.currentUser.Some? {
        users.SetCurrentUser(users.currentUser.value);
        var _ := storage.SaveCurrentUser(users.currentUser.value, env);
      }
      isLoading := false;
    }
  }

  /** After a logout the sign-in button has no user to sign in, so the login
      screen stays. */
  method SignInAfterLogout(shell: Shell, env: Env)
    modifies shell, shell.users, shell.storage
    ensures shell.CurrentScreen() == LoginScreen || (shell.error.Some? && shell.error.value != "")
    ensures shell.users.currentUser == None
  {
    shell.users.Logout();
    shell.HandleSignIn(env);
  }
}
