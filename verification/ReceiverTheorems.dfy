/** The receiving configuration converges, and is never installed out of date. */
module ReceiverTheorems {
  import opened Words
  import opened ReceiverModel

  /** The configuration the saved settings ask for, whatever the password. */
  predicate Wanted(config: Config, saved: Saved) {
    var settings := saved.settings;
    if settings.listener.Some? then config == Listen(settings)
    else if settings.profile.None? then config == Off
    else config.Account? && config.settings == settings && settings.profile.value in saved.profiles
         && config.profile == saved.profiles[settings.profile.value]
  }

  /** What a lookup was begun for is still what is saved. */
  predicate Current(found: Lookup, saved: Saved) {
    && found.settings == saved.settings && saved.settings.listener.None? && saved.settings.profile == Some(found.id)
    && found.id in saved.profiles && saved.profiles[found.id] == found.profile
  }

  predicate Inv(s: State) {
    && Valid(s.saved.settings, s.saved.profiles)
    && |s.lookups| <= 1 && s.configuring == (s.lookups != [])
    && (s.lookups != [] ==> s.lookups[0].generation <= s.generation)
    && (s.lookups != [] && s.lookups[0].generation == s.generation ==> Current(s.lookups[0], s.saved))
    && (s.lookups == [] && s.serving && !s.stale ==> s.given.Some? && Wanted(s.given.value, s.saved))
    && (s.stopping ==> !s.serving)
    && (s.stopping && s.lookups != [] ==> s.lookups[0].generation < s.generation)
  }

  /** Saved settings and profiles may have changed, if the generation moves on. */
  lemma RefreshKeeps(s: State, luck: Luck)
    requires Valid(s.saved.settings, s.saved.profiles)
    requires |s.lookups| <= 1 && s.configuring == (s.lookups != []) && (s.stopping ==> !s.serving)
    requires s.lookups != [] ==> s.lookups[0].generation <= s.generation
    ensures Inv(Refresh(s, luck))
  {
  }

  lemma StepKeeps(s: State, a: Action)
    requires Inv(s) && Enabled(s, a)
    ensures Inv(Step(s, a))
  {
    match a
    case Configure(settings, luck) =>
      if Valid(settings, s.saved.profiles) {
        RefreshKeeps(s.(saved := s.saved.(settings := settings)), luck);
      }
    case SaveProfile(id, profile, luck) =>
      if profile.register || s.saved.settings.profile != Some(id) {
        var t := s.(saved := s.saved.(profiles := s.saved.profiles[id := profile]));
        if s.saved.settings.profile == Some(id) {
          RefreshKeeps(t, luck);
        }
      }
    case Reconnect(luck) => RefreshKeeps(s, luck);
    case Found(password, luck) => RefreshKeeps(s.(configuring := false, lookups := s.lookups[1..]), luck);
    case Stop =>
  }

  lemma {:induction false} RunKeeps(s: State, actions: seq<Action>)
    requires Inv(s) && Runs(s, actions)
    ensures Inv(After(s, actions))
    decreases |actions|
  {
    if actions != [] {
      StepKeeps(s, actions[0]);
      RunKeeps(Step(s, actions[0]), actions[1..]);
    }
  }

  lemma OpenedInv(saved: Saved, serving: bool)
    requires Valid(saved.settings, saved.profiles)
    ensures Inv(Opened(saved, serving))
  {
  }

  /** Over any run of changes, answers and failures: at most one lookup is under way,
      and once none is, the service was last told exactly what is saved, unless the last
      attempt to tell it failed. */
  lemma ConfigurationConverges(saved: Saved, actions: seq<Action>)
    requires Valid(saved.settings, saved.profiles) && Runs(Opened(saved, true), actions)
    ensures var s := After(Opened(saved, true), actions);
      && |s.lookups| <= 1
      && (s.lookups == [] && s.serving && !s.stale ==> s.given.Some? && Wanted(s.given.value, s.saved))
  {
    OpenedInv(saved, true);
    RunKeeps(Opened(saved, true), actions);
  }

  /** An answer is installed only for settings and a profile that are still the saved
      ones; failures do not weaken this. */
  lemma InstalledIsCurrent(saved: Saved, actions: seq<Action>, password: Option<nat>, luck: Luck)
    requires Valid(saved.settings, saved.profiles) && Runs(Opened(saved, true), actions)
    requires After(Opened(saved, true), actions).lookups != []
    ensures var s := After(Opened(saved, true), actions);
      var v := Step(s, Found(password, luck));
      v.given != s.given ==> v.given.Some? && Wanted(v.given.value, s.saved)
  {
    OpenedInv(saved, true);
    RunKeeps(Opened(saved, true), actions);
  }

  /** A change that matters to a lookup under way makes its answer worthless. */
  lemma ChangesOutdateLookups(s: State, a: Action)
    requires Inv(s) && s.lookups != [] && Enabled(s, a)
    requires (a.Configure? && Valid(a.settings, s.saved.profiles))
      || (a.SaveProfile? && s.saved.settings.profile == Some(a.id) && a.profile.register) || a.Reconnect?
    ensures var v := Step(s, a); v.lookups == s.lookups && v.lookups[0].generation < v.generation
  {
  }

  /** After a stop nothing more is given to the service. */
  lemma {:induction false} NothingIsGivenAfterStop(s: State, actions: seq<Action>)
    requires Inv(s) && s.stopping && Runs(s, actions)
    ensures After(s, actions).given == s.given && After(s, actions).stopping
    decreases |actions|
  {
    if actions != [] {
      StepKeeps(s, actions[0]);
      NothingIsGivenAfterStop(Step(s, actions[0]), actions[1..]);
    }
  }

  // ------------------------------------------------------- the last attempt

  /** Whether a refresh with these settings gets on: it tells the service at once, or
      begins a lookup, or has nothing to do. */
  function Telling(settings: Settings, serving: bool, busy: bool, luck: Luck): Option<bool> {
    if !serving then None
    else if settings.profile.None? then Some(!luck.sendFails)
    else if busy then None
    else Some(!luck.spawnFails)
  }

  /** The attempt to tell the service that an event is, if it is one, and its success. */
  function Attempt(s: State, a: Action): Option<bool>
    requires Enabled(s, a)
  {
    match a
    case Configure(settings, luck) =>
      if Valid(settings, s.saved.profiles) then Telling(settings, s.serving, s.lookups != [], luck) else None
    case SaveProfile(id, profile, luck) =>
      if s.saved.settings.profile == Some(id) && profile.register then Telling(s.saved.settings, s.serving, s.lookups != [], luck) else None
    case Reconnect(luck) => Telling(s.saved.settings, s.serving, s.lookups != [], luck)
    case Found(password, luck) =>
      if s.stopping then None
      else if s.lookups[0].generation == s.generation then Some(password.Some? && !luck.sendFails)
      else Telling(s.saved.settings, s.serving, false, luck)
    case Stop => None
  }

  lemma RefreshTells(s: State, luck: Luck)
    requires Valid(s.saved.settings, s.saved.profiles)
    ensures var told, v := Telling(s.saved.settings, s.serving, s.configuring, luck), Refresh(s, luck);
      v.stale == if told.Some? then !told.value else s.stale
  {
  }

  lemma StepTells(s: State, a: Action)
    requires Inv(s) && Enabled(s, a)
    ensures Step(s, a).stale == if Attempt(s, a).Some? then !Attempt(s, a).value else s.stale
  {
    match a
    case Configure(settings, luck) =>
      if Valid(settings, s.saved.profiles) {
        RefreshTells(s.(saved := s.saved.(settings := settings)), luck);
      }
    case SaveProfile(id, profile, luck) =>
      if s.saved.settings.profile == Some(id) && profile.register {
        RefreshTells(s.(saved := s.saved.(profiles := s.saved.profiles[id := profile])), luck);
      }
    case Reconnect(luck) => RefreshTells(s, luck);
    case Found(password, luck) => RefreshTells(s.(configuring := false, lookups := s.lookups[1..]), luck);
    case Stop =>
  }

  /** How the last attempt of a run went; `before` says it for the time before the run. */
  function LastAttempt(s: State, actions: seq<Action>, before: bool): bool
    requires Runs(s, actions)
    decreases |actions|
  {
    if actions == [] then before
    else LastAttempt(Step(s, actions[0]), actions[1..], if Attempt(s, actions[0]).Some? then Attempt(s, actions[0]).value else before)
  }

  lemma {:induction false} StaleIsLastAttempt(s: State, actions: seq<Action>)
    requires Inv(s) && Runs(s, actions)
    ensures After(s, actions).stale == !LastAttempt(s, actions, !s.stale)
    decreases |actions|
  {
    if actions != [] {
      StepKeeps(s, actions[0]);
      StepTells(s, actions[0]);
      StaleIsLastAttempt(Step(s, actions[0]), actions[1..]);
    }
  }

  /** Whatever happens, once no lookup is under way the service was last told exactly what
      is saved, if only the last attempt to do so got on. */
  lemma ToldUnlessLastAttemptFailed(saved: Saved, actions: seq<Action>)
    requires Valid(saved.settings, saved.profiles) && Runs(Opened(saved, true), actions)
    ensures var s := After(Opened(saved, true), actions);
      s.serving && s.lookups == [] && LastAttempt(Opened(saved, true), actions, false) ==>
        s.given.Some? && Wanted(s.given.value, s.saved)
  {
    ConfigurationConverges(saved, actions);
    OpenedInv(saved, true);
    StaleIsLastAttempt(Opened(saved, true), actions);
  }

  /** The password found for what is still saved is what the service is told. */
  lemma FoundPasswordIsGiven(s: State, secret: nat, luck: Luck)
    requires Inv(s) && s.lookups != [] && !s.stopping && s.lookups[0].generation == s.generation && !luck.sendFails
    ensures var v := Step(s, Found(Some(secret), luck));
      && v.given.Some? && Wanted(v.given.value, s.saved) && v.given.value.Account? && v.given.value.password == secret
      && v.lookups == []
  {
  }

  /** A refresh that needs a password begins the one lookup, for what is saved now. */
  lemma RefreshLooksUp(s: State, luck: Luck) returns (v: State)
    requires Inv(s) && s.serving && s.saved.settings.profile.Some? && s.lookups == [] && !luck.spawnFails
    ensures v == Step(s, Reconnect(luck))
    ensures |v.lookups| == 1 && Current(v.lookups[0], v.saved) && v.lookups[0].generation == v.generation
  {
    v := Step(s, Reconnect(luck));
  }
}
