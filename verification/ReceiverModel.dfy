/**
 How the actor keeps the SIP service's receiving configuration in step with the saved
 settings while credentials are looked up in the background.
 */
module ReceiverModel {
  import opened Words

  type Id = nat

  datatype Profile = Profile(register: bool, data: nat)

  datatype Settings = Settings(listener: Option<nat>, profile: Option<Id>, options: nat)

  /** A listener or a registering profile, not both. */
  predicate Valid(settings: Settings, profiles: map<Id, Profile>) {
    && !(settings.listener.Some? && settings.profile.Some?)
    && (settings.profile.Some? ==> settings.profile.value in profiles && profiles[settings.profile.value].register)
  }

  /** What the service can be told. The password is the credential store's answer. */
  datatype Config = Off | Listen(settings: Settings) | Account(profile: Profile, settings: Settings, password: nat)

  /** A background lookup and what it was begun for. */
  datatype Lookup = Lookup(generation: nat, id: Id, profile: Profile, settings: Settings)

  datatype Saved = Saved(settings: Settings, profiles: map<Id, Profile>)

  /** `serving` is whether the actor still holds the service; `given` is the last
      configuration sent to it; `stale` is whether the last attempt to send one failed. */
  datatype State = State(saved: Saved, generation: nat, configuring: bool, lookups: seq<Lookup>, serving: bool,
                         stopping: bool, given: Option<Config>, stale: bool)

  function Opened(saved: Saved, serving: bool): State {
    State(saved, 0, false, [], serving, false, None, true)
  }

  /** Which of the actor's attempts fail: handing a configuration to the service, or
      spawning the lookup. */
  datatype Luck = Luck(sendFails: bool, spawnFails: bool)

  function Give(s: State, config: Config, luck: Luck): State {
    if luck.sendFails then s.(stale := true) else s.(given := Some(config), stale := false)
  }

  function Refresh(before: State, luck: Luck): State {
    var s := before.(generation := before.generation + 1);
    var settings := s.saved.settings;
    if !s.serving then s
    else if settings.listener.Some? then Give(s, Listen(settings), luck)
    else if settings.profile.None? then Give(s, Off, luck)
    else if !Valid(settings, s.saved.profiles) then s.(stale := true)
    else if s.configuring then s
    else if luck.spawnFails then s.(stale := true)
    else
      var id := settings.profile.value;
      s.(configuring := true, stale := false,
         lookups := s.lookups + [Lookup(s.generation, id, s.saved.profiles[id], settings)])
  }

  function OnSettings(s: State, settings: Settings, luck: Luck): State {
    if !Valid(settings, s.saved.profiles) then s
    else Refresh(s.(saved := s.saved.(settings := settings)), luck)
  }

  function OnProfile(s: State, id: Id, profile: Profile, luck: Luck): State {
    if !profile.register && s.saved.settings.profile == Some(id) then s
    else
      var t := s.(saved := s.saved.(profiles := s.saved.profiles[id := profile]));
      if s.saved.settings.profile == Some(id) then Refresh(t, luck) else t
  }

  /** The lookup is over; its answer counts only if nothing changed since it began. */
  function OnFound(s: State, password: Option<nat>, luck: Luck): State
    requires s.lookups != []
  {
    var found := s.lookups[0];
    var t := s.(configuring := false, lookups := s.lookups[1..]);
    if t.stopping then t
    else if t.generation != found.generation then Refresh(t, luck)
    else match password
    case None => t.(stale := true)
    case Some(secret) => Give(t, Account(found.profile, found.settings, secret), luck)
  }

  function OnStop(s: State): State {
    if s.stopping then s else s.(stopping := true, serving := false, generation := s.generation + 1)
  }

  datatype Action =
    | Configure(settings: Settings, luck: Luck)
    | SaveProfile(id: Id, profile: Profile, luck: Luck)
    | Reconnect(luck: Luck)
    | Found(password: Option<nat>, luck: Luck)
    | Stop

  predicate Enabled(s: State, a: Action) {
    a.Found? ==> s.lookups != []
  }

  function Step(s: State, a: Action): State
    requires Enabled(s, a)
  {
    match a
    case Configure(settings, luck) => OnSettings(s, settings, luck)
    case SaveProfile(id, profile, luck) => OnProfile(s, id, profile, luck)
    case Reconnect(luck) => Refresh(s, luck)
    case Found(password, luck) => OnFound(s, password, luck)
    case Stop => OnStop(s)
  }

  predicate Runs(s: State, actions: seq<Action>)
    decreases |actions|
  {
    actions == [] || (Enabled(s, actions[0]) && Runs(Step(s, actions[0]), actions[1..]))
  }

  function After(s: State, actions: seq<Action>): State
    requires Runs(s, actions)
    decreases |actions|
  {
    if actions == [] then s else After(Step(s, actions[0]), actions[1..])
  }
}
