/** The actor's part in configuring the receiver, in place. */
module ReceiverConfiguration {
  import opened Words
  import opened ReceiverModel
  import Theorems = ReceiverTheorems

  class Receiver {
    var settings: Settings
    var profiles: map<Id, Profile>
    var generation: nat
    var configuring: bool
    var lookups: seq<Lookup>
    var serving: bool
    var stopping: bool
    var given: Option<Config>
    ghost var stale: bool

    ghost function View(): State
      reads this
    {
      State(Saved(settings, profiles), generation, configuring, lookups, serving, stopping, given, stale)
    }

    constructor (settings: Settings, profiles: map<Id, Profile>, serving: bool)
      ensures View() == Opened(Saved(settings, profiles), serving)
    {
      this.settings, this.profiles, this.serving := settings, profiles, serving;
      generation, configuring, lookups, stopping, given, stale := 0, false, [], false, None, true;
    }

    method Install(config: Config, luck: Luck) returns (ok: bool)
      modifies `given, `stale
      ensures View() == Give(old(View()), config, luck) && ok == !luck.sendFails
    {
      ok := !luck.sendFails;
      if ok {
        given := Some(config);
      }
      stale := luck.sendFails;
    }

    method LookUp(luck: Luck) returns (ok: bool)
      requires Valid(settings, profiles) && settings.profile.Some? && !configuring
      modifies `configuring, `lookups, `stale
      ensures ok == !luck.spawnFails
      ensures View() == if ok
        then old(View()).(configuring := true, stale := false,
          lookups := old(lookups) + [Lookup(generation, settings.profile.value, profiles[settings.profile.value], settings)])
        else old(View()).(stale := true)
    {
      var id := settings.profile.value;
      configuring, stale := true, luck.spawnFails;
      if luck.spawnFails {
        configuring := false;
        return false;
      }
      lookups := lookups + [Lookup(generation, id, profiles[id], settings)];
      ok := true;
    }

    method Refresh(luck: Luck) returns (ok: bool)
      modifies `generation, `configuring, `lookups, `given, `stale
      ensures View() == ReceiverModel.Refresh(old(View()), luck)
    {
      generation := generation + 1;
      ok := true;
      if !serving {
        return;
      }
      if settings.listener.Some? {
        ok := Install(Listen(settings), luck);
        return;
      }
      if settings.profile.None? {
        ok := Install(Off, luck);
        return;
      }
      if !Valid(settings, profiles) {
        stale := true;
        return false;
      }
      if !configuring {
        ok := LookUp(luck);
      }
    }

    method Configure(settings: Settings, luck: Luck) returns (ok: bool)
      modifies this
      ensures View() == Step(old(View()), ReceiverModel.Configure(settings, luck))
    {
      if !Valid(settings, profiles) {
        return false;
      }
      this.settings := settings;
      ok := Refresh(luck);
    }

    method SaveProfile(id: Id, profile: Profile, luck: Luck) returns (ok: bool)
      modifies this
      ensures View() == Step(old(View()), ReceiverModel.SaveProfile(id, profile, luck))
    {
      if !profile.register && settings.profile == Some(id) {
        return false;
      }
      profiles := profiles[id := profile];
      ok := true;
      if settings.profile == Some(id) {
        ok := Refresh(luck);
      }
    }

    /** The background lookup hands its answer back to the actor. */
    method Found(password: Option<nat>, luck: Luck)
      requires lookups != []
      modifies this
      ensures View() == Step(old(View()), ReceiverModel.Found(password, luck))
    {
      var found := lookups[0];
      configuring, lookups := false, lookups[1..];
      if stopping {
        return;
      }
      if generation != found.generation {
        var _ := Refresh(luck);
        return;
      }
      match password {
        case None => stale := true;
        case Some(secret) =>
          var _ := Install(Account(found.profile, found.settings, secret), luck);
      }
    }

    method Stop()
      modifies this
      ensures View() == Step(old(View()), ReceiverModel.Stop)
    {
      if !stopping {
        stopping, serving, generation := true, false, generation + 1;
      }
    }
  }
}
