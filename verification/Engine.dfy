// The engine object: its fields change step by step under the lock.

module Engine {
  import opened Options
  import opened Panel
  import opened Config
  import S = EngineSpec

  class Engine<O> {
    const site: S.Site<O>
    var pool: seq<S.Box<O>>
    var instance: Option<nat>
    var users: seq<User>
    var currentConfig: Option<NodeConfig>
    var logLevel: string

    function Value(): S.State<O>
      reads this
    {
      S.State(pool, instance, users, currentConfig, logLevel)
    }

    // The instance is a box of the pool.
    ghost predicate Valid()
      reads this
    {
      instance.Some? ==> instance.value < |pool|
    }

    constructor (site: S.Site<O>)
      ensures Valid() && this.site == site && Value() == S.State([], None, [], None, "")
    {
      this.site := site;
      pool, instance, users, currentConfig, logLevel := [], None, [], None, "";
    }

    method CreateBox(config: Option<NodeConfig>, newUsers: seq<User>, level: string, ok: bool)
        returns (box: Option<nat>)
      modifies `pool
      ensures var options := S.Build(site, config, newUsers, level);
        if options.Err? || !ok then box == None && pool == old(pool)
        else box == Some(|old(pool)|) && pool == old(pool) + [S.Box(S.Created, options.value)]
    {
      var options := S.Build(site, config, newUsers, level);
      if options.Err? || !ok {
        return None;
      }
      box := Some(|pool|);
      pool := pool + [S.Box(S.Created, options.value)];
    }

    method SetStatus(i: nat, status: S.Status)
      requires i < |pool|
      modifies `pool
      ensures pool == old(pool)[i := old(pool)[i].(status := status)]
    {
      pool := pool[i := pool[i].(status := status)];
    }

    method Start(config: Option<NodeConfig>, newUsers: seq<User>, level: string, chance: S.Chance) returns (ok: bool)
      modifies this
      ensures (Value(), ok) == S.Start(site, old(Value()), config, newUsers, level, chance)
      ensures old(Valid()) ==> Valid()
    {
      hide S.Build;
      var box := CreateBox(config, newUsers, level, chance.create);
      if box.None? {
        return false;
      }
      if !chance.start {
        SetStatus(box.value, S.Closed);
        return false;
      }
      SetStatus(box.value, S.Running);
      instance := box;
      users := newUsers;
      currentConfig := config;
      logLevel := level;
      return true;
    }

    method ReloadUsers(config: Option<NodeConfig>, newUsers: seq<User>, level: string, chance: S.Chance, back: S.Chance)
      returns (outcome: S.Outcome)
      requires Valid()
      modifies this
      ensures Valid() && (Value(), outcome) == S.Reload(site, old(Value()), config, newUsers, level, chance, back)
    {
      hide S.Build;
      var box := CreateBox(config, newUsers, level, chance.create);
      if box.None? {
        return S.BuildFailed;
      }
      var oldInstance, oldUsers, oldConfig, oldLogLevel := instance, users, currentConfig, logLevel;
      instance := None;
      if oldInstance.Some? {
        SetStatus(oldInstance.value, S.Closed);
      }
      if !chance.start {
        SetStatus(box.value, S.Closed);
        var ok := RestorePreviousInstance(oldConfig, oldUsers, oldLogLevel, back);
        return if ok then S.RolledBack else S.RollbackFailed;
      }
      SetStatus(box.value, S.Running);
      instance := box;
      users := newUsers;
      currentConfig := config;
      logLevel := level;
      return S.Done;
    }

    method RestorePreviousInstance(config: Option<NodeConfig>, oldUsers: seq<User>, level: string, chance: S.Chance)
      returns (ok: bool)
      modifies this
      ensures (Value(), ok) == S.Restore(site, old(Value()), config, oldUsers, level, chance)
      ensures old(Valid()) ==> Valid()
    {
      if config.None? {
        return false;
      }
      ok := Start(config, oldUsers, level, chance);
    }

    method Close()
      requires Valid()
      modifies this
      ensures Valid() && Value() == S.Close(old(Value()))
    {
      var was := instance;
      instance := None;
      users := [];
      currentConfig := None;
      logLevel := "";
      if was.Some? {
        SetStatus(was.value, S.Closed);
      }
    }
  }
}
