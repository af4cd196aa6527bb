// The syncer object.

module Syncer {
  import opened Options
  import opened Panel
  import opened Config
  import opened Client
  import opened Encoding
  import opened ConfigHash
  import opened Engine
  import S = SyncSpec
  import E = EngineSpec

  class UserSyncer<O> {
    const engine: Engine<O>
    const panelClient: PanelClient
    const parse: JsonParser
    const logLevel: string
    var nodeConfig: Option<NodeConfig>
    var currentUserHash: Hash
    var currentConfigHash: Hash
    var limited: seq<User>

    ghost predicate Valid()
      reads this, engine
    {
      engine.Valid()
    }

    ghost function World(): S.World<O> {
      S.World(engine.site, HashUsers, ConfigHasher(parse), logLevel)
    }

    function Value(): S.State<O>
      reads this, engine, panelClient
    {
      S.State(engine.Value(), panelClient.UserCache(), panelClient.ConfigCache(), nodeConfig,
              currentUserHash, currentConfigHash, limited)
    }

    // Made right after the engine has started with this configuration and users.
    constructor (engine: Engine<O>, panelClient: PanelClient, parse: JsonParser, nodeConfig: Option<NodeConfig>,
                 logLevel: string, users: seq<User>)
      requires engine.Valid() && engine.users == users
      ensures Valid() && fresh(this) && this.engine == engine && this.panelClient == panelClient
      ensures this.parse == parse && this.logLevel == logLevel
      ensures Value() == S.Started(engine.Value(), panelClient.UserCache(), panelClient.ConfigCache(), nodeConfig,
                                   HashUsers(users), HashConfig(parse, nodeConfig))
    {
      this.engine := engine;
      this.panelClient := panelClient;
      this.parse := parse;
      this.nodeConfig := nodeConfig;
      this.logLevel := logLevel;
      limited := users;
      new;
      currentUserHash := HashUsersByLoop(users);
      currentConfigHash := HashConfigByWriter(parse, nodeConfig);
    }

    // One reconciliation. The fetches run outside the lock, one goroutine.
    method Sync(t: S.Turn) returns (end: S.Outcome)
      requires Valid()
      modifies this, engine, panelClient
      ensures Valid() && (Value(), end) == S.Sync(World(), old(Value()), t)
    {
      hide HashUsers, HashConfig, E.Reload;
      var newUsers := panelClient.GetUsers(t.users);
      if newUsers.None? {
        return S.UsersFailed;
      }
      limited := newUsers.value;
      var fetched := panelClient.GetNodeConfig(t.config);
      var newConfig := nodeConfig;
      if fetched.Some? {
        newConfig := fetched.value;
      }
      if newConfig.None? {
        return S.NoConfig;
      }
      var newUserHash := HashUsersByLoop(newUsers.value);
      var newConfigHash := HashConfigByWriter(parse, newConfig);
      if newUserHash == currentUserHash && newConfigHash == currentConfigHash {
        return S.Unchanged;
      }
      var outcome := engine.ReloadUsers(newConfig, newUsers.value, logLevel, t.chance, t.back);
      if !outcome.Done? {
        return S.Attempted(outcome);
      }
      currentUserHash := newUserHash;
      currentConfigHash := newConfigHash;
      nodeConfig := newConfig;
      return S.Attempted(outcome);
    }
  }
}
