// One reconciliation step, and what every run of them keeps.

module SyncSpec {
  import opened Options
  import opened Panel
  import opened Config
  import opened Client
  import opened Encoding
  import E = EngineSpec

  // limited: the user list last handed to the limiter.
  datatype State<O> = State(engine: E.State<O>, users: Cache<seq<User>>, configs: Cache<Option<NodeConfig>>,
                               nodeConfig: Option<NodeConfig>, userHash: Hash, configHash: Hash, limited: seq<User>)

  // What the world does during one Sync.
  datatype Turn = Turn(users: Reply<seq<User>>, config: Reply<Option<NodeConfig>>, chance: E.Chance, back: E.Chance)

  datatype Outcome = UsersFailed | NoConfig | Unchanged | Attempted(reload: E.Outcome)

  // Fixed while the process runs: how to build options, the two hash functions, and
  // the log level.
  datatype World<!O> = World(site: E.Site<O>, hashUsers: seq<User> -> Hash, hashConfig: Option<NodeConfig> -> Hash,
                             logLevel: string)

  function Sync<O>(w: World<O>, s: State<O>, t: Turn): (State<O>, Outcome)
    requires s.engine.instance.Some? ==> s.engine.instance.value < |s.engine.pool|
  {
    var (users, got) := Receive(s.users, t.users);
    if got.None? then (s.(users := users), UsersFailed)
    else
      var (configs, gotConfig) := Receive(s.configs, t.config);
      Decide(w, s.(users := users, limited := got.value, configs := configs), got.value,
             if gotConfig.Some? then gotConfig.value else s.nodeConfig, t)
  }

  function Decide<O>(w: World<O>, s: State<O>, users: seq<User>, config: Option<NodeConfig>, t: Turn)
      : (State<O>, Outcome)
    requires s.engine.instance.Some? ==> s.engine.instance.value < |s.engine.pool|
  {
    var userHash, configHash := w.hashUsers(users), w.hashConfig(config);
    if config.None? then (s, NoConfig)
    else if userHash == s.userHash && configHash == s.configHash then (s, Unchanged)
    else
      var (engine, end) := E.Reload(w.site, s.engine, config, users, w.logLevel, t.chance, t.back);
      if end.Done? then
        (s.(engine := engine, userHash := userHash, configHash := configHash, nodeConfig := config), Attempted(end))
      else (s.(engine := engine), Attempted(end))
  }

  // ---- The reconciliation invariant ----

  // The stored hashes are those of what the engine has stored.
  ghost predicate InStep<O>(w: World<O>, s: State<O>) {
    && E.Sound(w.site, s.engine)
    && s.userHash == w.hashUsers(s.engine.users) && s.configHash == w.hashConfig(s.engine.config)
    && s.nodeConfig == s.engine.config && s.engine.config.Some? && s.engine.logLevel == w.logLevel
  }

  // The users and the configuration this Sync compares with.
  function Seen<O>(s: State<O>, t: Turn): (Option<seq<User>>, Option<NodeConfig>) {
    var config := Receive(s.configs, t.config).1;
    (Receive(s.users, t.users).1, if config.Some? then config.value else s.nodeConfig)
  }

  ghost predicate Differs<O>(w: World<O>, e: E.State<O>, users: seq<User>, config: Option<NodeConfig>) {
    w.hashUsers(users) != w.hashUsers(e.users) || w.hashConfig(config) != w.hashConfig(e.config)
  }

  // Whatever fails, a Sync keeps the hashes in step, tries a reload exactly when
  // what it sees differs from what the engine has stored, and changes what is
  // stored only by a reload that is done. The limiter has the users it saw anyway.
  lemma SyncKeepsInStep<O>(w: World<O>, s: State<O>, t: Turn)
    requires InStep(w, s)
    ensures var (s', end) := Sync(w, s, t);
      var (users, config) := Seen(s, t);
      && InStep(w, s')
      && (end.Attempted? <==> users.Some? && config.Some? && Differs(w, s.engine, users.value, config))
      && s'.limited == (if users.Some? then users.value else s.limited)
      && (!end.Attempted? ==> s'.engine == s.engine)
      && (end == Attempted(E.Done) ==> (s'.engine.users, s'.engine.config) == (users.value, config))
      && (end != Attempted(E.Done) ==> (s'.engine.users, s'.engine.config) == (s.engine.users, s.engine.config))
  {
    hide E.Sound, E.Reload;
    var (users, config) := Seen(s, t);
    if users.Some? {
      E.ReloadSound(w.site, s.engine, config, users.value, w.logLevel, t.chance, t.back);
    }
  }

  // A node that has just started: the engine runs what was fetched, and the
  // initial hashes are set from it.
  function Started<O>(engine: E.State<O>, users: Cache<seq<User>>, configs: Cache<Option<NodeConfig>>,
                         nodeConfig: Option<NodeConfig>, userHash: Hash, configHash: Hash): State<O> {
    State(engine, users, configs, nodeConfig, userHash, configHash, engine.users)
  }

  lemma StartedInStep<O>(w: World<O>, config: Option<NodeConfig>, list: seq<User>, chance: E.Chance,
                            users: Cache<seq<User>>, configs: Cache<Option<NodeConfig>>)
    requires E.Start(w.site, E.State([], None, [], None, ""), config, list, w.logLevel, chance).1
    ensures var engine := E.Start(w.site, E.State([], None, [], None, ""), config, list, w.logLevel, chance).0;
      var s := Started(engine, users, configs, config, w.hashUsers(list), w.hashConfig(config));
      InStep(w, s) && s.engine.instance.Some?
  {
  }

  // ---- Runs ----

  // The states along a run that starts in step (every state then is in step, so
  // the premise about trace[i] always holds).
  ghost predicate IsRun<O>(w: World<O>, trace: seq<State<O>>, turns: seq<Turn>) {
    && |trace| == |turns| + 1 && InStep(w, trace[0])
    && forall i :: 0 <= i < |turns| ==> InStep(w, trace[i]) ==> trace[i + 1] == Step(w, trace[i], turns[i])
  }

  ghost function Step<O>(w: World<O>, s: State<O>, t: Turn): State<O>
    requires InStep(w, s)
  {
    Sync(w, s, t).0
  }

  lemma {:induction false} AlwaysInStep<O>(w: World<O>, trace: seq<State<O>>, turns: seq<Turn>, n: nat)
    requires IsRun(w, trace, turns) && n < |trace|
    ensures InStep(w, trace[n])
  {
    hide InStep, Sync;
    if n > 0 {
      AlwaysInStep(w, trace, turns, n - 1);
      StepInStep(w, trace[n - 1], turns[n - 1]);
    }
  }

  lemma StepInStep<O>(w: World<O>, s: State<O>, t: Turn)
    requires InStep(w, s)
    ensures InStep(w, Step(w, s, t))
  {
    hide Differs, InStep, Sync;
    SyncKeepsInStep(w, s, t);
  }

  // The panel is honest towards this run, and its tags identify content.
  ghost predicate HonestRun<O>(trace: seq<State<O>>, turns: seq<Turn>,
                                  usersOf: string -> seq<User>, configOf: string -> Option<NodeConfig>,
                                  users: seq<Served<seq<User>>>, configs: seq<Served<Option<NodeConfig>>>) {
    && |users| == |configs| == |turns| == |trace| - 1
    && CacheOk(usersOf, trace[0].users) && CacheOk(configOf, trace[0].configs)
    && forall i :: 0 <= i < |turns| ==>
         && Identifies(usersOf, users[i]) && Honest(users[i], trace[i].users.tag, turns[i].users)
         && Identifies(configOf, configs[i]) && Honest(configs[i], trace[i].configs.tag, turns[i].config)
  }

  // Both fetches of a turn succeed, by 200 or by 304.
  predicate Fetched(t: Turn) {
    (t.users.Good? || t.users.NotModified?) && (t.config.Good? || t.config.NotModified?)
  }

  lemma SyncCaches<O>(w: World<O>, s: State<O>, t: Turn)
    requires InStep(w, s)
    ensures Step(w, s, t).users == Receive(s.users, t.users).0
    ensures Step(w, s, t).configs
         == if Receive(s.users, t.users).1.Some? then Receive(s.configs, t.config).0 else s.configs
  {
  }

  lemma {:induction false} CachesStayOk<O>(w: World<O>, trace: seq<State<O>>, turns: seq<Turn>,
                                              usersOf: string -> seq<User>, configOf: string -> Option<NodeConfig>,
                                              users: seq<Served<seq<User>>>, configs: seq<Served<Option<NodeConfig>>>,
                                              n: nat)
    requires IsRun(w, trace, turns) && HonestRun(trace, turns, usersOf, configOf, users, configs) && n < |trace|
    ensures CacheOk(usersOf, trace[n].users) && CacheOk(configOf, trace[n].configs)
  {
    hide InStep, Step, Receive, Honest, Identifies, CacheOk;
    if n > 0 {
      var k := n - 1;
      CachesStayOk(w, trace, turns, usersOf, configOf, users, configs, k);
      AlwaysInStep(w, trace, turns, k);
      SyncCaches(w, trace[k], turns[k]);
      ReceiveCurrent(usersOf, trace[k].users, users[k], turns[k].users);
      ReceiveCurrent(configOf, trace[k].configs, configs[k], turns[k].config);
    }
  }

  // Whatever happened before, a Sync whose fetches succeed sees what the panel
  // serves now, even when both answers are 304.
  lemma SeesThePanel<O>(w: World<O>, trace: seq<State<O>>, turns: seq<Turn>,
                           usersOf: string -> seq<User>, configOf: string -> Option<NodeConfig>,
                           users: seq<Served<seq<User>>>, configs: seq<Served<Option<NodeConfig>>>, n: nat)
    requires IsRun(w, trace, turns) && HonestRun(trace, turns, usersOf, configOf, users, configs)
    requires n < |turns| && Fetched(turns[n])
    ensures Seen(trace[n], turns[n]) == (Some(users[n].content), configs[n].content)
  {
    hide InStep, Step, Honest, Identifies, CacheOk;
    CachesStayOk(w, trace, turns, usersOf, configOf, users, configs, n);
    ReceiveCurrent(usersOf, trace[n].users, users[n], turns[n].users);
    ReceiveCurrent(configOf, trace[n].configs, configs[n], turns[n].config);
  }

  // Reconciliation: in every run, with any failures before, a Sync whose fetches
  // succeed tries a reload exactly when what the panel serves differs, by hash,
  // from what the engine has stored. A reload that failed is tried again.
  lemma Reconciles<O>(w: World<O>, trace: seq<State<O>>, turns: seq<Turn>,
                         usersOf: string -> seq<User>, configOf: string -> Option<NodeConfig>,
                         users: seq<Served<seq<User>>>, configs: seq<Served<Option<NodeConfig>>>, n: nat)
    requires IsRun(w, trace, turns) && HonestRun(trace, turns, usersOf, configOf, users, configs)
    requires n < |turns| && Fetched(turns[n]) && configs[n].content.Some?
    ensures InStep(w, trace[n])
    ensures Sync(w, trace[n], turns[n]).1.Attempted? <==>
        Differs(w, trace[n].engine, users[n].content, configs[n].content)
  {
    hide InStep, Step, Honest, Identifies, CacheOk, Differs;
    AlwaysInStep(w, trace, turns, n);
    SeesThePanel(w, trace, turns, usersOf, configOf, users, configs, n);
    SyncKeepsInStep(w, trace[n], turns[n]);
  }
}
