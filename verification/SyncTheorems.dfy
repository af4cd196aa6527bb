// What reconciliation achieves, and what it leaves undone.

module SyncTheorems {
  import opened Options
  import opened Panel
  import opened Config
  import opened Client
  import opened Encoding
  import opened ConfigHash
  import opened SyncSpec
  import E = EngineSpec

  // The node's own world: its option builder and its hashes.
  ghost function NodeWorld<A, R>(p: Parsers<A, R>, parse: JsonParser, clashAPI: string, googleIPv6: bool,
                                 logLevel: string): World<SingBox<A, R>> {
    World(E.NodeSite(p, clashAPI, googleIPv6), HashUsers, ConfigHasher(parse), logLevel)
  }

  // The engine's stored state builds what the panel's state builds, up to the
  // order of users and short IDs.
  ghost predicate Caught<A, R>(w: World<SingBox<A, R>>, e: E.State<SingBox<A, R>>, users: seq<User>,
                               config: Option<NodeConfig>) {
    SameResult(E.Build(w.site, e.config, e.users, e.logLevel), E.Build(w.site, config, users, w.logLevel))
  }

  // What makes a skipped reload safe: UUIDs without '|', header texts without NUL,
  // short IDs of one length, and comparable routes.
  ghost predicate Comparable<A, R>(p: Parsers<A, R>, parse: JsonParser, a: NodeConfig, b: NodeConfig,
                                   au: seq<User>, bu: seq<User>, n: nat) {
    && UsersOk(au) && UsersOk(bu) && ConfigOk(a, n) && ConfigOk(b, n)
    && RoutesComparable(parse, a, b) && (a.routes == b.routes || RoutesByValue(p, parse))
  }

  // After a Sync that sees users and a configuration, the engine's stored state is
  // caught up with them unless a reload was tried and failed.
  lemma CaughtUpUnlessFailed<A, R>(p: Parsers<A, R>, parse: JsonParser,
                                   clashAPI: string, googleIPv6: bool, logLevel: string,
                                   s: State<SingBox<A, R>>, t: Turn, users: seq<User>, config: NodeConfig, n: nat)
    requires var w := NodeWorld(p, parse, clashAPI, googleIPv6, logLevel);
      && InStep(w, s) && Seen(s, t) == (Some(users), Some(config))
      && (!Differs(w, s.engine, users, Some(config)) ==>
          Comparable(p, parse, s.engine.config.value, config, s.engine.users, users, n))
    ensures var w := NodeWorld(p, parse, clashAPI, googleIPv6, logLevel);
      var (s', end) := Sync(w, s, t);
      !end.Attempted? || end.reload.Done? ==> Caught(w, s'.engine, users, Some(config))
  {
    hide E.Reload, E.Sound, E.Build, Comparable, NodeWorld;
    var w := NodeWorld(p, parse, clashAPI, googleIPv6, logLevel);
    SyncKeepsInStep(w, s, t);
    if !Differs(w, s.engine, users, Some(config)) {
      SkippedIsCaught(p, parse, clashAPI, googleIPv6, logLevel, s, users, config, n);
    }
  }

  lemma SkippedIsCaught<A, R>(p: Parsers<A, R>, parse: JsonParser, clashAPI: string, googleIPv6: bool, logLevel: string,
                              s: State<SingBox<A, R>>, users: seq<User>, config: NodeConfig, n: nat)
    requires var w := NodeWorld(p, parse, clashAPI, googleIPv6, logLevel);
      InStep(w, s) && !Differs(w, s.engine, users, Some(config))
    requires Comparable(p, parse, s.engine.config.value, config, s.engine.users, users, n)
    ensures Caught(NodeWorld(p, parse, clashAPI, googleIPv6, logLevel), s.engine, users, Some(config))
  {
    hide HashUsers, HashConfig, BuildConfig, ConfigOk, UsersOk, E.Sound, RoutesComparable, RoutesByValue, E.NodeSite,
         E.Build;
    var site := Settings(logLevel, clashAPI, googleIPv6);
    E.NodeBuild(p, clashAPI, googleIPv6, s.engine.config, s.engine.users, logLevel);
    E.NodeBuild(p, clashAPI, googleIPv6, Some(config), users, logLevel);
    SkipIsSound(p, parse, site, s.engine.config.value, config, s.engine.users, users, n);
  }

  // No reload without a change: a Sync that sees the users and the configuration the
  // engine has stored, in whatever order the panel lists users and short IDs and
  // however it writes the routes, leaves the engine alone and drops no connection.
  lemma SameContentIsUnchanged<A, R>(p: Parsers<A, R>, parse: JsonParser,
                                     clashAPI: string, googleIPv6: bool, logLevel: string,
                                     s: State<SingBox<A, R>>, t: Turn, users: seq<User>, config: NodeConfig)
    requires var w := NodeWorld(p, parse, clashAPI, googleIPv6, logLevel);
      InStep(w, s) && Seen(s, t) == (Some(users), Some(config))
    requires SameContent(parse, s.engine.config.value, config)
    requires DistinctIDs(s.engine.users) && multiset(HashedAll(s.engine.users)) == multiset(HashedAll(users))
    ensures var w := NodeWorld(p, parse, clashAPI, googleIPv6, logLevel);
      var (s', end) := Sync(w, s, t);
      end == Unchanged && s'.engine == s.engine && s'.limited == users
  {
    hide E.Reload, E.Sound, E.Build, HashUsers, HashConfig, SameContent, HashedAll, E.NodeSite;
    SameContentSameHash(parse, s.engine.config.value, config);
    SameUsersSameHash(s.engine.users, users);
  }

  // With a library that never fails and a configuration that builds, a Sync ends
  // with a box running exactly when one ran before or the panel's state differs
  // from the stored one: it does not restart a node that is down.
  lemma RunningAfterSyncIff<O>(w: World<O>, s: State<O>, t: Turn, users: seq<User>, config: NodeConfig)
    requires InStep(w, s) && Seen(s, t) == (Some(users), Some(config))
    requires t.chance.create && t.chance.start && E.Build(w.site, Some(config), users, w.logLevel).Ok?
    ensures Sync(w, s, t).0.engine.instance.Some?
       <==> s.engine.instance.Some? || Differs(w, s.engine, users, Some(config))
  {
  }

  const FAILS := E.Chance(true, false)
  const WORKS := E.Chance(true, true)

  // How a node gets down and stays down: the panel changes to other users, the
  // reload and its rollback both fail, and the panel goes back.
  lemma DownAndSkipped<O>(w: World<O>, s: State<O>, other: seq<User>)
    requires InStep(w, s) && w.hashUsers(other) != w.hashUsers(s.engine.users)
    requires E.Build(w.site, s.engine.config, other, w.logLevel).Ok?
    ensures var change := Turn(Good("", other), Good("", s.engine.config), FAILS, FAILS);
      var s1 := Sync(w, s, change).0;
      var restore := Turn(Good("", s.engine.users), Good("", s.engine.config), WORKS, WORKS);
      s1.engine.instance.None? && InStep(w, s1)
      && Sync(w, s1, restore).1 == Unchanged && Sync(w, s1, restore).0.engine.instance.None?
  {
    hide E.Build;
    var change := Turn(Good("", other), Good("", s.engine.config), FAILS, FAILS);
    SyncKeepsInStep(w, s, change);
    E.ReloadOutcome(w.site, s.engine, s.engine.config, other, w.logLevel, change.chance, change.back);
    E.ReloadSound(w.site, s.engine, s.engine.config, other, w.logLevel, change.chance, change.back);
    var s1 := Sync(w, s, change).0;
    var restore := Turn(Good("", s.engine.users), Good("", s.engine.config), WORKS, WORKS);
    SyncKeepsInStep(w, s1, restore);
  }
}
