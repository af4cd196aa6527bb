// The lifecycle of the embedded proxy: what each engine call does to the boxes
// ever created and to the stored configuration, for every choice of failures.

module EngineSpec {
  import opened Options
  import opened Panel
  import opened Config

  datatype Status = Created | Running | Closed

  datatype Box<O> = Box(status: Status, options: O)

  // How options are built from a configuration, users and a log level.
  datatype Site<!O> = Site(build: (NodeConfig, seq<User>, string) -> Result<O>)

  // pool: every box created so far; instance: the engine's box, by its place in it.
  datatype State<O> = State(pool: seq<Box<O>>, instance: Option<nat>,
                               users: seq<User>, config: Option<NodeConfig>, logLevel: string)

  // Whether the library creates a box from valid options, and whether it starts.
  datatype Chance = Chance(create: bool, start: bool)

  datatype Outcome = Done | BuildFailed | RolledBack | RollbackFailed

  function Build<O>(site: Site<O>, config: Option<NodeConfig>, users: seq<User>, logLevel: string): Result<O> {
    if config.None? then Err(NilConfig) else site.build(config.value, users, logLevel)
  }

  // The node's own builder.
  function NodeSite<A, R>(p: Parsers<A, R>, clashAPI: string, googleIPv6: bool): Site<SingBox<A, R>> {
    Site((config, users, logLevel) => BuildConfig(p, Settings(logLevel, clashAPI, googleIPv6), Some(config), users))
  }

  lemma NodeBuild<A, R>(p: Parsers<A, R>, clashAPI: string, googleIPv6: bool, config: Option<NodeConfig>,
                        users: seq<User>, logLevel: string)
    ensures Build(NodeSite(p, clashAPI, googleIPv6), config, users, logLevel)
         == BuildConfig(p, Settings(logLevel, clashAPI, googleIPv6), config, users)
  {
  }

  function SetStatus<O>(s: State<O>, i: nat, status: Status): State<O>
    requires i < |s.pool|
  {
    s.(pool := s.pool[i := s.pool[i].(status := status)])
  }

  function Add<O>(s: State<O>, options: O): State<O> {
    s.(pool := s.pool + [Box(Created, options)])
  }

  function Store<O>(s: State<O>, i: nat, config: Option<NodeConfig>, users: seq<User>, logLevel: string): State<O> {
    s.(instance := Some(i), users := users, config := config, logLevel := logLevel)
  }

  // The last box of the pool is started; it becomes the instance or is closed.
  function StartLast<O>(s: State<O>, config: Option<NodeConfig>, users: seq<User>, logLevel: string, ok: bool): State<O>
    requires |s.pool| > 0
  {
    var i := |s.pool| - 1;
    if ok then Store(SetStatus(s, i, Running), i, config, users, logLevel) else SetStatus(s, i, Closed)
  }

  function Start<O>(site: Site<O>, s: State<O>, config: Option<NodeConfig>, users: seq<User>, logLevel: string,
                       chance: Chance): (State<O>, bool) {
    var options := Build(site, config, users, logLevel);
    if options.Err? || !chance.create then (s, false)
    else (StartLast(Add(s, options.value), config, users, logLevel, chance.start), chance.start)
  }

  function DropInstance<O>(s: State<O>): State<O>
    requires s.instance.Some? ==> s.instance.value < |s.pool|
  {
    if s.instance.Some? then SetStatus(s, s.instance.value, Closed).(instance := None) else s
  }

  function Reload<O>(site: Site<O>, s: State<O>, config: Option<NodeConfig>, users: seq<User>, logLevel: string,
                        chance: Chance, back: Chance): (State<O>, Outcome)
    requires s.instance.Some? ==> s.instance.value < |s.pool|
  {
    var options := Build(site, config, users, logLevel);
    if options.Err? || !chance.create then (s, BuildFailed)
    else
      var i := |s.pool|;
      var s1 := DropInstance(Add(s, options.value));
      if chance.start then (Store(SetStatus(s1, i, Running), i, config, users, logLevel), Done)
      else
        var (s2, ok) := Restore(site, SetStatus(s1, i, Closed), s.config, s.users, s.logLevel, back);
        (s2, if ok then RolledBack else RollbackFailed)
  }

  function Restore<O>(site: Site<O>, s: State<O>, config: Option<NodeConfig>, users: seq<User>, logLevel: string,
                         chance: Chance): (State<O>, bool) {
    if config.None? then (s, false) else Start(site, s, config, users, logLevel, chance)
  }

  function Close<O>(s: State<O>): State<O>
    requires s.instance.Some? ==> s.instance.value < |s.pool|
  {
    DropInstance(s).(users := [], config := None, logLevel := "")
  }

  // ---- Between calls ----

  // At most one box runs, and it is the instance; the instance runs, built from the
  // stored configuration, users and log level; nothing is half started. What is
  // stored has been built once.
  ghost predicate Sound<O>(site: Site<O>, s: State<O>) {
    var built := Build(site, s.config, s.users, s.logLevel);
    && (forall i :: 0 <= i < |s.pool| && s.pool[i].status != Closed ==> s.instance == Some(i))
    && (s.instance.Some? ==> s.instance.value < |s.pool| && s.config.Some? && built.Ok?
                             && s.pool[s.instance.value] == Box(Running, built.value))
    && (s.config.Some? ==> built.Ok?)
  }

  // A new box can be started once nothing runs.
  lemma StartLastSound<O>(site: Site<O>, s: State<O>, config: Option<NodeConfig>, users: seq<User>, logLevel: string,
                             ok: bool)
    requires |s.pool| > 0 && s.instance.None?
    requires Build(site, config, users, logLevel) == Ok(s.pool[|s.pool| - 1].options)
    requires forall i :: 0 <= i < |s.pool| - 1 ==> s.pool[i].status == Closed
    requires s.config.Some? ==> Build(site, s.config, s.users, s.logLevel).Ok?
    ensures Sound(site, StartLast(s, config, users, logLevel, ok))
  {
  }

  // Start does not look at a running instance: it keeps the engine sound exactly
  // when there is none, or when the new box is not built or does not start.
  lemma StartSoundIff<O>(site: Site<O>, s: State<O>, config: Option<NodeConfig>, users: seq<User>, logLevel: string,
                            chance: Chance)
    requires Sound(site, s)
    ensures Sound(site, Start(site, s, config, users, logLevel, chance).0) <==>
              s.instance.None? || Build(site, config, users, logLevel).Err? || !chance.create || !chance.start
  {
  }

  // Adding a box and dropping the instance commute.
  lemma AddThenDrop<O>(s: State<O>, options: O)
    requires s.instance.Some? ==> s.instance.value < |s.pool|
    ensures DropInstance(Add(s, options)) == Add(DropInstance(s), options)
  {
  }

  // Every reload keeps the engine sound, whatever fails. It stores the new state
  // exactly when it is done, and keeps the old one otherwise.
  lemma ReloadSound<O>(site: Site<O>, s: State<O>, config: Option<NodeConfig>, users: seq<User>, logLevel: string,
                          chance: Chance, back: Chance)
    requires Sound(site, s)
    ensures var (s', outcome) := Reload(site, s, config, users, logLevel, chance, back);
      && Sound(site, s')
      && (outcome.BuildFailed? ==> s' == s)
      && (outcome.Done? ==> s'.instance.Some? && (s'.config, s'.users, s'.logLevel) == (config, users, logLevel))
      && (!outcome.Done? ==> (s'.config, s'.users, s'.logLevel) == (s.config, s.users, s.logLevel))
      && (outcome.RolledBack? ==> s'.instance.Some?)
      && (outcome.RollbackFailed? ==> s'.instance.None?)
  {
    hide Build;
    var options := Build(site, config, users, logLevel);
    if options.Ok? && chance.create {
      var i := |s.pool|;
      AddThenDrop(s, options.value);
      var s1 := Add(DropInstance(s), options.value);
      StartLastSound(site, s1, config, users, logLevel, chance.start);
      if !chance.start {
        StartSoundIff(site, SetStatus(s1, i, Closed), s.config, s.users, s.logLevel, back);
      }
    }
  }

  // Which of the four ends a reload has is decided by the configuration and the
  // library: a rollback fails only by the library, or when nothing was stored.
  lemma ReloadOutcome<O>(site: Site<O>, s: State<O>, config: Option<NodeConfig>, users: seq<User>, logLevel: string,
                            chance: Chance, back: Chance)
    requires Sound(site, s)
    ensures var outcome := Reload(site, s, config, users, logLevel, chance, back).1;
      var built := Build(site, config, users, logLevel).Ok? && chance.create;
      && (outcome.BuildFailed? <==> !built)
      && (outcome.Done? <==> built && chance.start)
      && (outcome.RolledBack? <==> built && !chance.start && s.config.Some? && back.create && back.start)
  {
  }

  // After Close nothing runs and nothing of the old state is left to go back to: a
  // later reload whose box does not start cannot roll back.
  lemma CloseSound<O>(site: Site<O>, s: State<O>)
    requires Sound(site, s)
    ensures Sound(site, Close(s)) && forall i :: 0 <= i < |s.pool| ==> Close(s).pool[i].status == Closed
    ensures Close(s).instance.None? && (Close(s).config, Close(s).users, Close(s).logLevel) == (None, [], "")
    ensures forall config, users, logLevel, chance, back ::
              !Reload(site, Close(s), config, users, logLevel, chance, back).1.RolledBack?
  {
  }

  // A start succeeds exactly when the state builds and the library plays along. It
  // then runs a new box of that state and stores it; otherwise nothing it stores or
  // runs changes.
  lemma StartOutcome<O>(site: Site<O>, s: State<O>, config: Option<NodeConfig>, users: seq<User>, logLevel: string,
                           chance: Chance)
    ensures var (s', ok) := Start(site, s, config, users, logLevel, chance);
      var built := Build(site, config, users, logLevel);
      && (ok <==> built.Ok? && chance.create && chance.start)
      && (ok ==> s' == State(s.pool + [Box(Running, built.value)], Some(|s.pool|), users, config, logLevel))
      && (!ok ==> (s'.instance, s'.config, s'.users, s'.logLevel) == (s.instance, s.config, s.users, s.logLevel)
                  && |s.pool| <= |s'.pool| && s'.pool[..|s.pool|] == s.pool
                  && forall i :: |s.pool| <= i < |s'.pool| ==> s'.pool[i].status == Closed)
  {
    var built := Build(site, config, users, logLevel);
    if built.Ok? && chance.create {
      var s1 := Add(s, built.value);
      assert s1.pool[|s.pool| := Box(Running, built.value)] == s.pool + [Box(Running, built.value)];
    }
  }

  // ---- Runs of calls ----

  datatype Call =
    | CallStart(config: Option<NodeConfig>, users: seq<User>, logLevel: string, chance: Chance)
    | CallReload(config: Option<NodeConfig>, users: seq<User>, logLevel: string, chance: Chance, back: Chance)
    | CallClose

  function Next<O>(site: Site<O>, s: State<O>, c: Call): State<O>
    requires s.instance.Some? ==> s.instance.value < |s.pool|
  {
    match c
    case CallStart(config, users, logLevel, chance) => Start(site, s, config, users, logLevel, chance).0
    case CallReload(config, users, logLevel, chance, back) => Reload(site, s, config, users, logLevel, chance, back).0
    case CallClose => Close(s)
  }

  // The states along a run in which Start is called only when nothing runs.
  ghost predicate IsTrace<O>(site: Site<O>, trace: seq<State<O>>, calls: seq<Call>) {
    && |trace| == |calls| + 1 && trace[0] == State([], None, [], None, "")
    && forall i :: 0 <= i < |calls| ==>
         && (trace[i].instance.Some? ==> trace[i].instance.value < |trace[i].pool|)
         && trace[i + 1] == Next(site, trace[i], calls[i])
         && (calls[i].CallStart? ==> trace[i].instance.None?)
  }

  lemma {:induction false} AlwaysSound<O>(site: Site<O>, trace: seq<State<O>>, calls: seq<Call>, n: nat)
    requires IsTrace(site, trace, calls) && n < |trace|
    ensures Sound(site, trace[n])
  {
    hide Sound, Start, Reload, Close;
    if n == 0 {
      FreshSound(site);
    } else {
      AlwaysSound(site, trace, calls, n - 1);
      NextSound(site, trace[n - 1], calls[n - 1]);
    }
  }

  lemma FreshSound<O>(site: Site<O>)
    ensures Sound(site, State([], None, [], None, ""))
  {
  }

  lemma NextSound<O>(site: Site<O>, s: State<O>, c: Call)
    requires Sound(site, s) && (c.CallStart? ==> s.instance.None?)
    ensures Sound(site, Next(site, s, c))
  {
    hide Build, Start, Reload, Close;
    match c
    case CallStart(config, users, logLevel, chance) => StartSoundIff(site, s, config, users, logLevel, chance);
    case CallReload(config, users, logLevel, chance, back) =>
      ReloadSound(site, s, config, users, logLevel, chance, back);
    case CallClose => CloseSound(site, s);
  }
}
