// Connections entering and leaving under concurrency. Check reads the user under
// one lock and decides under another, and Register is a third critical section,
// so each is an event of its own; any number of connections interleave. A
// connection goes by a tag of its own, whatever its connection ID.

module Admission {
  import opened Options
  import opened Sorting
  import opened Panel
  import opened LimiterIndex
  import S = LimiterSpec
  import R = Rates

  datatype Arrival = Arrival(meta: S.ConnMeta, user: User)

  // looking: user record read, not decided; admitted: allowed, not registered;
  // live: registered, not closed. All by tag.
  datatype Sys = Sys(lim: S.State, looking: map<string, Arrival>, admitted: S.Conns, live: S.Conns)

  datatype Event =
    | Arrive(tag: string, meta: S.ConnMeta)
    | Decide(tag: string, now: R.Time)
    | Register(tag: string)
    | Close(tag: string)
    | UpdateUsers(users: seq<User>, now: R.Time)
    | UpdateAlive(alive: map<int, seq<string>>)
    | BuildAlive

  // A tag names one connection at a time.
  predicate InUse(s: Sys, tag: string) {
    tag in s.looking || tag in s.admitted || tag in s.live
  }

  function Next(cfg: S.Config, s: Sys, e: Event): Sys {
    match e
    case Arrive(tag, meta) =>
      var u := S.Name(meta);
      if u == "" || u !in s.lim.userByName || InUse(s, tag) then s
      else s.(looking := s.looking[tag := Arrival(meta, s.lim.userByName[u])])
    case Decide(id, now) => if id in s.looking then DecideOne(cfg, s, id, now) else s
    case Register(id) =>
      if id !in s.admitted then s
      else Sys(S.Register(s.lim, s.admitted[id]), s.looking, s.admitted - {id}, s.live[id := s.admitted[id]])
    case Close(id) =>
      if id !in s.live then s
      else s.(lim := S.Unregister(s.lim, s.live[id]), live := s.live - {id})
    case UpdateUsers(users, now) => s.(lim := S.UpdateUsers(s.lim, cfg, users, now))
    case UpdateAlive(alive) => s.(lim := S.UpdateAliveList(s.lim, alive))
    case BuildAlive => s.(lim := S.BuildAlive(s.lim))
  }

  function DecideOne(cfg: S.Config, s: Sys, id: string, now: R.Time): Sys
    requires id in s.looking
  {
    var a := s.looking[id];
    var (lim, d) := S.Decide(s.lim, cfg, a.user, S.Name(a.meta), a.meta.sourceIP, now);
    Sys(lim, s.looking - {id}, if d.Allow? then s.admitted[id := a.meta] else s.admitted, s.live)
  }

  function Run(cfg: S.Config, s: Sys, run: seq<Event>): Sys
    decreases run
  {
    if run == [] then s else Run(cfg, Next(cfg, s, run[0]), run[1..])
  }

  // ---- Well-formedness ----

  // Whatever the connection IDs: the counts are those of the live connections.
  ghost predicate Ok(s: Sys) {
    && CountsAgree(s.lim.activeIPsCount, s.live)
    && (forall tag :: tag in s.live ==> S.Name(s.live[tag]) != "")
    && (forall tag :: tag in s.admitted ==> S.Name(s.admitted[tag]) != "")
    && (forall tag :: tag in s.looking ==> S.Name(s.looking[tag].meta) != "")
    && s.looking.Keys !! s.admitted.Keys && s.looking.Keys !! s.live.Keys && s.admitted.Keys !! s.live.Keys
  }

  lemma NextOk(cfg: S.Config, s: Sys, e: Event)
    requires Ok(s)
    ensures Ok(Next(cfg, s, e))
  {
    hide S.Name, CountsAgree, S.Register, S.Unregister, S.Decide, S.UserTable, S.Online;
    match e
    case Arrive(tag, meta) =>
    case Decide(tag, now) =>
      if tag in s.looking {
        var a := s.looking[tag];
        DecideKeepsConnections(s.lim, cfg, a.user, S.Name(a.meta), a.meta.sourceIP, now);
      }
    case Register(tag) =>
      if tag in s.admitted {
        RegisterCounts(s.lim, s.live, tag, s.admitted[tag]);
      }
    case Close(tag) =>
      if tag in s.live {
        UnregisterCounts(s.lim, s.live, tag);
      }
    case UpdateUsers(users, now) =>
    case UpdateAlive(alive) =>
    case BuildAlive =>
  }

  // One tracker: connections in use have distinct IDs, so the ID can be the tag.
  ghost predicate OwnID(e: Event) {
    e.Arrive? ==> e.tag == e.meta.connID
  }

  ghost predicate OneTracker(run: seq<Event>) {
    forall i :: 0 <= i < |run| ==> OwnID(run[i])
  }

  // With one tracker all indexes are those of the live connections.
  ghost predicate Wf(s: Sys) {
    && Agrees(s.lim, s.live)
    && LiveOk(s.admitted)
    && (forall tag :: tag in s.looking ==> s.looking[tag].meta.connID == tag && S.Name(s.looking[tag].meta) != "")
    && s.looking.Keys !! s.admitted.Keys && s.looking.Keys !! s.live.Keys && s.admitted.Keys !! s.live.Keys
  }

  lemma WfOk(s: Sys)
    requires Wf(s)
    ensures Ok(s)
  {
  }

  lemma AgreesIds(s: S.State, live: S.Conns)
    requires Agrees(s, live)
    ensures LiveOk(live)
  {
  }

  lemma NextWf(cfg: S.Config, s: Sys, e: Event)
    requires Wf(s) && OwnID(e)
    ensures Wf(Next(cfg, s, e))
  {
    hide S.Name, Agrees, S.Register, S.Unregister, S.Decide;
    match e
    case Arrive(tag, meta) =>
    case Decide(id, now) =>
      if id in s.looking {
        var a := s.looking[id];
        DecideAgrees(s.lim, s.live, cfg, a.user, S.Name(a.meta), a.meta.sourceIP, now);
      }
    case Register(id) =>
      if id in s.admitted {
        RegisterAgrees(s.lim, s.live, s.admitted[id]);
      }
    case Close(id) =>
      if id in s.live {
        AgreesIds(s.lim, s.live);
        UnregisterAgrees(s.lim, s.live, s.live[id]);
      }
    case UpdateUsers(users, now) => SameConnections(s.lim, S.UpdateUsers(s.lim, cfg, users, now), s.live);
    case UpdateAlive(alive) => SameConnections(s.lim, S.UpdateAliveList(s.lim, alive), s.live);
    case BuildAlive => SameConnections(s.lim, S.BuildAlive(s.lim), s.live);
  }

  lemma SameConnections(s: S.State, s': S.State, live: S.Conns)
    requires Agrees(s, live) && s'.activeConnByUser == s.activeConnByUser
    requires s'.activeConnByIP == s.activeConnByIP && s'.activeIPsCount == s.activeIPsCount
    ensures Agrees(s', live)
  {
  }

  // ---- What an allowed Check saw ----

  lemma AllowedSaw(s: S.State, cfg: S.Config, user: User, userName: string, ip: Option<S.IP>, now: R.Time)
    requires S.Decide(s, cfg, user, userName, ip, now).1.Allow?
    ensures !S.UserFull(s, cfg, userName) && !S.IPFull(s, cfg, ip) && !S.DevicesFull(s, user, userName, ip)
  {
    hide S.RateCheck, S.DevicesFull;
    RateCheckChanges(s, cfg, userName, ip, now);
  }

  // ---- Sizes ----

  lemma OneMore<K, V>(m: map<K, V>, k: K, v: V)
    requires k !in m
    ensures |m[k := v]| == |m| + 1
  {
  }

  lemma SubmapSize<K, V>(a: map<K, V>, b: map<K, V>)
    requires a.Keys <= b.Keys
    ensures |a| <= |b|
  {
    SubsetSize(a.Keys, b.Keys);
  }

  // ---- Runs ----

  // At most k connections are between Check and Register at any time.
  ghost predicate AtMost(cfg: S.Config, k: nat, s: Sys, run: seq<Event>)
    decreases run
  {
    |s.admitted| <= k && (run == [] || AtMost(cfg, k, Next(cfg, s, run[0]), run[1..]))
  }

  const START := Sys(S.EMPTY, map[], map[], map[])

  lemma StartWf()
    ensures Wf(START)
  {
  }

  lemma {:induction false} RunWf(cfg: S.Config, s: Sys, run: seq<Event>)
    requires Wf(s) && OneTracker(run)
    ensures Wf(Run(cfg, s, run))
    decreases run
  {
    hide Wf, Next;
    if run != [] {
      assert OwnID(run[0]);
      NextWf(cfg, s, run[0]);
      RunWf(cfg, Next(cfg, s, run[0]), run[1..]);
    }
  }

  lemma {:induction false} RunOk(cfg: S.Config, s: Sys, run: seq<Event>)
    requires Ok(s)
    ensures Ok(Run(cfg, s, run))
    decreases run
  {
    hide Ok, Next;
    if run != [] {
      NextOk(cfg, s, run[0]);
      RunOk(cfg, Next(cfg, s, run[0]), run[1..]);
    }
  }

  lemma StartOk()
    ensures Ok(START)
  {
  }

  // In every reachable state, whatever interleaves and however IDs repeat, a user's
  // counted addresses are exactly those of its live connections.
  lemma LiveIPsAlwaysExact(cfg: S.Config, run: seq<Event>, u: string, ip: string)
    ensures var s := Run(cfg, START, run);
      CountsAgree(s.lim.activeIPsCount, s.live)
      && (ip in S.LiveIPs(s.lim, u) <==>
            exists tag :: tag in s.live && S.Name(s.live[tag]) == u
                          && s.live[tag].sourceIP.Some? && s.live[tag].sourceIP.value == ip)
  {
    hide CountsAgree, Next;
    StartOk();
    RunOk(cfg, START, run);
    LiveIPsExact(Run(cfg, START, run).lim, Run(cfg, START, run).live, u, ip);
  }

  // With one tracker all three indexes agree with the live connections in every
  // reachable state, whatever interleaves.
  lemma IndexesAlwaysAgree(cfg: S.Config, run: seq<Event>)
    requires OneTracker(run)
    ensures Agrees(Run(cfg, START, run).lim, Run(cfg, START, run).live)
  {
    hide Agrees, Next;
    StartWf();
    RunWf(cfg, START, run);
  }
}
