// Building runs of the admission machine stage by stage: one user connects, one
// connection at a time or many at once, reports and leaves.

module Stages {
  import opened Options
  import opened Sorting
  import opened Strings
  import opened Panel
  import opened LimiterIndex
  import opened Admission
  import D = DeviceLimit
  import S = LimiterSpec
  import Identity

  // ---- Composing runs ----

  lemma {:induction false} RunAppend(cfg: S.Config, k: nat, s: Sys, a: seq<Event>, b: seq<Event>)
    requires AtMost(cfg, k, s, a) && AtMost(cfg, k, Run(cfg, s, a), b)
    ensures Run(cfg, s, a + b) == Run(cfg, Run(cfg, s, a), b) && AtMost(cfg, k, s, a + b)
    decreases a
  {
    hide Next;
    if a == [] {
      assert a + b == b;
    } else {
      assert (a + b)[0] == a[0] && (a + b)[1..] == a[1..] + b;
      RunAppend(cfg, k, Next(cfg, s, a[0]), a[1..], b);
    }
  }

  lemma OneEvent(cfg: S.Config, k: nat, s: Sys, e: Event)
    requires |s.admitted| <= k && |Next(cfg, s, e).admitted| <= k
    ensures Run(cfg, s, [e]) == Next(cfg, s, e) && AtMost(cfg, k, s, [e])
  {
  }

  lemma NoEvent(cfg: S.Config, k: nat, s: Sys)
    requires |s.admitted| <= k
    ensures Run(cfg, s, []) == s && AtMost(cfg, k, s, [])
  {
  }

  // One tracker, and nothing from the panel.
  ghost predicate Plain(run: seq<Event>) {
    forall i :: 0 <= i < |run| ==> OwnID(run[i]) && !run[i].UpdateUsers? && !run[i].UpdateAlive?
  }

  lemma PlainAppend(a: seq<Event>, b: seq<Event>)
    requires Plain(a) && Plain(b)
    ensures Plain(a + b)
  {
  }

  // ---- A user between connections ----

  // Nobody is inside Check, and this user is on record.
  ghost predicate Idle(s: Sys, u: string, user: User) {
    && Wf(s) && s.looking == map[] && u != ""
    && u in s.lim.userByName && s.lim.userByName[u] == user
  }

  // What the panel and the last report said.
  ghost predicate SameTables(s: S.State, t: S.State) {
    && t.userByName == s.userByName && t.oldUserOnline == s.oldUserOnline
    && t.remoteUserOnline == s.remoteUserOnline && t.aliveList == s.aliveList
  }

  predicate RatesOff(cfg: S.Config) {
    cfg.maxNewConnPerUser <= 0 && cfg.maxNewConnPerIP <= 0
  }

  ghost predicate May(cfg: S.Config, s: S.State, u: string, user: User, ip: Option<S.IP>) {
    !S.UserFull(s, cfg, u) && !S.IPFull(s, cfg, ip) && !S.DevicesFull(s, user, u, ip)
  }

  ghost predicate New(s: Sys, u: string, meta: S.ConnMeta) {
    S.Name(meta) == u && meta.connID !in s.live && meta.connID !in s.admitted
  }

  lemma DecideAllows(cfg: S.Config, s: S.State, u: string, user: User, ip: Option<S.IP>)
    requires RatesOff(cfg) && May(cfg, s, u, user, ip)
    ensures S.Decide(s, cfg, user, u, ip, 0).1.Allow?
  {
  }

  lemma MayKept(cfg: S.Config, s: S.State, t: S.State, u: string, user: User, ip: Option<S.IP>)
    requires KeepsConnections(s, t) && May(cfg, s, u, user, ip)
    ensures May(cfg, t, u, user, ip)
  {
  }

  // ---- Check, then Register ----

  function Admit(meta: S.ConnMeta): seq<Event> {
    [Arrive(meta.connID, meta)] + [Decide(meta.connID, 0)]
  }

  lemma ArriveIdle(cfg: S.Config, s: Sys, u: string, user: User, meta: S.ConnMeta)
    requires Idle(s, u, user) && New(s, u, meta)
    ensures Next(cfg, s, Arrive(meta.connID, meta)) == s.(looking := map[meta.connID := Arrival(meta, user)])
  {
  }

  lemma DecideIdle(cfg: S.Config, s: Sys, u: string, user: User, meta: S.ConnMeta)
    requires Idle(s, u, user) && New(s, u, meta) && RatesOff(cfg) && May(cfg, s.lim, u, user, meta.sourceIP)
    ensures var s' := Next(cfg, s.(looking := map[meta.connID := Arrival(meta, user)]), Decide(meta.connID, 0));
      && s'.looking == map[] && s'.admitted == s.admitted[meta.connID := meta] && s'.live == s.live
      && KeepsConnections(s.lim, s'.lim)
  {
    hide S.Name, Wf, S.Decide, May, KeepsConnections;
    DecideAllows(cfg, s.lim, u, user, meta.sourceIP);
    DecideKeepsConnections(s.lim, cfg, user, u, meta.sourceIP, 0);
  }

  lemma AdmitOne(cfg: S.Config, k: nat, s: Sys, u: string, user: User, meta: S.ConnMeta)
    requires Idle(s, u, user) && New(s, u, meta) && RatesOff(cfg) && May(cfg, s.lim, u, user, meta.sourceIP)
    requires |s.admitted| < k
    ensures AtMost(cfg, k, s, Admit(meta))
    ensures var s' := Run(cfg, s, Admit(meta));
      && Idle(s', u, user) && s'.live == s.live && s'.admitted == s.admitted[meta.connID := meta]
      && KeepsConnections(s.lim, s'.lim)
  {
    hide Next, S.Name, Wf, May, Run, AtMost;
    var s1 := s.(looking := map[meta.connID := Arrival(meta, user)]);
    ArriveIdle(cfg, s, u, user, meta);
    DecideIdle(cfg, s, u, user, meta);
    NextWf(cfg, s, Arrive(meta.connID, meta));
    NextWf(cfg, s1, Decide(meta.connID, 0));
    OneMore(s.admitted, meta.connID, meta);
    OneEvent(cfg, k, s, Arrive(meta.connID, meta));
    OneEvent(cfg, k, s1, Decide(meta.connID, 0));
    RunAppend(cfg, k, s, [Arrive(meta.connID, meta)], [Decide(meta.connID, 0)]);
  }

  lemma RegisterEvent(cfg: S.Config, s: Sys, id: string)
    requires id in s.admitted
    ensures Next(cfg, s, Register(id))
         == Sys(S.Register(s.lim, s.admitted[id]), s.looking, s.admitted - {id}, s.live[id := s.admitted[id]])
  {
  }

  lemma RegisterOne(cfg: S.Config, k: nat, s: Sys, u: string, user: User, id: string)
    requires Idle(s, u, user) && id in s.admitted && |s.admitted| <= k
    ensures AtMost(cfg, k, s, [Register(id)])
    ensures var s' := Run(cfg, s, [Register(id)]);
      && Idle(s', u, user) && s'.admitted == s.admitted - {id} && s'.live == s.live[id := s.admitted[id]]
      && SameTables(s.lim, s'.lim)
  {
    hide S.Name, S.Register, Wf, Next, Run, AtMost;
    NextWf(cfg, s, Register(id));
    RegisterEvent(cfg, s, id);
    D.RegisterKeeps(s.lim, s.admitted[id]);
    SubmapSize(s.admitted - {id}, s.admitted);
    OneEvent(cfg, k, s, Register(id));
  }

  // ---- Many at once ----

  function ByID(metas: seq<S.ConnMeta>): S.Conns {
    if metas == [] then map[] else ByID(metas[1..])[metas[0].connID := metas[0]]
  }

  function IDs(metas: seq<S.ConnMeta>): set<string> {
    set i | 0 <= i < |metas| :: metas[i].connID
  }

  ghost predicate AllNew(s: Sys, u: string, metas: seq<S.ConnMeta>) {
    && (forall i :: 0 <= i < |metas| ==> New(s, u, metas[i]))
    && (forall i, j :: 0 <= i < j < |metas| ==> metas[i].connID != metas[j].connID)
  }

  ghost predicate AllMay(cfg: S.Config, s: S.State, u: string, user: User, metas: seq<S.ConnMeta>) {
    forall i :: 0 <= i < |metas| ==> May(cfg, s, u, user, metas[i].sourceIP)
  }

  lemma FirstOf(cfg: S.Config, s: Sys, u: string, user: User, metas: seq<S.ConnMeta>)
    requires metas != [] && AllNew(s, u, metas) && AllMay(cfg, s.lim, u, user, metas)
    ensures New(s, u, metas[0]) && May(cfg, s.lim, u, user, metas[0].sourceIP)
  {
  }

  lemma RestNew(s: Sys, t: Sys, u: string, metas: seq<S.ConnMeta>)
    requires metas != [] && AllNew(s, u, metas)
    requires t.live.Keys + t.admitted.Keys <= s.live.Keys + s.admitted.Keys + {metas[0].connID}
    ensures AllNew(t, u, metas[1..])
  {
    hide S.Name;
    forall i | 0 <= i < |metas| - 1 ensures New(t, u, metas[1..][i]) {
      assert New(s, u, metas[i + 1]);
    }
  }

  lemma RestMay(cfg: S.Config, s: S.State, t: S.State, u: string, user: User, metas: seq<S.ConnMeta>)
    requires metas != [] && AllMay(cfg, s, u, user, metas) && KeepsConnections(s, t)
    ensures AllMay(cfg, t, u, user, metas[1..])
  {
    hide May;
    forall i | 0 <= i < |metas| - 1 ensures May(cfg, t, u, user, metas[1..][i].sourceIP) {
      MayKept(cfg, s, t, u, user, metas[i + 1].sourceIP);
    }
  }

  function AdmitAll(metas: seq<S.ConnMeta>): seq<Event> {
    if metas == [] then [] else Admit(metas[0]) + AdmitAll(metas[1..])
  }

  lemma {:induction false} AdmitAllPlain(metas: seq<S.ConnMeta>)
    ensures Plain(AdmitAll(metas))
  {
    if metas != [] {
      AdmitAllPlain(metas[1..]);
      assert Plain(Admit(metas[0]));
      PlainAppend(Admit(metas[0]), AdmitAll(metas[1..]));
    }
  }

  // Nobody registers before the last one has passed Check.
  lemma {:induction false} AdmitMany(cfg: S.Config, k: nat, s: Sys, u: string, user: User, metas: seq<S.ConnMeta>)
    requires Idle(s, u, user) && AllNew(s, u, metas) && AllMay(cfg, s.lim, u, user, metas) && RatesOff(cfg)
    requires |s.admitted| + |metas| <= k
    ensures AtMost(cfg, k, s, AdmitAll(metas))
    ensures var s' := Run(cfg, s, AdmitAll(metas));
      && Idle(s', u, user) && s'.live == s.live && s'.admitted == s.admitted + ByID(metas)
      && KeepsConnections(s.lim, s'.lim)
    decreases |metas|
  {
    hide Idle, Next, New, AllNew, AllMay, May, Admit, RatesOff, Run, AtMost, KeepsConnections;
    if metas == [] {
      NoEvent(cfg, k, s);
      KeepsItself(s.lim);
    } else {
      FirstOf(cfg, s, u, user, metas);
      AdmitOne(cfg, k, s, u, user, metas[0]);
      var s1 := Run(cfg, s, Admit(metas[0]));
      AdmittedGrows(s, u, metas[0]);
      RestNew(s, s1, u, metas);
      RestMay(cfg, s.lim, s1.lim, u, user, metas);
      AdmitMany(cfg, k, s1, u, user, metas[1..]);
      RunAppend(cfg, k, s, Admit(metas[0]), AdmitAll(metas[1..]));
      KeepsTransitive(s.lim, s1.lim, Run(cfg, s1, AdmitAll(metas[1..])).lim);
      IDsOfRest(s, u, metas);
      PutFirst(s.admitted, metas);
    }
  }

  lemma KeepsItself(s: S.State)
    ensures KeepsConnections(s, s)
  {
  }

  lemma AdmittedGrows(s: Sys, u: string, meta: S.ConnMeta)
    requires New(s, u, meta)
    ensures |s.admitted[meta.connID := meta]| == |s.admitted| + 1
  {
  }

  lemma {:induction false} ByIDKeys(metas: seq<S.ConnMeta>)
    ensures ByID(metas).Keys == IDs(metas)
  {
    if metas != [] {
      ByIDKeys(metas[1..]);
      assert IDs(metas) == {metas[0].connID} + IDs(metas[1..]);
    }
  }

  lemma IDsOfRest(s: Sys, u: string, metas: seq<S.ConnMeta>)
    requires metas != [] && AllNew(s, u, metas)
    ensures metas[0].connID !in ByID(metas[1..]) && metas[0].connID !in s.live
  {
    ByIDKeys(metas[1..]);
  }

  lemma PutFirst(m: S.Conns, metas: seq<S.ConnMeta>)
    requires metas != [] && metas[0].connID !in ByID(metas[1..])
    ensures m[metas[0].connID := metas[0]] + ByID(metas[1..]) == m + ByID(metas)
  {
  }

  lemma {:induction false} RegisterEveryone(cfg: S.Config, k: nat, s: Sys, u: string, user: User)
      returns (run: seq<Event>)
    requires Idle(s, u, user) && |s.admitted| <= k
    ensures AtMost(cfg, k, s, run) && Plain(run)
    ensures var s' := Run(cfg, s, run);
      Idle(s', u, user) && s'.admitted == map[] && s'.live == s.live + s.admitted && SameTables(s.lim, s'.lim)
    decreases |s.admitted|
  {
    hide Idle, Next, Run, AtMost, Plain;
    if s.admitted == map[] {
      NoEvent(cfg, k, s);
      NothingPlain();
      assert s.live + map[] == s.live;
      run := [];
    } else {
      var id :| id in s.admitted;
      RegisterOne(cfg, k, s, u, user, id);
      var rest := RegisterEveryone(cfg, k, Run(cfg, s, [Register(id)]), u, user);
      RunAppend(cfg, k, s, [Register(id)], rest);
      MoveOver(s.live, s.admitted, id);
      PlainEvent(Register(id));
      PlainAppend([Register(id)], rest);
      run := [Register(id)] + rest;
    }
  }

  lemma NothingPlain()
    ensures Plain([])
  {
  }

  lemma PlainEvent(e: Event)
    requires e.Register? || e.Close?
    ensures Plain([e])
  {
  }

  lemma MoveOver(live: S.Conns, admitted: S.Conns, id: string)
    requires id in admitted
    ensures live[id := admitted[id]] + (admitted - {id}) == live + admitted
  {
  }

  // All of them pass Check before any of them is registered.
  lemma Crowd(cfg: S.Config, k: nat, s: Sys, u: string, user: User, metas: seq<S.ConnMeta>) returns (run: seq<Event>)
    requires Idle(s, u, user) && AllNew(s, u, metas) && AllMay(cfg, s.lim, u, user, metas) && RatesOff(cfg)
    requires s.admitted == map[] && |metas| <= k
    ensures AtMost(cfg, k, s, run) && Plain(run)
    ensures var s' := Run(cfg, s, run);
      Idle(s', u, user) && s'.admitted == map[] && s'.live == s.live + ByID(metas) && SameTables(s.lim, s'.lim)
  {
    hide Idle, Next, AllNew, AllMay, RatesOff, Run, AtMost;
    AdmitMany(cfg, k, s, u, user, metas);
    AdmitAllPlain(metas);
    var s1 := Run(cfg, s, AdmitAll(metas));
    assert map[] + ByID(metas) == ByID(metas);
    CrowdSize(cfg, k, s, AdmitAll(metas));
    var rest := RegisterEveryone(cfg, k, s1, u, user);
    RunAppend(cfg, k, s, AdmitAll(metas), rest);
    PlainAppend(AdmitAll(metas), rest);
    run := AdmitAll(metas) + rest;
  }

  lemma {:induction false} CrowdSize(cfg: S.Config, k: nat, s: Sys, run: seq<Event>)
    requires AtMost(cfg, k, s, run)
    ensures |Run(cfg, s, run).admitted| <= k
    decreases run
  {
    hide Next;
    if run != [] {
      CrowdSize(cfg, k, Next(cfg, s, run[0]), run[1..]);
    }
  }

  // ---- One at a time ----

  // Every address was reported last, or there is room for all of them.
  ghost predicate DeviceRoom(s: Sys, u: string, user: User, metas: seq<S.ConnMeta>) {
    || user.deviceLimit <= 0
    || (forall i :: 0 <= i < |metas| && metas[i].sourceIP.Some? ==>
        metas[i].sourceIP.value in S.SetOf(s.lim.oldUserOnline, u))
    || (|D.Addresses(s.live, u)| + |metas| <= user.deviceLimit && OthersLeaveRoom(s.lim, u, user))
  }

  // The other three views that count against the device limit.
  predicate OthersLeaveRoom(s: S.State, u: string, user: User) {
    && |S.SetOf(s.oldUserOnline, u)| < user.deviceLimit && |S.SetOf(s.remoteUserOnline, user.id)| < user.deviceLimit
    && (user.id in s.aliveList ==> s.aliveList[user.id] < user.deviceLimit)
  }

  predicate ConnRoom(cfg: S.Config, s: Sys, n: nat) {
    && (cfg.maxConnPerUser > 0 ==> |s.live| + n <= cfg.maxConnPerUser)
    && (cfg.maxConnPerIP > 0 ==> |s.live| + n <= cfg.maxConnPerIP)
  }

  lemma LiveIsAddresses(s: Sys, u: string)
    requires Ok(s)
    ensures S.LiveIPs(s.lim, u) == D.Addresses(s.live, u)
  {
    hide S.Name, S.LiveIPs, CountsAgree;
    forall ip ensures ip in S.LiveIPs(s.lim, u) <==> ip in D.Addresses(s.live, u) {
      LiveIPsExact(s.lim, s.live, u, ip);
    }
  }

  lemma PlacesLeft(cfg: S.Config, s: Sys, u: string, ip: Option<S.IP>, n: nat)
    requires Wf(s) && ConnRoom(cfg, s, n) && n > 0
    ensures !S.UserFull(s.lim, cfg, u) && !S.IPFull(s.lim, cfg, ip)
  {
    hide S.Name;
    assert S.ConnsOf(s.lim.activeConnByUser, u) == ByUser(s.live, u);
    SubmapSize(ByUser(s.live, u), s.live);
    if ip.Some? {
      assert S.ConnsOf(s.lim.activeConnByIP, ip.value) == ByIP(s.live, ip.value);
      SubmapSize(ByIP(s.live, ip.value), s.live);
    }
  }

  lemma DevicesLeft(s: Sys, u: string, user: User, metas: seq<S.ConnMeta>, i: nat)
    requires Wf(s) && i < |metas| && DeviceRoom(s, u, user, metas)
    ensures !S.DevicesFull(s.lim, user, u, metas[i].sourceIP)
  {
    hide S.LiveIPs, D.Addresses, Wf;
    WfOk(s);
    LiveIsAddresses(s, u);
  }

  lemma {:induction false} OneByOne(cfg: S.Config, k: nat, s: Sys, u: string, user: User, metas: seq<S.ConnMeta>)
      returns (run: seq<Event>)
    requires Idle(s, u, user) && AllNew(s, u, metas) && RatesOff(cfg) && k >= 1 && s.admitted == map[]
    requires ConnRoom(cfg, s, |metas|) && DeviceRoom(s, u, user, metas)
    ensures AtMost(cfg, k, s, run) && Plain(run)
    ensures var s' := Run(cfg, s, run);
      Idle(s', u, user) && s'.admitted == map[] && s'.live == s.live + ByID(metas) && SameTables(s.lim, s'.lim)
    decreases |metas|
  {
    hide Idle, Next, AllNew, RatesOff, Run, AtMost, ConnRoom, DeviceRoom;
    if metas == [] {
      NoEvent(cfg, k, s);
      run := [];
    } else {
      FirstMay(cfg, s, u, user, metas);
      var first := Crowd(cfg, k, s, u, user, [metas[0]]);
      var s1 := Run(cfg, s, first);
      IDsOfRest(s, u, metas);
      assert s1.live == s.live[metas[0].connID := metas[0]];
      RestNew(s, s1, u, metas);
      RestRoom(cfg, s, s1, u, user, metas);
      var rest := OneByOne(cfg, k, s1, u, user, metas[1..]);
      RunAppend(cfg, k, s, first, rest);
      PlainAppend(first, rest);
      PutFirst(s.live, metas);
      run := first + rest;
    }
  }

  lemma FirstMay(cfg: S.Config, s: Sys, u: string, user: User, metas: seq<S.ConnMeta>)
    requires Idle(s, u, user) && metas != [] && AllNew(s, u, metas)
    requires ConnRoom(cfg, s, |metas|) && DeviceRoom(s, u, user, metas)
    ensures AllNew(s, u, [metas[0]]) && AllMay(cfg, s.lim, u, user, [metas[0]])
  {
    hide Wf, ConnRoom, DeviceRoom, S.UserFull, S.IPFull, S.DevicesFull;
    PlacesLeft(cfg, s, u, metas[0].sourceIP, |metas|);
    DevicesLeft(s, u, user, metas, 0);
    assert New(s, u, metas[0]);
  }

  lemma RestRoom(cfg: S.Config, s: Sys, t: Sys, u: string, user: User, metas: seq<S.ConnMeta>)
    requires metas != [] && metas[0].connID !in s.live && t.live == s.live[metas[0].connID := metas[0]]
    requires SameTables(s.lim, t.lim) && ConnRoom(cfg, s, |metas|) && DeviceRoom(s, u, user, metas)
    ensures ConnRoom(cfg, t, |metas[1..]|) && DeviceRoom(t, u, user, metas[1..])
  {
    hide S.Name, D.Addresses, S.SetOf;
    OneMore(s.live, metas[0].connID, metas[0]);
    D.AdmittedGrows(s.live, metas[0].connID, metas[0], u);
    D.UnionSize(D.Addresses(s.live, u), D.NewIP(metas[0], u));
    forall i | 0 <= i < |metas| - 1 ensures metas[1..][i] == metas[i + 1] {}
  }

  // ---- Reporting and leaving ----

  lemma Report(cfg: S.Config, k: nat, s: Sys, u: string, user: User)
    requires Idle(s, u, user) && |s.admitted| <= k
    ensures AtMost(cfg, k, s, [BuildAlive])
    ensures var s' := Run(cfg, s, [BuildAlive]);
      && Idle(s', u, user) && s'.live == s.live && s'.admitted == s.admitted
      && s'.lim.remoteUserOnline == s.lim.remoteUserOnline && s'.lim.aliveList == s.lim.aliveList
      && S.SetOf(s'.lim.oldUserOnline, u) == D.Addresses(s.live, u)
  {
    hide S.Name, Wf, Run, AtMost;
    NextWf(cfg, s, BuildAlive);
    OneEvent(cfg, k, s, BuildAlive);
    WfOk(s);
    LiveIsAddresses(s, u);
    if S.LiveIPs(s.lim, u) != {} {
      ConnectedIsIndexed(s, u);
    }
  }

  lemma ConnectedIsIndexed(s: Sys, u: string)
    requires Wf(s) && S.LiveIPs(s.lim, u) != {}
    ensures u in s.lim.activeConnByUser
  {
    hide S.Name, S.LiveIPs;
    var ip :| ip in S.LiveIPs(s.lim, u);
    LiveIPsExact(s.lim, s.live, u, ip);
    var c :| c in s.live && S.Name(s.live[c]) == u;
    assert c in ByUser(s.live, u);
    assert S.ConnsOf(s.lim.activeConnByUser, u) == ByUser(s.live, u);
  }

  lemma {:induction false} CloseEveryone(cfg: S.Config, k: nat, s: Sys, u: string, user: User) returns (run: seq<Event>)
    requires Idle(s, u, user) && |s.admitted| <= k
    ensures AtMost(cfg, k, s, run) && Plain(run)
    ensures var s' := Run(cfg, s, run);
      Idle(s', u, user) && s'.admitted == s.admitted && s'.live == map[] && SameTables(s.lim, s'.lim)
    decreases |s.live|
  {
    hide Idle, Next, Run, AtMost;
    if s.live == map[] {
      NoEvent(cfg, k, s);
      run := [];
    } else {
      var id :| id in s.live;
      CloseOne(cfg, k, s, u, user, id);
      var s1 := Run(cfg, s, [Close(id)]);
      var rest := CloseEveryone(cfg, k, s1, u, user);
      RunAppend(cfg, k, s, [Close(id)], rest);
      run := [Close(id)] + rest;
    }
  }

  lemma CloseOne(cfg: S.Config, k: nat, s: Sys, u: string, user: User, id: string)
    requires Idle(s, u, user) && |s.admitted| <= k && id in s.live
    ensures AtMost(cfg, k, s, [Close(id)])
    ensures var s' := Run(cfg, s, [Close(id)]);
      Idle(s', u, user) && s'.admitted == s.admitted && s'.live == s.live - {id} && SameTables(s.lim, s'.lim)
  {
    hide S.Name, Wf, S.Unregister, Run, AtMost;
    NextWf(cfg, s, Close(id));
    D.UnregisterKeeps(s.lim, s.live[id]);
    OneEvent(cfg, k, s, Close(id));
  }

  // ---- Sizes and addresses ----

  // New to a set of connections, all of one user, and of different IDs.
  ghost predicate Apart(live: S.Conns, metas: seq<S.ConnMeta>, u: string) {
    && (forall i :: 0 <= i < |metas| ==> metas[i].connID !in live && S.Name(metas[i]) == u)
    && (forall i, j :: 0 <= i < j < |metas| ==> metas[i].connID != metas[j].connID)
  }

  lemma RestApart(live: S.Conns, metas: seq<S.ConnMeta>, u: string)
    requires metas != [] && Apart(live, metas, u)
    ensures S.Name(metas[0]) == u && metas[0].connID !in live && metas[0].connID !in ByID(metas[1..])
    ensures Apart(live[metas[0].connID := metas[0]], metas[1..], u)
  {
    hide S.Name;
    ByIDKeys(metas[1..]);
    forall i | 0 <= i < |metas| - 1 ensures metas[1..][i] == metas[i + 1] {}
  }

  lemma {:induction false} ByIDSize(live: S.Conns, metas: seq<S.ConnMeta>, u: string)
    requires Apart(live, metas, u)
    ensures |live + ByID(metas)| == |live| + |metas|
    decreases |metas|
  {
    hide Apart, ByID;
    if metas == [] {
      NoIPs(metas);
      assert live + map[] == live;
    } else {
      RestApart(live, metas, u);
      OneMore(live, metas[0].connID, metas[0]);
      ByIDSize(live[metas[0].connID := metas[0]], metas[1..], u);
      PutFirst(live, metas);
    }
  }

  lemma {:induction false} ByIDAddresses(live: S.Conns, metas: seq<S.ConnMeta>, u: string)
    requires Apart(live, metas, u)
    ensures D.Addresses(live + ByID(metas), u) == D.Addresses(live, u) + IPs(metas)
    decreases |metas|
  {
    hide S.Name, D.Addresses, D.NewIP, Apart, IPs, ByID;
    if metas == [] {
      NoIPs(metas);
      assert live + map[] == live;
    } else {
      RestApart(live, metas, u);
      D.AdmittedGrows(live, metas[0].connID, metas[0], u);
      ByIDAddresses(live[metas[0].connID := metas[0]], metas[1..], u);
      PutFirst(live, metas);
      FirstIP(metas, u);
    }
  }

  lemma FirstIP(metas: seq<S.ConnMeta>, u: string)
    requires metas != [] && S.Name(metas[0]) == u
    ensures D.NewIP(metas[0], u) + IPs(metas[1..]) == IPs(metas)
  {
    hide S.Name;
  }

  lemma NoIPs(metas: seq<S.ConnMeta>)
    requires metas == []
    ensures IPs(metas) == {} && ByID(metas) == map[]
  {
  }

  lemma ByIDAddsKeys(live: S.Conns, metas: seq<S.ConnMeta>)
    ensures (live + ByID(metas)).Keys == live.Keys + IDs(metas)
  {
    ByIDKeys(metas);
  }

  function IPs(metas: seq<S.ConnMeta>): set<string> {
    set i | 0 <= i < |metas| && metas[i].sourceIP.Some? :: metas[i].sourceIP.value
  }

  // Every connection in a map is one of these.
  lemma {:induction false} ByIDOnly(metas: seq<S.ConnMeta>, c: string)
    requires c in ByID(metas)
    ensures ByID(metas)[c] in metas
  {
    if c != metas[0].connID {
      ByIDOnly(metas[1..], c);
    }
  }

  // Connections of one user from these addresses.
  function Metas(u: string, ids: seq<string>, ips: seq<S.IP>): (metas: seq<S.ConnMeta>)
    requires |ids| == |ips|
    ensures |metas| == |ids|
  {
    seq(|ids|, i requires 0 <= i < |ids| => S.ConnMeta(ids[i], u, Some(ips[i])))
  }

  function Texts(ips: seq<S.IP>): set<string> {
    set i | 0 <= i < |ips| :: ips[i]
  }

  lemma MetasNew(s: Sys, u: string, ids: seq<string>, ips: seq<S.IP>)
    requires |ids| == |ips| && Distinct(ids) && s.admitted == map[]
    requires forall i :: 0 <= i < |ids| ==> ids[i] !in s.live
    ensures TrimSpace(u) == u ==> AllNew(s, u, Metas(u, ids, ips)) && Apart(s.live, Metas(u, ids, ips), u)
  {
    hide TrimSpace;
    var metas := Metas(u, ids, ips);
    forall i | 0 <= i < |metas| && TrimSpace(u) == u ensures New(s, u, metas[i]) {}
  }

  lemma MetasSets(u: string, ids: seq<string>, ips: seq<S.IP>)
    requires |ids| == |ips|
    ensures IPs(Metas(u, ids, ips)) == Texts(ips) && forall id :: id in IDs(Metas(u, ids, ips)) <==> id in ids
  {
    var metas := Metas(u, ids, ips);
    forall ip | ip in Texts(ips) ensures ip in IPs(metas) {
      var i :| 0 <= i < |ips| && ips[i] == ip;
      assert metas[i].sourceIP.Some? && metas[i].sourceIP.value == ip;
    }
    forall id | id in ids ensures id in IDs(metas) {
      var i :| 0 <= i < |ids| && ids[i] == id;
      assert metas[i].connID == id;
    }
  }

  lemma {:induction false} TextsSize(ips: seq<S.IP>)
    requires Distinct(ips)
    ensures |Texts(ips)| == |ips|
  {
    if ips != [] {
      var n := |ips| - 1;
      TextsSize(ips[..n]);
      var t: string := ips[n];
      assert Texts(ips) == Texts(ips[..n]) + {t};
      assert forall i :: 0 <= i < n ==> ips[i] != ips[n];
      assert t !in Texts(ips[..n]);
    }
  }

  // One place and one device left: everybody may come in.
  lemma CrowdMay(cfg: S.Config, s: Sys, u: string, user: User, metas: seq<S.ConnMeta>)
    requires Wf(s) && ConnRoom(cfg, s, 1)
    requires user.deviceLimit <= 0 || (|D.Addresses(s.live, u)| < user.deviceLimit && OthersLeaveRoom(s.lim, u, user))
    ensures AllMay(cfg, s.lim, u, user, metas)
  {
    hide Wf, S.UserFull, S.IPFull, ConnRoom, S.LiveIPs, D.Addresses;
    WfOk(s);
    LiveIsAddresses(s, u);
    forall i | 0 <= i < |metas| ensures May(cfg, s.lim, u, user, metas[i].sourceIP) {
      PlacesLeft(cfg, s, u, metas[i].sourceIP, 1);
    }
  }

  // ---- The beginning ----

  lemma NameTrimmed(id: int)
    ensures TrimSpace(Identity.LimiterUserName(id)) == Identity.LimiterUserName(id)
    ensures Identity.LimiterUserName(id) != ""
  {
    var u := Identity.LimiterUserName(id);
    assert u[0] == 'u';
    Identity.LastIsDigit(if id < 0 then -id else id);
    assert !IsSpace(u[|u| - 1]);
    assert TrimLeft(u) == u && TrimRight(u) == u;
  }

  lemma OneUser(user: User)
    ensures S.UserTable([user]) == map[Identity.LimiterUserName(user.id) := user]
  {
    hide Identity.LimiterUserName;
    assert [user][..0] == [];
  }

  // The panel has told about one user.
  lemma StartIdle(cfg: S.Config, user: User)
    ensures var s := Next(cfg, START, UpdateUsers([user], 0));
      && Idle(s, Identity.LimiterUserName(user.id), user) && s.live == map[] && s.admitted == map[]
      && s.lim.oldUserOnline == map[] && s.lim.remoteUserOnline == map[] && s.lim.aliveList == map[]
  {
    hide Identity.LimiterUserName, Wf, S.UserTable;
    NameTrimmed(user.id);
    StartWf();
    NextWf(cfg, START, UpdateUsers([user], 0));
    OneUser(user);
  }
}
