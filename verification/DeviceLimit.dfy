// The device limit over whole runs.

module DeviceLimit {
  import opened Options
  import opened Sorting
  import opened Panel
  import opened LimiterIndex
  import opened Admission
  import S = LimiterSpec
  import R = Rates

  // The addresses a user has connections from, in a set of connections.
  function Addresses(m: S.Conns, u: string): set<string> {
    set c | c in m && S.Name(m[c]) == u && m[c].sourceIP.Some? :: m[c].sourceIP.value
  }

  // Every address the user is on: live, last reported, remote, or just admitted.
  function Devices(s: Sys, u: string, id: int): set<string> {
    S.LiveIPs(s.lim, u) + S.SetOf(s.lim.oldUserOnline, u) + S.SetOf(s.lim.remoteUserOnline, id)
    + Addresses(s.admitted, u)
  }

  ghost predicate HasLimit(user: User, id: int, limit: nat) {
    user.id == id && user.deviceLimit == limit
  }

  // The panel keeps telling the same about this user: its ID, its device limit,
  // and where else it is online.
  ghost predicate SteadyEvent(e: Event, u: string, id: int, limit: nat, remote: set<string>) {
    match e
    case UpdateUsers(users, now) => u in S.UserTable(users) ==> HasLimit(S.UserTable(users)[u], id, limit)
    case UpdateAlive(alive) => (if id in alive then S.StringSet(alive[id]) else {}) == remote
    case _ => true
  }

  ghost predicate Steady(run: seq<Event>, u: string, id: int, limit: nat, remote: set<string>) {
    forall i :: 0 <= i < |run| ==> SteadyEvent(run[i], u, id, limit, remote)
  }

  ghost predicate Known(s: Sys, u: string, id: int, limit: nat, remote: set<string>) {
    && (u in s.lim.userByName ==> HasLimit(s.lim.userByName[u], id, limit))
    && (forall c :: c in s.looking && S.Name(s.looking[c].meta) == u ==> HasLimit(s.looking[c].user, id, limit))
    && S.SetOf(s.lim.remoteUserOnline, id) == remote
  }

  lemma UnionSize<T>(a: set<T>, b: set<T>)
    ensures |a + b| <= |a| + |b|
  {
  }

  lemma {:induction false} AddressesSize(m: S.Conns, u: string)
    ensures |Addresses(m, u)| <= |m|
    decreases |m|
  {
    hide S.Name;
    if m == map[] {
      assert Addresses(m, u) == {};
    } else {
      var c :| c in m;
      var rest := m - {c};
      assert m.Keys == rest.Keys + {c};
      AddressesSize(rest, u);
      var ips := Addresses(rest, u);
      if S.Name(m[c]) == u && m[c].sourceIP.Some? {
        assert Addresses(m, u) == ips + {m[c].sourceIP.value};
      } else {
        assert Addresses(m, u) == ips;
      }
    }
  }

  // An address that was not known is let in only while the user has fewer than
  // limit live and fewer than limit last reported addresses.
  lemma NewDeviceRoom(s: S.State, cfg: S.Config, user: User, u: string, ip: Option<S.IP>, now: R.Time)
    requires S.Decide(s, cfg, user, u, ip, now).1.Allow? && user.deviceLimit > 0
    requires ip.Some? && !S.KnownIP(s, u, user.id, ip.value)
    ensures |S.LiveIPs(s, u)| < user.deviceLimit && |S.SetOf(s.oldUserOnline, u)| < user.deviceLimit
  {
    hide S.Decide, S.LiveIPs, S.SetOf, S.KnownIP;
    AllowedSaw(s, cfg, user, u, ip, now);
  }

  lemma AdmittedGrows(m: S.Conns, c: string, meta: S.ConnMeta, u: string)
    requires c !in m
    ensures Addresses(m[c := meta], u) == Addresses(m, u) + NewIP(meta, u)
  {
    hide S.Name;
    var m' := m[c := meta];
    forall ip | ip in Addresses(m, u) ensures ip in Addresses(m', u) {
      var x :| x in m && S.Name(m[x]) == u && m[x].sourceIP.Some? && m[x].sourceIP.value == ip;
      assert m'[x] == m[x];
    }
    if S.Name(meta) == u && meta.sourceIP.Some? {
      assert m'[c] == meta;
    }
    forall ip | ip in Addresses(m', u) ensures ip in Addresses(m, u) + NewIP(meta, u) {
      var x :| x in m' && S.Name(m'[x]) == u && m'[x].sourceIP.Some? && m'[x].sourceIP.value == ip;
      assert x != c ==> m'[x] == m[x];
    }
  }

  function NewIP(meta: S.ConnMeta, u: string): set<string> {
    if S.Name(meta) == u && meta.sourceIP.Some? then {meta.sourceIP.value} else {}
  }

  // Deciding adds the address of an admitted connection of this user, no other.
  lemma DecideEffect(cfg: S.Config, s: Sys, id: string, now: R.Time, u: string, uid: int)
    requires Ok(s) && id in s.looking
    ensures var s' := DecideOne(cfg, s, id, now);
      Devices(s', u, uid) == Devices(s, u, uid) + if id in s'.admitted then NewIP(s.looking[id].meta, u) else {}
  {
    hide S.Name, S.Decide, S.LiveIPs, S.SetOf, CountsAgree, Addresses, KeepsConnections, NewIP;
    var a := s.looking[id];
    var s' := DecideOne(cfg, s, id, now);
    DecideKeepsConnections(s.lim, cfg, a.user, S.Name(a.meta), a.meta.sourceIP, now);
    SameDevices(s, s', u, uid);
    if id in s'.admitted {
      assert s'.admitted == s.admitted[id := a.meta];
      AdmittedGrows(s.admitted, id, a.meta, u);
    }
  }

  // A new device leaves few live and few last reported addresses.
  lemma DecideNewDevice(cfg: S.Config, k: nat, s: Sys, id: string, now: R.Time, u: string, uid: int, limit: nat)
    requires Ok(s) && limit >= 1 && id in s.looking && HasLimit(s.looking[id].user, uid, limit)
    requires S.Name(s.looking[id].meta) == u && s.looking[id].meta.sourceIP.Some?
    requires !S.KnownIP(s.lim, u, uid, s.looking[id].meta.sourceIP.value)
    requires id in DecideOne(cfg, s, id, now).admitted && |DecideOne(cfg, s, id, now).admitted| <= k
    ensures |Devices(DecideOne(cfg, s, id, now), u, uid)| <= 2 * limit - 2 + |S.SetOf(s.lim.remoteUserOnline, uid)| + k
  {
    hide S.Name, S.Decide, S.LiveIPs, S.SetOf, CountsAgree, Addresses, KeepsConnections, S.KnownIP, Devices;
    var a := s.looking[id];
    var s' := DecideOne(cfg, s, id, now);
    DecideKeepsConnections(s.lim, cfg, a.user, u, a.meta.sourceIP, now);
    SameDevices(s, s', u, uid);
    NewDeviceRoom(s.lim, cfg, a.user, u, a.meta.sourceIP, now);
    AddressesSize(s'.admitted, u);
    DevicesSize(s', u, uid);
  }

  lemma DecideDevices(cfg: S.Config, k: nat, s: Sys, id: string, now: R.Time, u: string, uid: int, limit: nat,
                      remote: set<string>)
    requires Ok(s) && limit >= 1 && k >= 1 && id in s.looking
    requires Known(s, u, uid, limit, remote) && |Devices(s, u, uid)| <= 2 * limit + k - 2 + |remote|
    requires |DecideOne(cfg, s, id, now).admitted| <= k
    ensures |Devices(DecideOne(cfg, s, id, now), u, uid)| <= 2 * limit + k - 2 + |remote|
  {
    hide S.Name, DecideOne, Ok, Devices, HasLimit, S.KnownIP, S.SetOf;
    var a := s.looking[id];
    var s' := DecideOne(cfg, s, id, now);
    DecideEffect(cfg, s, id, now, u, uid);
    if id in s'.admitted && S.Name(a.meta) == u && a.meta.sourceIP.Some? {
      if S.KnownIP(s.lim, u, uid, a.meta.sourceIP.value) {
        KnownIsDevice(s, u, uid, a.meta.sourceIP.value);
        assert Devices(s', u, uid) == Devices(s, u, uid);
      } else {
        DecideNewDevice(cfg, k, s, id, now, u, uid, limit);
      }
    } else {
      assert Devices(s', u, uid) == Devices(s, u, uid);
    }
  }

  lemma KnownIsDevice(s: Sys, u: string, id: int, ip: string)
    requires S.KnownIP(s.lim, u, id, ip)
    ensures ip in Devices(s, u, id)
  {
  }

  lemma SameDevices(s: Sys, s': Sys, u: string, id: int)
    requires KeepsConnections(s.lim, s'.lim)
    ensures S.LiveIPs(s'.lim, u) == S.LiveIPs(s.lim, u)
    ensures S.SetOf(s'.lim.oldUserOnline, u) == S.SetOf(s.lim.oldUserOnline, u)
    ensures S.SetOf(s'.lim.remoteUserOnline, id) == S.SetOf(s.lim.remoteUserOnline, id)
  {
  }

  lemma DevicesSize(s: Sys, u: string, id: int)
    ensures |Devices(s, u, id)| <= |S.LiveIPs(s.lim, u)| + |S.SetOf(s.lim.oldUserOnline, u)|
                                 + |S.SetOf(s.lim.remoteUserOnline, id)| + |Addresses(s.admitted, u)|
  {
  }

  // ---- The events that cannot add a device ----

  lemma RegisterDevices(cfg: S.Config, s: Sys, id: string, u: string, uid: int)
    requires Ok(s) && id in s.admitted
    ensures Devices(Next(cfg, s, Register(id)), u, uid) <= Devices(s, u, uid)
  {
    hide S.Name, CountsAgree, S.Register, S.AddConn;
    var meta := s.admitted[id];
    RegisterChanges(s.lim, meta);
    if S.Name(meta) == u && meta.sourceIP.Some? {
      assert meta.sourceIP.value in Addresses(s.admitted, u);
    }
  }

  lemma UnregisterIPs(s: S.State, meta: S.ConnMeta, u: string)
    ensures S.LiveIPs(S.Unregister(s, meta), u) <= S.LiveIPs(s, u)
  {
  }

  lemma BuildAliveDevices(s: S.State, u: string)
    ensures S.LiveIPs(S.BuildAlive(s), u) == S.LiveIPs(s, u)
    ensures S.SetOf(S.BuildAlive(s).oldUserOnline, u) <= S.LiveIPs(s, u)
  {
  }

  lemma UnchangedUnlessNew(cfg: S.Config, s: Sys, e: Event, u: string, uid: int, limit: nat, remote: set<string>)
    requires Ok(s) && Known(s, u, uid, limit, remote) && SteadyEvent(e, u, uid, limit, remote) && !e.Decide?
    ensures Devices(Next(cfg, s, e), u, uid) <= Devices(s, u, uid)
  {
    hide S.Name, CountsAgree, S.Register, S.Unregister, Addresses, S.BuildAlive, S.StringSet, HasLimit, S.UserTable,
         S.LiveIPs;
    match e
    case Register(id) => if id in s.admitted { RegisterDevices(cfg, s, id, u, uid); }
    case Close(id) =>
      if id in s.live {
        UnregisterIPs(s.lim, s.live[id], u);
        UnregisterKeeps(s.lim, s.live[id]);
      }
    case BuildAlive =>
      BuildAliveDevices(s.lim, u);
      BuildAliveKeeps(s.lim);
    case UpdateAlive(alive) => SameCounts(s.lim, S.UpdateAliveList(s.lim, alive), u);
    case UpdateUsers(users, now) => SameCounts(s.lim, S.UpdateUsers(s.lim, cfg, users, now), u);
    case Arrive(tag, meta) =>
  }

  lemma SameCounts(s: S.State, s': S.State, u: string)
    requires s'.activeIPsCount == s.activeIPsCount
    ensures S.LiveIPs(s', u) == S.LiveIPs(s, u)
  {
  }

  lemma UnregisterKeeps(s: S.State, meta: S.ConnMeta)
    ensures var s' := S.Unregister(s, meta);
      && s'.userByName == s.userByName && s'.oldUserOnline == s.oldUserOnline
      && s'.remoteUserOnline == s.remoteUserOnline && s'.aliveList == s.aliveList
  {
  }

  lemma RegisterKeeps(s: S.State, meta: S.ConnMeta)
    ensures var s' := S.Register(s, meta);
      && s'.userByName == s.userByName && s'.oldUserOnline == s.oldUserOnline
      && s'.remoteUserOnline == s.remoteUserOnline && s'.aliveList == s.aliveList
  {
    hide S.Name;
    if S.Name(meta) != "" {
      RegisterChanges(s, meta);
    }
  }

  lemma BuildAliveKeeps(s: S.State)
    ensures var s' := S.BuildAlive(s);
      && s'.userByName == s.userByName && s'.activeIPsCount == s.activeIPsCount
      && s'.remoteUserOnline == s.remoteUserOnline && s'.aliveList == s.aliveList
  {
  }

  lemma KnownStep(cfg: S.Config, s: Sys, e: Event, u: string, uid: int, limit: nat, remote: set<string>)
    requires Known(s, u, uid, limit, remote) && SteadyEvent(e, u, uid, limit, remote)
    ensures Known(Next(cfg, s, e), u, uid, limit, remote)
  {
    hide S.Name, S.Register, S.Unregister, S.Decide, S.BuildAlive, S.StringSet, HasLimit, S.UserTable;
    match e
    case Decide(id, now) =>
      if id in s.looking {
        var a := s.looking[id];
        DecideKeepsConnections(s.lim, cfg, a.user, S.Name(a.meta), a.meta.sourceIP, now);
      }
    case Register(id) => if id in s.admitted { RegisterKeeps(s.lim, s.admitted[id]); }
    case Close(id) => if id in s.live { UnregisterKeeps(s.lim, s.live[id]); }
    case BuildAlive => BuildAliveKeeps(s.lim);
    case UpdateAlive(alive) =>
    case UpdateUsers(users, now) =>
    case Arrive(tag, meta) =>
  }

  lemma DevicesStep(cfg: S.Config, k: nat, s: Sys, e: Event, u: string, uid: int, limit: nat, remote: set<string>)
    requires Ok(s) && limit >= 1 && k >= 1 && Known(s, u, uid, limit, remote) && SteadyEvent(e, u, uid, limit, remote)
    requires |Devices(s, u, uid)| <= 2 * limit + k - 2 + |remote| && |Next(cfg, s, e).admitted| <= k
    ensures |Devices(Next(cfg, s, e), u, uid)| <= 2 * limit + k - 2 + |remote|
  {
    hide Devices, Known, SteadyEvent, Ok, DecideOne, S.Name;
    if e.Decide? {
      if e.tag in s.looking {
        DecideDevices(cfg, k, s, e.tag, e.now, u, uid, limit, remote);
      }
    } else {
      UnchangedUnlessNew(cfg, s, e, u, uid, limit, remote);
      SubsetSize(Devices(Next(cfg, s, e), u, uid), Devices(s, u, uid));
    }
  }

  lemma {:induction false} DevicesRun(cfg: S.Config, k: nat, s: Sys, run: seq<Event>, u: string, uid: int, limit: nat,
                                      remote: set<string>)
    requires Ok(s) && limit >= 1 && k >= 1 && AtMost(cfg, k, s, run)
    requires Known(s, u, uid, limit, remote) && Steady(run, u, uid, limit, remote)
    requires |Devices(s, u, uid)| <= 2 * limit + k - 2 + |remote|
    ensures |Devices(Run(cfg, s, run), u, uid)| <= 2 * limit + k - 2 + |remote|
    decreases run
  {
    hide Ok, Next, Devices, Known, SteadyEvent;
    if run != [] {
      assert SteadyEvent(run[0], u, uid, limit, remote);
      assert AtMost(cfg, k, Next(cfg, s, run[0]), run[1..]);
      NextOk(cfg, s, run[0]);
      KnownStep(cfg, s, run[0], u, uid, limit, remote);
      DevicesStep(cfg, k, s, run[0], u, uid, limit, remote);
      DevicesRun(cfg, k, Next(cfg, s, run[0]), run[1..], u, uid, limit, remote);
    }
  }

  // The device limit over whole runs: with limit L, a fixed remote set, and at most
  // k connections between Check and Register, a user is never on more than
  // 2L + k - 2 addresses beyond the remote ones.
  lemma DeviceBound(cfg: S.Config, k: nat, s: Sys, run: seq<Event>, u: string, uid: int, limit: nat,
                    remote: set<string>)
    requires Ok(s) && limit >= 1 && k >= 1 && AtMost(cfg, k, s, run)
    requires Known(s, u, uid, limit, remote) && Steady(run, u, uid, limit, remote)
    requires S.LiveIPs(s.lim, u) == {} && S.SetOf(s.lim.oldUserOnline, u) == {} && s.admitted == map[]
    ensures var s' := Run(cfg, s, run);
      |S.LiveIPs(s'.lim, u) + S.SetOf(s'.lim.oldUserOnline, u) + S.SetOf(s'.lim.remoteUserOnline, uid)|
          <= 2 * limit + k - 2 + |remote|
  {
    DevicesSize(s, u, uid);
    DevicesRun(cfg, k, s, run, u, uid, limit, remote);
    var s' := Run(cfg, s, run);
    var part := S.LiveIPs(s'.lim, u) + S.SetOf(s'.lim.oldUserOnline, u) + S.SetOf(s'.lim.remoteUserOnline, uid);
    assert part <= Devices(s', u, uid);
    SubsetSize(part, Devices(s', u, uid));
  }

  // ---- When the remote addresses fill the limit ----

  lemma FullDecide(cfg: S.Config, s: Sys, id: string, now: R.Time, u: string, uid: int, limit: nat, remote: set<string>)
    requires Ok(s) && 1 <= limit <= |remote| && id in s.looking
    requires Known(s, u, uid, limit, remote) && Devices(s, u, uid) <= remote
    ensures Devices(DecideOne(cfg, s, id, now), u, uid) <= remote
  {
    hide S.Name, DecideOne, Ok, Devices, HasLimit, S.KnownIP, S.SetOf;
    var a := s.looking[id];
    var s' := DecideOne(cfg, s, id, now);
    DecideEffect(cfg, s, id, now, u, uid);
    if id in s'.admitted && S.Name(a.meta) == u && a.meta.sourceIP.Some? {
      FullKnown(cfg, s, id, now, u, uid, limit, remote);
      KnownIsDevice(s, u, uid, a.meta.sourceIP.value);
    }
  }

  // Nobody new is let in.
  lemma FullKnown(cfg: S.Config, s: Sys, id: string, now: R.Time, u: string, uid: int, limit: nat, remote: set<string>)
    requires Ok(s) && 1 <= limit <= |remote| && id in s.looking && Known(s, u, uid, limit, remote)
    requires id in DecideOne(cfg, s, id, now).admitted && S.Name(s.looking[id].meta) == u
    requires s.looking[id].meta.sourceIP.Some?
    ensures S.KnownIP(s.lim, u, uid, s.looking[id].meta.sourceIP.value)
  {
    hide S.Name, S.Decide, S.LiveIPs, S.KnownIP;
    var a := s.looking[id];
    AllowedSaw(s.lim, cfg, a.user, u, a.meta.sourceIP, now);
  }

  lemma {:induction false} FullRun(cfg: S.Config, s: Sys, run: seq<Event>, u: string, uid: int, limit: nat,
                                   remote: set<string>)
    requires Ok(s) && 1 <= limit <= |remote|
    requires Known(s, u, uid, limit, remote) && Steady(run, u, uid, limit, remote) && Devices(s, u, uid) <= remote
    ensures Devices(Run(cfg, s, run), u, uid) <= remote
    decreases run
  {
    hide Ok, Devices, Known, SteadyEvent, DecideOne;
    if run != [] {
      assert SteadyEvent(run[0], u, uid, limit, remote);
      NextOk(cfg, s, run[0]);
      KnownStep(cfg, s, run[0], u, uid, limit, remote);
      FullStep(cfg, s, run[0], u, uid, limit, remote);
      FullRun(cfg, Next(cfg, s, run[0]), run[1..], u, uid, limit, remote);
    }
  }

  lemma FullStep(cfg: S.Config, s: Sys, e: Event, u: string, uid: int, limit: nat, remote: set<string>)
    requires Ok(s) && 1 <= limit <= |remote| && Known(s, u, uid, limit, remote) && SteadyEvent(e, u, uid, limit, remote)
    requires Devices(s, u, uid) <= remote
    ensures Devices(Next(cfg, s, e), u, uid) <= remote
  {
    hide Devices, Known, SteadyEvent, Ok, DecideOne, S.Name;
    if e.Decide? {
      if e.tag in s.looking {
        FullDecide(cfg, s, e.tag, e.now, u, uid, limit, remote);
      }
    } else {
      UnchangedUnlessNew(cfg, s, e, u, uid, limit, remote);
    }
  }

  // With as many remote addresses as the limit or more, the user stays on those.
  lemma RemoteFullBound(cfg: S.Config, s: Sys, run: seq<Event>, u: string, uid: int, limit: nat, remote: set<string>)
    requires Ok(s) && 1 <= limit <= |remote|
    requires Known(s, u, uid, limit, remote) && Steady(run, u, uid, limit, remote)
    requires S.LiveIPs(s.lim, u) == {} && S.SetOf(s.lim.oldUserOnline, u) == {} && s.admitted == map[]
    ensures var s' := Run(cfg, s, run);
      S.LiveIPs(s'.lim, u) + S.SetOf(s'.lim.oldUserOnline, u) <= remote
  {
    FullRun(cfg, s, run, u, uid, limit, remote);
  }

  // Check and Register taken together (k = 1): 2L - 1 addresses beyond the remote ones.
  lemma SequentialDeviceBound(cfg: S.Config, run: seq<Event>, u: string, uid: int, limit: nat)
    requires limit >= 1 && AtMost(cfg, 1, START, run) && Steady(run, u, uid, limit, {})
    ensures |S.LiveIPs(Run(cfg, START, run).lim, u)| <= 2 * limit - 1
  {
    StartOk();
    DeviceBound(cfg, 1, START, run, u, uid, limit, {});
    var s' := Run(cfg, START, run);
    SubsetSize(S.LiveIPs(s'.lim, u),
               S.LiveIPs(s'.lim, u) + S.SetOf(s'.lim.oldUserOnline, u) + S.SetOf(s'.lim.remoteUserOnline, uid));
  }
}
