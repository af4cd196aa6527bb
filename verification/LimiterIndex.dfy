// The limiter's redundant indexes agree with the plain set of live connections.

module LimiterIndex {
  import opened Options
  import opened Panel
  import opened LimiterSpec
  import R = Rates

  // Live connections by connection ID.
  type LiveSet = Conns

  function ByUser(live: LiveSet, u: string): Conns {
    map c | c in live && Name(live[c]) == u :: live[c]
  }

  function ByIP(live: LiveSet, ip: string): Conns {
    map c | c in live && live[c].sourceIP.Some? && live[c].sourceIP.value == ip :: live[c]
  }

  function Both(live: LiveSet, u: string, ip: string): set<string> {
    set c | c in live && Name(live[c]) == u && live[c].sourceIP.Some? && live[c].sourceIP.value == ip
  }

  function Count(counts: map<string, map<string, int>>, u: string, ip: string): int {
    if u in counts && ip in counts[u] then counts[u][ip] else 0
  }

  ghost predicate LiveOk(live: LiveSet) {
    forall c :: c in live ==> live[c].connID == c && Name(live[c]) != ""
  }

  // No inner count map is empty and every count is positive.
  ghost predicate CountsTight(counts: map<string, map<string, int>>) {
    && (forall u :: u in counts ==> counts[u] != map[])
    && (forall u, ip :: u in counts && ip in counts[u] ==> counts[u][ip] > 0)
  }

  ghost predicate UsersAgree(index: map<string, Conns>, live: LiveSet) {
    forall u :: ConnsOf(index, u) == ByUser(live, u)
  }

  ghost predicate IPsAgree(index: map<string, Conns>, live: LiveSet) {
    forall ip :: ConnsOf(index, ip) == ByIP(live, ip)
  }

  ghost predicate CountsAgree(counts: map<string, map<string, int>>, live: LiveSet) {
    CountsTight(counts) && forall u, ip :: Count(counts, u, ip) == |Both(live, u, ip)|
  }

  // The per-user and per-address maps hold exactly the live connections (missing
  // and empty read alike), and a count is present exactly when it is positive and
  // is then the number of live connections of that user from that address.
  ghost predicate Agrees(s: State, live: LiveSet) {
    && LiveOk(live)
    && UsersAgree(s.activeConnByUser, live)
    && IPsAgree(s.activeConnByIP, live)
    && CountsAgree(s.activeIPsCount, live)
  }

  // ---- Register ----

  lemma AddConnUsers(index: map<string, Conns>, live: LiveSet, meta: ConnMeta)
    requires UsersAgree(index, live) && meta.connID !in live
    ensures UsersAgree(AddConn(index, Name(meta), meta), live[meta.connID := meta])
  {
    hide Name;
    forall u ensures ConnsOf(AddConn(index, Name(meta), meta), u) == ByUser(live[meta.connID := meta], u) {
      assert ConnsOf(index, u) == ByUser(live, u);
    }
  }

  lemma AddConnIPs(index: map<string, Conns>, live: LiveSet, meta: ConnMeta)
    requires IPsAgree(index, live) && meta.connID !in live
    ensures meta.sourceIP.Some? ==> IPsAgree(AddConn(index, meta.sourceIP.value, meta), live[meta.connID := meta])
    ensures meta.sourceIP.None? ==> IPsAgree(index, live[meta.connID := meta])
  {
    hide Name;
    var next := if meta.sourceIP.Some? then AddConn(index, meta.sourceIP.value, meta) else index;
    forall ip ensures ConnsOf(next, ip) == ByIP(live[meta.connID := meta], ip) {
      assert ConnsOf(index, ip) == ByIP(live, ip);
    }
  }

  lemma CountUpAt(counts: map<string, map<string, int>>, u: string, ip: string)
    requires CountsTight(counts)
    ensures CountsTight(CountUp(counts, u, ip))
    ensures forall v, jp :: Count(CountUp(counts, u, ip), v, jp)
                         == Count(counts, v, jp) + if v == u && jp == ip then 1 else 0
  {
  }

  // The counts go by connections: c stands for the connection, whatever its ID.
  lemma AddCounts(counts: map<string, map<string, int>>, live: LiveSet, c: string, meta: ConnMeta)
    requires CountsAgree(counts, live) && c !in live
    ensures meta.sourceIP.Some? ==> CountsAgree(CountUp(counts, Name(meta), meta.sourceIP.value), live[c := meta])
    ensures meta.sourceIP.None? ==> CountsAgree(counts, live[c := meta])
  {
    hide Name;
    var live' := live[c := meta];
    if meta.sourceIP.Some? {
      CountUpAt(counts, Name(meta), meta.sourceIP.value);
    }
    var next := if meta.sourceIP.Some? then CountUp(counts, Name(meta), meta.sourceIP.value) else counts;
    forall u, ip ensures Count(next, u, ip) == |Both(live', u, ip)| {
      assert Count(counts, u, ip) == |Both(live, u, ip)|;
      if meta.sourceIP.Some? && u == Name(meta) && ip == meta.sourceIP.value {
        assert Both(live', u, ip) == Both(live, u, ip) + {c};
      } else {
        assert Both(live', u, ip) == Both(live, u, ip);
      }
    }
  }

  lemma RegisterChanges(s: State, meta: ConnMeta)
    requires Name(meta) != ""
    ensures var s' := Register(s, meta);
      && s' == s.(activeConnByUser := s'.activeConnByUser, activeConnByIP := s'.activeConnByIP,
                  activeIPsCount := s'.activeIPsCount)
      && s'.activeConnByUser == AddConn(s.activeConnByUser, Name(meta), meta)
      && s'.activeConnByIP == (if meta.sourceIP.Some? then AddConn(s.activeConnByIP, meta.sourceIP.value, meta)
                               else s.activeConnByIP)
      && s'.activeIPsCount == (if meta.sourceIP.Some? then CountUp(s.activeIPsCount, Name(meta), meta.sourceIP.value)
                               else s.activeIPsCount)
  {
  }

  // Registering a connection with a fresh ID keeps the indexes exact.
  lemma RegisterAgrees(s: State, live: LiveSet, meta: ConnMeta)
    requires Agrees(s, live) && meta.connID !in live && Name(meta) != ""
    ensures Agrees(Register(s, meta), live[meta.connID := meta])
  {
    hide Name, AddConn, CountUp, UsersAgree, IPsAgree, CountsAgree, Register;
    RegisterChanges(s, meta);
    AddConnUsers(s.activeConnByUser, live, meta);
    AddConnIPs(s.activeConnByIP, live, meta);
    AddCounts(s.activeIPsCount, live, meta.connID, meta);
  }

  // ---- Unregister ----

  lemma DropConnUsers(index: map<string, Conns>, live: LiveSet, meta: ConnMeta)
    requires UsersAgree(index, live) && meta.connID in live && live[meta.connID] == meta
    ensures UsersAgree(DropConn(index, Name(meta), meta), live - {meta.connID})
  {
    hide Name;
    forall u ensures ConnsOf(DropConn(index, Name(meta), meta), u) == ByUser(live - {meta.connID}, u) {
      assert ConnsOf(index, u) == ByUser(live, u);
      assert u == Name(meta) ==> ByUser(live, u) - {meta.connID} == ByUser(live - {meta.connID}, u);
      assert u != Name(meta) ==> ByUser(live, u) == ByUser(live - {meta.connID}, u);
    }
  }

  lemma DropConnIPs(index: map<string, Conns>, live: LiveSet, meta: ConnMeta)
    requires IPsAgree(index, live) && meta.connID in live && live[meta.connID] == meta
    ensures meta.sourceIP.Some? ==> IPsAgree(DropConn(index, meta.sourceIP.value, meta), live - {meta.connID})
    ensures meta.sourceIP.None? ==> IPsAgree(index, live - {meta.connID})
  {
    hide Name;
    var next := if meta.sourceIP.Some? then DropConn(index, meta.sourceIP.value, meta) else index;
    forall ip ensures ConnsOf(next, ip) == ByIP(live - {meta.connID}, ip) {
      assert ConnsOf(index, ip) == ByIP(live, ip);
      var mine := meta.sourceIP.Some? && ip == meta.sourceIP.value;
      assert mine ==> ByIP(live, ip) - {meta.connID} == ByIP(live - {meta.connID}, ip);
      assert !mine ==> ByIP(live, ip) == ByIP(live - {meta.connID}, ip);
    }
  }

  lemma CountDownAt(counts: map<string, map<string, int>>, u: string, ip: string)
    requires CountsTight(counts) && Count(counts, u, ip) > 0
    ensures CountsTight(CountDown(counts, u, ip))
    ensures forall v, jp :: Count(CountDown(counts, u, ip), v, jp)
                         == Count(counts, v, jp) - if v == u && jp == ip then 1 else 0
  {
    var mine := counts[u];
    var rest := if mine[ip] - 1 <= 0 then mine - {ip} else mine[ip := mine[ip] - 1];
    assert CountDown(counts, u, ip) == if rest == map[] then counts - {u} else counts[u := rest];
    if rest == map[] {
      forall jp | jp in mine ensures jp == ip {
        assert jp != ip ==> jp in rest;
      }
    }
  }

  lemma DropCounts(counts: map<string, map<string, int>>, live: LiveSet, c: string, meta: ConnMeta)
    requires CountsAgree(counts, live) && c in live && live[c] == meta
    ensures meta.sourceIP.Some? ==> CountsAgree(CountDown(counts, Name(meta), meta.sourceIP.value), live - {c})
    ensures meta.sourceIP.None? ==> CountsAgree(counts, live - {c})
  {
    hide Name;
    var live' := live - {c};
    if meta.sourceIP.Some? {
      assert c in Both(live, Name(meta), meta.sourceIP.value);
      CountDownAt(counts, Name(meta), meta.sourceIP.value);
    }
    var next := if meta.sourceIP.Some? then CountDown(counts, Name(meta), meta.sourceIP.value) else counts;
    forall u, ip ensures Count(next, u, ip) == |Both(live', u, ip)| {
      assert Count(counts, u, ip) == |Both(live, u, ip)|;
      if meta.sourceIP.Some? && u == Name(meta) && ip == meta.sourceIP.value {
        assert Both(live', u, ip) == Both(live, u, ip) - {c};
      } else {
        assert Both(live', u, ip) == Both(live, u, ip);
      }
    }
  }

  // Closing a live connection keeps them exact.
  lemma UnregisterAgrees(s: State, live: LiveSet, meta: ConnMeta)
    requires Agrees(s, live) && meta.connID in live && live[meta.connID] == meta
    ensures Agrees(Unregister(s, meta), live - {meta.connID})
  {
    hide Name;
    DropConnUsers(s.activeConnByUser, live, meta);
    DropConnIPs(s.activeConnByIP, live, meta);
    DropCounts(s.activeIPsCount, live, meta.connID, meta);
  }

  // ---- The other operations ----

  // Check leaves the connections alone, whatever it decides; it may leave empty
  // connection maps behind.
  lemma DecideKeepsConnections(s: State, cfg: Config, user: User, userName: string, ip: Option<IP>, now: R.Time)
    ensures KeepsConnections(s, Decide(s, cfg, user, userName, ip, now).0)
  {
    hide RateCheck, SlotCheck, DevicesFull, KeepsConnections;
    var s1 := RateCheck(s, cfg, userName, ip, now).0;
    RateCheckKeeps(s, cfg, userName, ip, now);
    SlotCheckKeeps(s1, cfg, userName, ip);
    KeepsTransitive(s, s1, SlotCheck(s1, cfg, userName, ip).0);
  }

  ghost predicate KeepsConnections(s: State, s': State) {
    && s'.userByName == s.userByName && s'.oldUserOnline == s.oldUserOnline
    && s'.remoteUserOnline == s.remoteUserOnline && s'.aliveList == s.aliveList
    && s'.activeIPsCount == s.activeIPsCount
    && (forall u :: ConnsOf(s'.activeConnByUser, u) == ConnsOf(s.activeConnByUser, u))
    && (forall jp :: ConnsOf(s'.activeConnByIP, jp) == ConnsOf(s.activeConnByIP, jp))
  }

  lemma KeepsTransitive(s: State, t: State, u: State)
    requires KeepsConnections(s, t) && KeepsConnections(t, u)
    ensures KeepsConnections(s, u)
  {
  }

  lemma UserRateChanges(s: State, cfg: Config, userName: string, now: R.Time)
    ensures var s' := UserRate(s, cfg, userName, now).0; s' == s.(recentConnByUser := s'.recentConnByUser)
  {
  }

  lemma IPRateChanges(s: State, cfg: Config, ip: Option<IP>, now: R.Time)
    ensures var s' := IPRate(s, cfg, ip, now).0; s' == s.(recentConnByIP := s'.recentConnByIP)
  {
  }

  // The rate checks change counters only.
  lemma RateCheckChanges(s: State, cfg: Config, userName: string, ip: Option<IP>, now: R.Time)
    ensures var s' := RateCheck(s, cfg, userName, ip, now).0;
      s' == s.(recentConnByUser := s'.recentConnByUser, recentConnByIP := s'.recentConnByIP)
  {
    hide UserRate, IPRate;
    UserRateChanges(s, cfg, userName, now);
    IPRateChanges(UserRate(s, cfg, userName, now).0, cfg, ip, now);
  }

  lemma RateCheckKeeps(s: State, cfg: Config, userName: string, ip: Option<IP>, now: R.Time)
    ensures KeepsConnections(s, RateCheck(s, cfg, userName, ip, now).0)
  {
    hide RateCheck;
    RateCheckChanges(s, cfg, userName, ip, now);
  }

  lemma EnsureKeeps(index: map<string, Conns>, key: string)
    ensures forall u :: ConnsOf(EnsureConnMap(index, key), u) == ConnsOf(index, u)
  {
  }

  // The slot checks may leave an empty connection map behind, no more.
  lemma TouchChanges(s: State, cfg: Config, userName: string)
    ensures var s' := Touch(s, cfg, userName);
      && s' == s.(activeConnByUser := s'.activeConnByUser)
      && (|| s'.activeConnByUser == s.activeConnByUser
          || s'.activeConnByUser == EnsureConnMap(s.activeConnByUser, userName))
  {
  }

  lemma TouchIPChanges(s: State, cfg: Config, ip: Option<IP>)
    ensures var s' := TouchIP(s, cfg, ip);
      && s' == s.(activeConnByIP := s'.activeConnByIP)
      && (s'.activeConnByIP == s.activeConnByIP
          || (ip.Some? && s'.activeConnByIP == EnsureConnMap(s.activeConnByIP, ip.value)))
  {
  }

  lemma TouchKeeps(s: State, cfg: Config, userName: string)
    ensures KeepsConnections(s, Touch(s, cfg, userName))
  {
    hide EnsureConnMap, Touch;
    TouchChanges(s, cfg, userName);
    EnsureKeeps(s.activeConnByUser, userName);
  }

  lemma TouchIPKeeps(s: State, cfg: Config, ip: Option<IP>)
    ensures KeepsConnections(s, TouchIP(s, cfg, ip))
  {
    hide EnsureConnMap, TouchIP;
    TouchIPChanges(s, cfg, ip);
    if ip.Some? {
      EnsureKeeps(s.activeConnByIP, ip.value);
    }
  }

  lemma SlotCheckKeeps(s: State, cfg: Config, userName: string, ip: Option<IP>)
    ensures KeepsConnections(s, SlotCheck(s, cfg, userName, ip).0)
  {
    hide Touch, TouchIP, UserFull, IPFull, KeepsConnections;
    var s1 := Touch(s, cfg, userName);
    TouchKeeps(s, cfg, userName);
    TouchIPKeeps(s1, cfg, ip);
    KeepsTransitive(s, s1, TouchIP(s1, cfg, ip));
  }

  lemma DecideAgrees(s: State, live: LiveSet, cfg: Config, user: User, userName: string, ip: Option<IP>, now: R.Time)
    requires Agrees(s, live)
    ensures Agrees(Decide(s, cfg, user, userName, ip, now).0, live)
  {
    hide Decide;
    DecideKeepsConnections(s, cfg, user, userName, ip, now);
    var s' := Decide(s, cfg, user, userName, ip, now).0;
    forall u ensures ConnsOf(s'.activeConnByUser, u) == ByUser(live, u) {
      assert ConnsOf(s.activeConnByUser, u) == ByUser(live, u);
    }
    forall jp ensures ConnsOf(s'.activeConnByIP, jp) == ByIP(live, jp) {
      assert ConnsOf(s.activeConnByIP, jp) == ByIP(live, jp);
    }
  }

  // ---- What the agreement means ----

  // The addresses counted for a user are those it has live connections from.
  lemma LiveIPsExact(s: State, live: LiveSet, u: string, ip: string)
    requires CountsAgree(s.activeIPsCount, live)
    ensures ip in LiveIPs(s, u) <==> exists c :: c in live && Name(live[c]) == u
                                            && live[c].sourceIP.Some? && live[c].sourceIP.value == ip
  {
    hide Name;
    assert Count(s.activeIPsCount, u, ip) == |Both(live, u, ip)|;
    if ip in LiveIPs(s, u) {
      assert Both(live, u, ip) != {};
      var c :| c in Both(live, u, ip);
    }
    if c :| c in live && Name(live[c]) == u && live[c].sourceIP.Some? && live[c].sourceIP.value == ip {
      assert c in Both(live, u, ip);
    }
  }

  // A known user is reported online exactly when it has a live connection with an address.
  lemma OnlineExact(s: State, live: LiveSet, u: string)
    requires Agrees(s, live)
    ensures u in Online(s) <==>
              u in s.userByName && exists c :: c in live && Name(live[c]) == u && live[c].sourceIP.Some?
  {
    hide Name;
    if u in s.userByName {
      if c :| c in live && Name(live[c]) == u && live[c].sourceIP.Some? {
        LiveIPsExact(s, live, u, live[c].sourceIP.value);
        assert c in ByUser(live, u) && c in ConnsOf(s.activeConnByUser, u);
      }
      if u in Online(s) {
        var ip :| ip in LiveIPs(s, u);
        LiveIPsExact(s, live, u, ip);
      }
    }
  }

  // The snapshot's sum counts every live connection once.
  lemma ActiveSumExact(s: State, live: LiveSet)
    requires Agrees(s, live)
    ensures |set u, c | u in s.activeConnByUser && c in s.activeConnByUser[u] :: (u, c)| == |live|
  {
    hide Name;
    var pairs := set u, c | u in s.activeConnByUser && c in s.activeConnByUser[u] :: (u, c);
    forall p ensures p in pairs <==> p in PairsOf(live) {
      assert p.0 in s.activeConnByUser ==> ConnsOf(s.activeConnByUser, p.0) == ByUser(live, p.0);
      if p in PairsOf(live) {
        assert p.1 in ByUser(live, p.0) && ConnsOf(s.activeConnByUser, p.0) == ByUser(live, p.0);
      }
    }
    assert pairs == PairsOf(live);
    PairsSize(live);
  }

  function PairsOf(live: LiveSet): set<(string, string)> {
    set c | c in live :: (Name(live[c]), c)
  }

  lemma {:induction false} PairsSize(live: LiveSet)
    ensures |PairsOf(live)| == |live|
    decreases |live|
  {
    hide Name;
    if live == map[] {
      assert PairsOf(live) == {};
    } else {
      var c :| c in live;
      var rest := live - {c};
      assert live.Keys == rest.Keys + {c};
      PairsSize(rest);
      assert PairsOf(live) == PairsOf(rest) + {(Name(live[c]), c)};
    }
  }

  // ---- Reused connection IDs ----

  // The counts need no distinct IDs: they follow the connections.
  lemma RegisterCounts(s: State, live: LiveSet, c: string, meta: ConnMeta)
    requires CountsAgree(s.activeIPsCount, live) && c !in live && Name(meta) != ""
    ensures CountsAgree(Register(s, meta).activeIPsCount, live[c := meta])
  {
    hide Name, AddConn, CountUp, CountsAgree, Register;
    RegisterChanges(s, meta);
    AddCounts(s.activeIPsCount, live, c, meta);
  }

  lemma UnregisterCounts(s: State, live: LiveSet, c: string)
    requires CountsAgree(s.activeIPsCount, live) && c in live && Name(live[c]) != ""
    ensures CountsAgree(Unregister(s, live[c]).activeIPsCount, live - {c})
  {
    hide Name, DropConn, CountDown, CountsAgree;
    DropCounts(s.activeIPsCount, live, c, live[c]);
  }

  // A second tracker restarts the IDs. A connection registered under an ID its
  // user already holds replaces that entry: the user's map grows exactly when
  // the ID is new to it.
  lemma RegisterGrowsIffFresh(s: State, meta: ConnMeta)
    requires Name(meta) != ""
    ensures |ConnsOf(Register(s, meta).activeConnByUser, Name(meta))|
         == |ConnsOf(s.activeConnByUser, Name(meta))| + 1
        <==> meta.connID !in ConnsOf(s.activeConnByUser, Name(meta))
  {
  }

  // The reference counts need no distinct IDs: they follow the multiset of
  // (user, address) pairs through every registration and closing.
  ghost predicate CountsFollow(s: State, pairs: multiset<(string, string)>) {
    CountsTight(s.activeIPsCount) && forall u, ip :: Count(s.activeIPsCount, u, ip) == pairs[(u, ip)]
  }

  function PairOf(meta: ConnMeta): multiset<(string, string)> {
    if Name(meta) == "" || meta.sourceIP.None? then multiset{} else multiset{(Name(meta), meta.sourceIP.value)}
  }

  lemma RegisterCountsFollow(s: State, pairs: multiset<(string, string)>, meta: ConnMeta)
    requires CountsFollow(s, pairs)
    ensures CountsFollow(Register(s, meta), pairs + PairOf(meta))
  {
    if Name(meta) != "" && meta.sourceIP.Some? {
      CountUpAt(s.activeIPsCount, Name(meta), meta.sourceIP.value);
    }
  }

  lemma UnregisterCountsFollow(s: State, pairs: multiset<(string, string)>, meta: ConnMeta)
    requires CountsFollow(s, pairs) && PairOf(meta) <= pairs
    ensures CountsFollow(Unregister(s, meta), pairs - PairOf(meta))
  {
    if Name(meta) != "" && meta.sourceIP.Some? {
      assert pairs[(Name(meta), meta.sourceIP.value)] > 0 by {
        assert PairOf(meta)[(Name(meta), meta.sourceIP.value)] == 1;
      }
      CountDownAt(s.activeIPsCount, Name(meta), meta.sourceIP.value);
    }
  }
}
