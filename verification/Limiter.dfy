// The connection limiter object. Each method is one pass through the program's
// critical sections with nothing in between; the interleavings of Check and
// Register are in Admission, those of UserSpeedBucket in Buckets.

module Limiter {
  import opened Options
  import opened Panel
  import opened Strings
  import opened Sorting
  import opened LimiterSpec
  import R = Rates
  import Identity

  // A token bucket: the object it is, and the rate it was made with.
  datatype Bucket = Bucket(object_: nat, bytesPerSecond: real)

  function SpeedLimitBytesPerSecond(mbps: int): (rate: real)
    ensures rate > 0.0 <==> mbps > 0
  {
    if mbps <= 0 then 0.0 else mbps as real * 1024.0 * 1024.0 / 8.0
  }

  // Limits are in binary megabits, rates in bytes.
  lemma RateOfLimit(mbps: int)
    requires mbps > 0
    ensures SpeedLimitBytesPerSecond(mbps) * 8.0 == (mbps * 1048576) as real
    ensures SpeedLimitBytesPerSecond(8) == 1048576.0
  {
    assert (mbps * 1048576) as real == mbps as real * 1048576.0;
  }

  ghost predicate Named(name: string, user: User) {
    name == Identity.LimiterUserName(user.id)
  }

  // Every user is tabled under its own name.
  ghost predicate TableOk(users: map<string, User>) {
    forall name :: name in users ==> Named(name, users[name])
  }

  lemma {:induction false} UserTableOk(users: seq<User>)
    ensures TableOk(UserTable(users))
  {
    if users != [] {
      UserTableOk(users[..|users| - 1]);
    }
  }

  // A name is tabled exactly when some listed user has it, and the last such user wins.
  lemma {:induction false} UserTableAt(users: seq<User>, i: nat)
    requires i < |users| && forall j :: i < j < |users| ==> users[j].id != users[i].id
    ensures var name := Identity.LimiterUserName(users[i].id);
      name in UserTable(users) && UserTable(users)[name] == users[i]
  {
    hide Identity.LimiterUserName;
    var n := |users| - 1;
    if i < n {
      UserTableAt(users[..n], i);
      Identity.UserNamesDistinct(users[n].id, users[i].id);
    }
  }

  // The addresses of a set in byte order.
  method SortedIPs(ips: set<string>) returns (list: seq<string>)
    ensures IsOrdered(list, ips, Le)
  {
    list := [];
    var todo := ips;
    while todo != {}
      invariant todo <= ips && Distinct(list)
      invariant forall ip :: ip in list <==> ip in ips && ip !in todo
      decreases todo
    {
      var ip :| ip in todo;
      todo := todo - {ip};
      list := list + [ip];
    }
    LeTotalPreorder();
    SortIsSortedPermutation(list, Le);
    PermutationKeepsDistinct(list, Sort(list, Le));
    list := Sort(list, Le);
  }

  // ensureConnMap and the insertion into the map it returns.
  method InsertConn(index: map<string, Conns>, key: string, meta: ConnMeta) returns (next: map<string, Conns>)
    ensures next == AddConn(index, key, meta)
  {
    next := index;
    if key !in next {
      next := next[key := map[]];
    }
    next := next[key := next[key][meta.connID := meta]];
  }

  method DeleteConn(index: map<string, Conns>, key: string, meta: ConnMeta) returns (next: map<string, Conns>)
    ensures next == DropConn(index, key, meta)
  {
    next := index;
    if key in next {
      var conns := next[key] - {meta.connID};
      next := next[key := conns];
      if conns == map[] {
        next := next - {key};
      }
    }
  }

  method IncrementIP(counts: map<string, map<string, int>>, userName: string, ip: string)
    returns (next: map<string, map<string, int>>)
    ensures next == CountUp(counts, userName, ip)
  {
    next := counts;
    if userName !in next {
      next := next[userName := map[]];
    }
    var mine := next[userName];
    mine := mine[ip := (if ip in mine then mine[ip] else 0) + 1];
    next := next[userName := mine];
  }

  method DecrementIP(counts: map<string, map<string, int>>, userName: string, ip: string)
    returns (next: map<string, map<string, int>>)
    ensures next == CountDown(counts, userName, ip)
  {
    next := counts;
    if userName in next {
      var mine := next[userName];
      var n := (if ip in mine then mine[ip] else 0) - 1;
      mine := mine[ip := n];
      if n <= 0 {
        mine := mine - {ip};
      }
      assert mine == if n <= 0 then counts[userName] - {ip} else counts[userName][ip := n];
      next := next[userName := mine];
      if mine == map[] {
        next := next - {userName};
      }
    }
  }

  // The device limit looks at nothing the rate and slot checks change.
  ghost predicate SameOnline(s: State, s': State) {
    && s'.oldUserOnline == s.oldUserOnline && s'.remoteUserOnline == s.remoteUserOnline
    && s'.aliveList == s.aliveList && s'.activeIPsCount == s.activeIPsCount
  }

  ghost function OnlineOf(users: map<string, User>, names: set<string>,
                          counts: map<string, map<string, int>>): set<string> {
    set u | u in names && u in users && IPsIn(counts, u) != {}
  }

  // One pass over the names with connections: who is online from where.
  method OnlineDevices(users: map<string, User>, names: set<string>, counts: map<string, map<string, int>>)
    returns (payload: map<int, seq<string>>, online: map<string, set<string>>)
    requires TableOk(users)
    ensures forall u :: u in online <==> u in OnlineOf(users, names, counts)
    ensures forall u :: u in online ==> online[u] == IPsIn(counts, u)
    ensures forall u :: u in online ==> users[u].id in payload && IsOrdered(payload[users[u].id], online[u], Le)
    ensures forall id :: id in payload ==> Identity.LimiterUserName(id) in online
  {
    hide Identity.LimiterUserName, IPsIn, IsOrdered;
    payload, online := map[], map[];
    var todo := names;
    while todo != {}
      invariant todo <= names
      invariant forall u :: u in online <==> u in names && u !in todo && u in users && IPsIn(counts, u) != {}
      invariant forall u :: u in online ==> online[u] == IPsIn(counts, u)
      invariant forall u :: u in online ==> users[u].id in payload && IsOrdered(payload[users[u].id], online[u], Le)
      invariant forall id :: id in payload ==> Identity.LimiterUserName(id) in online
      decreases todo
    {
      var userName :| userName in todo;
      todo := todo - {userName};
      var ips := IPsIn(counts, userName);
      if ips != {} && userName in users {
        var ipList := SortedIPs(ips);
        forall u | u in online ensures users[u].id != users[userName].id {
          Identity.UserNamesDistinct(users[u].id, users[userName].id);
        }
        payload := payload[users[userName].id := ipList];
        online := online[userName := ips];
      }
    }
  }

  lemma BuiltAlive(s: State, online: map<string, set<string>>)
    requires forall u :: u in online <==> u in OnlineOf(s.userByName, s.activeConnByUser.Keys, s.activeIPsCount)
    requires forall u :: u in online ==> online[u] == IPsIn(s.activeIPsCount, u)
    ensures BuildAlive(s) == s.(oldUserOnline := online)
  {
    assert BuildAlive(s).oldUserOnline == online;
  }

  // A missing name has limit 0.
  function LimitOf(limits: map<string, int>, name: string): int {
    if name in limits then limits[name] else 0
  }

  // Some record under this name has this speed limit.
  predicate Carries(users: seq<User>, name: string, limit: int) {
    exists u :: u in users && Identity.LimiterUserName(u.id) == name && u.speedLimit == limit
  }

  lemma CarriesOneMore(users: seq<User>, i: nat, name: string, limit: int)
    requires i < |users|
    ensures Carries(users[..i + 1], name, limit) <==>
      || Carries(users[..i], name, limit)
      || (Identity.LimiterUserName(users[i].id) == name && users[i].speedLimit == limit)
  {
    hide Identity.LimiterUserName;
    assert users[..i + 1] == users[..i] + [users[i]];
    assert users[i] in users[..i + 1];
  }

  // The table UpdateUsers builds, with the limits and the buckets it carries over: a
  // bucket is kept as soon as one record carries the limit recorded before, even if
  // a later record of that ID replaces the limit.
  method NextTables(users: seq<User>, limits: map<string, int>, buckets: map<string, Bucket>)
    returns (next: map<string, User>, nextLimits: map<string, int>, nextBuckets: map<string, Bucket>)
    ensures next == UserTable(users)
    ensures nextLimits == map name | name in next :: next[name].speedLimit
    ensures forall name :: name in nextBuckets <==> name in buckets && Carries(users, name, LimitOf(limits, name))
    ensures forall name :: name in nextBuckets ==> nextBuckets[name] == buckets[name]
  {
    hide Identity.LimiterUserName, Carries;
    next, nextLimits, nextBuckets := map[], map[], map[];
    NobodyCarries();
    for i := 0 to |users|
      invariant next == UserTable(users[..i])
      invariant nextLimits == map name | name in next :: next[name].speedLimit
      invariant forall name :: name in nextBuckets <==>
          name in buckets && Carries(users[..i], name, LimitOf(limits, name))
      invariant forall name :: name in nextBuckets ==> nextBuckets[name] == buckets[name]
    {
      var user := users[i];
      var name := Identity.LimiterUserName(user.id);
      next := next[name := user];
      nextLimits := nextLimits[name := user.speedLimit];
      if name in buckets && LimitOf(limits, name) == user.speedLimit {
        nextBuckets := nextBuckets[name := buckets[name]];
      }
      forall n ensures Carries(users[..i + 1], n, LimitOf(limits, n)) <==>
                         || Carries(users[..i], n, LimitOf(limits, n))
                         || (name == n && user.speedLimit == LimitOf(limits, n)) {
        CarriesOneMore(users, i, n, LimitOf(limits, n));
      }
      assert users[..i + 1][..i] == users[..i];
    }
    assert users[..|users|] == users;
  }

  lemma NobodyCarries()
    ensures forall name, limit :: !Carries([], name, limit)
  {
  }

  // Every record with a positive limit agrees with the last record of its ID.
  ghost predicate Settled(users: seq<User>) {
    forall name, limit :: limit > 0 && Carries(users, name, limit) ==>
      name in UserTable(users) && UserTable(users)[name].speedLimit == limit
  }

  // Different positive limits have different rates.
  lemma RatesDiffer(a: int, b: int)
    requires a > 0
    ensures SpeedLimitBytesPerSecond(a) == SpeedLimitBytesPerSecond(b) <==> a == b
  {
  }

  lemma PositiveRate(limit: int)
    ensures SpeedLimitBytesPerSecond(limit) > 0.0 <==> limit > 0
  {
  }

  // A record's name is tabled.
  lemma {:induction false} CarriedIsTabled(users: seq<User>, name: string, limit: int)
    requires Carries(users, name, limit)
    ensures name in UserTable(users)
  {
    hide Identity.LimiterUserName;
    var n := |users| - 1;
    assert users == users[..n] + [users[n]];
    if Identity.LimiterUserName(users[n].id) != name {
      CarriedIsTabled(users[..n], name, limit);
    }
  }

  class Limiter {
    var userByName: map<string, User>
    var speedLimitByName: map<string, int>
    var speedBucketByName: map<string, Bucket>
    var nextBucket: nat
    var oldUserOnline: map<string, set<string>>
    var remoteUserOnline: map<int, set<string>>
    var activeConnByUser: map<string, Conns>
    var activeConnByIP: map<string, Conns>
    var activeIPsCount: map<string, map<string, int>>
    var recentConnByUser: R.Index
    var recentConnByIP: R.Index
    var aliveList: map<int, int>
    const cfg: Config

    function View(): State
      reads this
    {
      State(userByName, oldUserOnline, remoteUserOnline, aliveList, activeConnByUser, activeConnByIP,
            activeIPsCount, recentConnByUser, recentConnByIP)
    }

    // Stored buckets have identities of their own and a positive rate.
    ghost predicate BucketsOk()
      reads this`speedBucketByName, this`speedLimitByName, this`nextBucket
    {
      forall name :: name in speedBucketByName ==>
        && speedBucketByName[name].object_ < nextBucket && speedBucketByName[name].bytesPerSecond > 0.0
        && name in speedLimitByName
    }

    // Stored buckets run at the user's current limit.
    ghost predicate RatesCurrent()
      reads this`speedBucketByName, this`speedLimitByName
    {
      forall name :: name in speedBucketByName ==>
        speedBucketByName[name].bytesPerSecond == SpeedLimitBytesPerSecond(LimitOf(speedLimitByName, name))
    }

    ghost predicate Valid()
      reads this`userByName, this`speedBucketByName, this`speedLimitByName, this`nextBucket
    {
      TableOk(userByName) && BucketsOk()
    }

    constructor (cfg: Config)
      ensures this.cfg == cfg && View() == EMPTY && Valid()
    {
      this.cfg := cfg;
      userByName, speedLimitByName, speedBucketByName, nextBucket := map[], map[], map[], 0;
      oldUserOnline, remoteUserOnline, aliveList := map[], map[], map[];
      activeConnByUser, activeConnByIP, activeIPsCount := map[], map[], map[];
      recentConnByUser, recentConnByIP := map[], map[];
    }

    method CheckCPS(index: R.Index, key: string, limit: int, now: R.Time) returns (index': R.Index, ok: bool)
      ensures (index', ok) == R.CheckCPS(index, key, limit, cfg.window, now)
    {
      if key !in index {
        return index[key := R.Rate(now, 1)], true;
      }
      var rl := index[key];
      if now - rl.lastReset >= cfg.window {
        return index[key := rl.(lastReset := now, count := 1)], true;
      }
      if rl.count >= limit {
        return index, false;
      }
      return index[key := rl.(count := rl.count + 1)], true;
    }

    method Check(meta: ConnMeta, now: R.Time) returns (d: Decision)
      modifies this`recentConnByUser, this`recentConnByIP, this`activeConnByUser, this`activeConnByIP
      ensures (View(), d) == LimiterSpec.Check(old(View()), cfg, meta, now)
    {
      var userName := TrimSpace(meta.user);
      if userName == "" {
        return Deny("missing user");
      }
      if userName !in userByName {
        return Deny("unknown user");
      }
      d := Decide(userByName[userName], userName, meta.sourceIP, now);
    }

    // The part of Check that runs under the state lock.
    method Decide(user: User, userName: string, ip: Option<IP>, now: R.Time) returns (d: Decision)
      modifies this`recentConnByUser, this`recentConnByIP, this`activeConnByUser, this`activeConnByIP
      ensures (View(), d) == LimiterSpec.Decide(old(View()), cfg, user, userName, ip, now)
    {
      ghost var s := View();
      d := CheckRates(userName, ip, now);
      if d.Deny? {
        return;
      }
      d := CheckSlots(userName, ip);
      if d.Deny? {
        return;
      }
      assert SameOnline(s, View());
      if user.deviceLimit > 0 && ip.Some? {
        var currentIPs := IPsIn(activeIPsCount, userName);
        var known := ip.value in currentIPs || ip.value in SetOf(oldUserOnline, userName)
                     || ip.value in SetOf(remoteUserOnline, user.id);
        if !known {
          var current := CurrentDeviceCount(userName, user.id, currentIPs);
          if current >= user.deviceLimit {
            return Deny("device limit exceeded");
          }
        }
      }
    }

    method CheckRates(userName: string, ip: Option<IP>, now: R.Time) returns (d: Decision)
      modifies this`recentConnByUser, this`recentConnByIP
      ensures (View(), d) == RateCheck(old(View()), cfg, userName, ip, now)
    {
      if cfg.maxNewConnPerUser > 0 {
        var ok;
        recentConnByUser, ok := CheckCPS(recentConnByUser, userName, cfg.maxNewConnPerUser, now);
        if !ok {
          return Deny("new connections per user limit exceeded");
        }
      }
      if ip.Some? && cfg.maxNewConnPerIP > 0 {
        var ok;
        recentConnByIP, ok := CheckCPS(recentConnByIP, ip.value, cfg.maxNewConnPerIP, now);
        if !ok {
          return Deny("new connections per ip limit exceeded");
        }
      }
      return Allow;
    }

    method CheckSlots(userName: string, ip: Option<IP>) returns (d: Decision)
      modifies this`activeConnByUser, this`activeConnByIP
      ensures (View(), d) == SlotCheck(old(View()), cfg, userName, ip)
    {
      if cfg.maxConnPerUser > 0 {
        activeConnByUser := EnsureConnMap(activeConnByUser, userName);
        if |activeConnByUser[userName]| >= cfg.maxConnPerUser {
          return Deny("active connections per user limit exceeded");
        }
      }
      if ip.Some? && cfg.maxConnPerIP > 0 {
        activeConnByIP := EnsureConnMap(activeConnByIP, ip.value);
        if |activeConnByIP[ip.value]| >= cfg.maxConnPerIP {
          return Deny("active connections per ip limit exceeded");
        }
      }
      return Allow;
    }

    method CurrentDeviceCount(userName: string, userID: int, currentIPs: set<string>) returns (count: int)
      requires currentIPs == LiveIPs(View(), userName)
      ensures count == DeviceCount(View(), userName, userID)
    {
      count := |currentIPs|;
      if |SetOf(remoteUserOnline, userID)| > count {
        count := |SetOf(remoteUserOnline, userID)|;
      }
      if userID in aliveList && aliveList[userID] > count {
        count := aliveList[userID];
      }
      if |SetOf(oldUserOnline, userName)| > count {
        count := |SetOf(oldUserOnline, userName)|;
      }
    }

    method Register(meta: ConnMeta)
      modifies this`activeConnByUser, this`activeConnByIP, this`activeIPsCount
      ensures View() == LimiterSpec.Register(old(View()), meta)
    {
      var userName := TrimSpace(meta.user);
      if userName == "" {
        return;
      }
      activeConnByUser := InsertConn(activeConnByUser, userName, meta);
      if meta.sourceIP.Some? {
        activeConnByIP := InsertConn(activeConnByIP, meta.sourceIP.value, meta);
        activeIPsCount := IncrementIP(activeIPsCount, userName, meta.sourceIP.value);
      }
    }

    method Unregister(meta: ConnMeta)
      modifies this`activeConnByUser, this`activeConnByIP, this`activeIPsCount
      ensures View() == LimiterSpec.Unregister(old(View()), meta)
    {
      var userName := TrimSpace(meta.user);
      if userName != "" {
        activeConnByUser := DeleteConn(activeConnByUser, userName, meta);
      }
      if meta.sourceIP.Some? {
        activeConnByIP := DeleteConn(activeConnByIP, meta.sourceIP.value, meta);
        if userName != "" {
          activeIPsCount := DecrementIP(activeIPsCount, userName, meta.sourceIP.value);
        }
      }
    }

    method UpdateUsers(users: seq<User>, now: R.Time)
      requires Valid()
      modifies this`userByName, this`recentConnByUser, this`recentConnByIP, this`speedLimitByName,
               this`speedBucketByName
      ensures Valid() && View() == LimiterSpec.UpdateUsers(old(View()), cfg, users, now)
      ensures speedLimitByName == map name | name in userByName :: userByName[name].speedLimit
      // A bucket survives exactly when some record of its ID carries the old limit.
      ensures forall name :: name in speedBucketByName <==>
                name in old(speedBucketByName) && Carries(users, name, LimitOf(old(speedLimitByName), name))
      ensures forall name :: name in speedBucketByName ==> speedBucketByName[name] == old(speedBucketByName)[name]
      // Rates stay current exactly when the last record of every such ID carries it too.
      ensures old(RatesCurrent()) ==>
        (RatesCurrent() <==> forall name :: name in speedBucketByName ==>
                               LimitOf(speedLimitByName, name) == LimitOf(old(speedLimitByName), name))
      ensures old(RatesCurrent()) && Settled(users) ==> RatesCurrent()
    {
      hide UserTable, Carries, SpeedLimitBytesPerSecond, LimitOf, Settled, R.Sweep, TableOk, BucketsOk, RatesCurrent;
      ReplaceTables(users);
      recentConnByIP := SweptIndex(recentConnByIP, now);
      recentConnByUser := SweptIndex(recentConnByUser, now);
    }

    method ReplaceTables(users: seq<User>)
      requires Valid()
      modifies this`userByName, this`speedLimitByName, this`speedBucketByName
      ensures Valid() && userByName == UserTable(users)
      ensures speedLimitByName == map name | name in userByName :: userByName[name].speedLimit
      ensures forall name :: name in speedBucketByName <==>
                name in old(speedBucketByName) && Carries(users, name, LimitOf(old(speedLimitByName), name))
      ensures forall name :: name in speedBucketByName ==> speedBucketByName[name] == old(speedBucketByName)[name]
      ensures old(RatesCurrent()) ==>
        (RatesCurrent() <==> forall name :: name in speedBucketByName ==>
                               LimitOf(speedLimitByName, name) == LimitOf(old(speedLimitByName), name))
      ensures old(RatesCurrent()) && Settled(users) ==> RatesCurrent()
    {
      hide Named, UserTable, Carries, SpeedLimitBytesPerSecond;
      ghost var limits, buckets := speedLimitByName, speedBucketByName;
      userByName, speedLimitByName, speedBucketByName := NextTables(users, speedLimitByName, speedBucketByName);
      UserTableOk(users);
      forall name | name in speedBucketByName ensures name in speedLimitByName {
        CarriedIsTabled(users, name, LimitOf(limits, name));
      }
      forall name | name in speedBucketByName && old(RatesCurrent())
        ensures LimitOf(limits, name) > 0
        ensures buckets[name].bytesPerSecond == SpeedLimitBytesPerSecond(LimitOf(speedLimitByName, name)) <==>
                  LimitOf(speedLimitByName, name) == LimitOf(limits, name)
      {
        PositiveRate(LimitOf(limits, name));
        RatesDiffer(LimitOf(limits, name), LimitOf(speedLimitByName, name));
      }
    }

    method SweptIndex(index: R.Index, now: R.Time) returns (swept: R.Index)
      ensures swept == R.Sweep(index, cfg.window, now)
    {
      swept := index;
      var todo := index.Keys;
      while todo != {}
        invariant todo <= index.Keys
        invariant swept == map k | k in index && (k in todo || now - index[k].lastReset <= cfg.window * 2) :: index[k]
        decreases todo
      {
        var key :| key in todo;
        todo := todo - {key};
        if now - index[key].lastReset > cfg.window * 2 {
          swept := swept - {key};
        }
      }
    }

    method UpdateAliveList(alive: map<int, seq<string>>)
      modifies this`aliveList, this`remoteUserOnline
      ensures View() == LimiterSpec.UpdateAliveList(old(View()), alive)
    {
      aliveList := map uid | uid in alive :: |alive[uid]|;
      remoteUserOnline := map uid | uid in alive :: StringSet(alive[uid]);
    }

    // The panel's list of online devices, which also becomes the set of last
    // reported addresses: exactly the known users that are connected from some
    // address, each with its addresses in order.
    method BuildAlivePayload() returns (payload: map<int, seq<string>>)
      requires Valid()
      modifies this`oldUserOnline
      ensures View() == BuildAlive(old(View()))
      ensures forall u :: u in oldUserOnline ==>
                userByName[u].id in payload && IsOrdered(payload[userByName[u].id], oldUserOnline[u], Le)
      ensures forall id :: id in payload ==> Identity.LimiterUserName(id) in oldUserOnline
    {
      hide IPsIn, IsOrdered, OnlineOf, BuildAlive, Identity.LimiterUserName, BucketsOk;
      ghost var s := View();
      payload, oldUserOnline := OnlineDevices(userByName, activeConnByUser.Keys, activeIPsCount);
      BuiltAlive(s, oldUserOnline);
      assert View() == s.(oldUserOnline := oldUserOnline);
    }

    method UserSpeedBucket(userName: string) returns (bucket: Option<Bucket>)
      requires Valid()
      modifies this`speedBucketByName, this`nextBucket
      ensures Valid()
      ensures var name := TrimSpace(userName);
        if LimitOf(speedLimitByName, name) <= 0 then
          bucket == None && speedBucketByName == old(speedBucketByName)
        else
          && bucket.Some? && speedBucketByName == old(speedBucketByName)[name := bucket.value]
          && (if name in old(speedBucketByName) then bucket.value == old(speedBucketByName)[name]
              else bucket.value.bytesPerSecond == SpeedLimitBytesPerSecond(speedLimitByName[name]))
      ensures old(RatesCurrent()) ==> RatesCurrent()
    {
      var name := TrimSpace(userName);
      var speedLimit := LimitOf(speedLimitByName, name);
      if speedLimit <= 0 {
        return None;
      }
      if name in speedBucketByName {
        return Some(speedBucketByName[name]);
      }
      var bytesPerSecond := SpeedLimitBytesPerSecond(speedLimit);
      if bytesPerSecond <= 0.0 {
        return None;
      }
      var b := Bucket(nextBucket, bytesPerSecond);
      nextBucket := nextBucket + 1;
      speedBucketByName := speedBucketByName[name := b];
      return Some(b);
    }

    // The number of registered connections, summed over the users' maps.
    method ActiveConnections() returns (n: nat)
      ensures n == |set u, c | u in activeConnByUser && c in activeConnByUser[u] :: (u, c)|
    {
      n := 0;
      var todo := activeConnByUser.Keys;
      while todo != {}
        invariant todo <= activeConnByUser.Keys
        invariant n == |set u, c | u in activeConnByUser && u !in todo && c in activeConnByUser[u] :: (u, c)|
        decreases todo
      {
        var userName :| userName in todo;
        ghost var before := set u, c | u in activeConnByUser && u !in todo && c in activeConnByUser[u] :: (u, c);
        todo := todo - {userName};
        ghost var mine := set c | c in activeConnByUser[userName] :: (userName, c);
        PairCount(userName, activeConnByUser[userName].Keys);
        assert (set u, c | u in activeConnByUser && u !in todo && c in activeConnByUser[u] :: (u, c)) == before + mine;
        n := n + |activeConnByUser[userName]|;
      }
      assert (set u, c | u in activeConnByUser && u !in todo && c in activeConnByUser[u] :: (u, c))
          == (set u, c | u in activeConnByUser && c in activeConnByUser[u] :: (u, c));
    }
  }

  lemma {:induction false} PairCount(u: string, cs: set<string>)
    ensures |set c | c in cs :: (u, c)| == |cs|
  {
    var pairs := set c | c in cs :: (u, c);
    if cs == {} {
      assert pairs == {};
    } else {
      var x :| x in cs;
      PairCount(u, cs - {x});
      assert pairs == (set c | c in cs - {x} :: (u, c)) + {(u, x)};
    }
  }
}
