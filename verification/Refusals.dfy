// When Check refuses: the converse of the limits. A Check is refused for a limit only
// when that limit is used up, and allowed otherwise.

module Refusals {
  import opened Options
  import opened Panel
  import opened Strings
  import opened LimiterRuns
  import Identity
  import LimiterIndex
  import S = LimiterSpec
  import R = Rates

  function AfterRun(s: S.State, cfg: S.Config, run: seq<Op>): S.State
    decreases run
  {
    if run == [] then s else AfterRun(Apply(s, cfg, run[0], true).0, cfg, run[1..])
  }

  // The clock runs from t to now and never goes back.
  ghost predicate Between(run: seq<Op>, t: R.Time, now: R.Time) {
    t <= now && (run == [] || (t <= Clock(run[0], t) && Between(run[1..], Clock(run[0], t), now)))
  }

  // 1 for a Check about the key that gets past this side's rate limit from lo on.
  function PastOne(s: S.State, cfg: S.Config, op: Op, side: Side, key: string, lo: R.Time): nat {
    if About(op, side, key) && lo <= op.now && GotPast(Apply(s, cfg, op, true).1.value, side) then 1 else 0
  }

  // How many Checks about the key get past from lo on, going by their decisions.
  function Past(s: S.State, cfg: S.Config, run: seq<Op>, side: Side, key: string, lo: R.Time): nat
    decreases run
  {
    if run == [] then 0
    else PastOne(s, cfg, run[0], side, key, lo) + Past(Apply(s, cfg, run[0], true).0, cfg, run[1..], side, key, lo)
  }

  // ---- A counter never holds more than what got past ----

  lemma OpCounts(s: S.State, cfg: S.Config, op: Op, side: Side, key: string, t: R.Time, lo: R.Time)
    requires LimitOf(cfg, side) > 0 && R.Dated(IndexOf(s, side), t) && t <= Clock(op, t)
    ensures var s' := Apply(s, cfg, op, true).0;
      && R.Dated(IndexOf(s', side), Clock(op, t))
      && R.CountFrom(IndexOf(s', side), key, lo)
         <= R.CountFrom(IndexOf(s, side), key, lo) + PastOne(s, cfg, op, side, key, lo)
  {
    hide Apply, R.CheckCPS, R.Step, R.Dated, R.CountFrom, About, GotPast, IndexOf, LimitOf;
    var e := OpEvent(s, cfg, op, side, key);
    if e.Some? {
      R.CountStep(IndexOf(s, side), LimitOf(cfg, side), cfg.window, key, e.value, t, lo, op.now);
    } else {
      DatedLater(IndexOf(s, side), t, Clock(op, t));
    }
  }

  lemma DatedLater(index: R.Index, t: R.Time, now: R.Time)
    requires R.Dated(index, t) && t <= now
    ensures R.Dated(index, now)
  {
  }

  lemma {:induction false} CounterIsPast(s: S.State, cfg: S.Config, run: seq<Op>, side: Side, key: string, t: R.Time,
                                         now: R.Time, lo: R.Time)
    requires LimitOf(cfg, side) > 0 && R.Dated(IndexOf(s, side), t) && Between(run, t, now)
    ensures R.CountFrom(IndexOf(AfterRun(s, cfg, run), side), key, lo)
         <= R.CountFrom(IndexOf(s, side), key, lo) + Past(s, cfg, run, side, key, lo)
    decreases run
  {
    hide Apply, PastOne, R.Dated, R.CountFrom, IndexOf, LimitOf, Clock;
    if run != [] {
      OpCounts(s, cfg, run[0], side, key, t, lo);
      CounterIsPast(Apply(s, cfg, run[0], true).0, cfg, run[1..], side, key, Clock(run[0], t), now, lo);
    }
  }

  lemma {:induction false} EarlierHoldsMore(s: S.State, cfg: S.Config, run: seq<Op>, side: Side, key: string,
                                            lo: R.Time, earlier: R.Time)
    requires earlier <= lo
    ensures Past(s, cfg, run, side, key, lo) <= Past(s, cfg, run, side, key, earlier)
    decreases run
  {
    hide Apply, About, GotPast;
    if run != [] {
      EarlierHoldsMore(Apply(s, cfg, run[0], true).0, cfg, run[1..], side, key, lo, earlier);
    }
  }

  lemma RateRefused(cfg: S.Config, run: seq<Op>, side: Side, key: string, t: R.Time, now: R.Time)
    requires Between(run, t, now) && LimitOf(cfg, side) > 0
    requires !R.CheckCPS(IndexOf(AfterRun(S.EMPTY, cfg, run), side), key, LimitOf(cfg, side), cfg.window, now).1
    ensures Past(S.EMPTY, cfg, run, side, key, now - cfg.window + 1) >= LimitOf(cfg, side)
  {
    hide AfterRun, Past;
    var start := IndexOf(AfterRun(S.EMPTY, cfg, run), side)[key].lastReset;
    CounterIsPast(S.EMPTY, cfg, run, side, key, t, now, start);
    EarlierHoldsMore(S.EMPTY, cfg, run, side, key, start, now - cfg.window + 1);
  }

  // ---- The reasons ----

  lemma RateReasons(s: S.State, cfg: S.Config, u: string, ip: Option<S.IP>, now: R.Time)
    ensures var d := S.RateCheck(s, cfg, u, ip, now).1;
      && (d == S.Deny("new connections per user limit exceeded") ==>
            cfg.maxNewConnPerUser > 0
            && !R.CheckCPS(s.recentConnByUser, u, cfg.maxNewConnPerUser, cfg.window, now).1)
      && (d == S.Deny("new connections per ip limit exceeded") ==>
            cfg.maxNewConnPerIP > 0 && ip.Some?
            && !R.CheckCPS(s.recentConnByIP, ip.value, cfg.maxNewConnPerIP, cfg.window, now).1)
      && (d.Allow? || d.reason == "new connections per user limit exceeded"
          || d.reason == "new connections per ip limit exceeded")
  {
    hide S.UserRate, S.IPRate, R.CheckCPS;
    UserRateIs(s, cfg, u, now);
    if ip.Some? {
      IPRateIs(S.UserRate(s, cfg, u, now).0, cfg, ip.value, now);
    } else {
      NoIPRate(S.UserRate(s, cfg, u, now).0, cfg, now);
    }
  }

  ghost predicate UserHolds(s: S.State, cfg: S.Config, u: string) {
    cfg.maxConnPerUser > 0 && u in s.activeConnByUser && |s.activeConnByUser[u]| >= cfg.maxConnPerUser
  }

  ghost predicate AddressHolds(s: S.State, cfg: S.Config, ip: Option<S.IP>) {
    ip.Some? && cfg.maxConnPerIP > 0 && ip.value in s.activeConnByIP
    && |s.activeConnByIP[ip.value]| >= cfg.maxConnPerIP
  }

  // The device limit is used up, for an address that neither the node nor the panel
  // knows, when any of the four counts has reached it.
  ghost predicate DevicesReached(s: S.State, user: User, u: string, ip: Option<S.IP>) {
    ip.Some? && user.deviceLimit > 0 && NewAddress(s, user, u, ip.value) && AnyCountReaches(s, user, u)
  }

  ghost predicate SlotsFull(s: S.State, cfg: S.Config, user: User, u: string, ip: Option<S.IP>) {
    UserHolds(s, cfg, u) || AddressHolds(s, cfg, ip) || DevicesReached(s, user, u, ip)
  }

  ghost predicate NewAddress(s: S.State, user: User, u: string, ip: string) {
    && !(u in s.activeIPsCount && ip in s.activeIPsCount[u])
    && !(u in s.oldUserOnline && ip in s.oldUserOnline[u])
    && !(user.id in s.remoteUserOnline && ip in s.remoteUserOnline[user.id])
  }

  ghost predicate AnyCountReaches(s: S.State, user: User, u: string) {
    || (u in s.activeIPsCount && |s.activeIPsCount[u].Keys| >= user.deviceLimit)
    || (u in s.oldUserOnline && |s.oldUserOnline[u]| >= user.deviceLimit)
    || (user.id in s.remoteUserOnline && |s.remoteUserOnline[user.id]| >= user.deviceLimit)
    || (user.id in s.aliveList && s.aliveList[user.id] >= user.deviceLimit)
  }

  lemma DevicesFullIff(s: S.State, user: User, u: string, ip: Option<S.IP>)
    ensures S.DevicesFull(s, user, u, ip)
       <==> DevicesReached(s, user, u, ip)
  {
  }

  lemma FullIff(s: S.State, cfg: S.Config, u: string, ip: Option<S.IP>)
    ensures S.UserFull(s, cfg, u) <==> UserHolds(s, cfg, u)
    ensures S.IPFull(s, cfg, ip) <==> AddressHolds(s, cfg, ip)
  {
  }

  lemma DecideReasons(s: S.State, cfg: S.Config, user: User, u: string, ip: Option<S.IP>, now: R.Time)
    ensures var (rate, d) := (S.RateCheck(s, cfg, u, ip, now).1, S.Decide(s, cfg, user, u, ip, now).1);
      && (rate.Deny? ==> d == rate)
      && (rate.Allow? ==> (d.Allow? <==> !SlotsFull(s, cfg, user, u, ip)))
      && (rate.Allow? && d.Deny? ==>
            || (d.reason == "active connections per user limit exceeded" && UserHolds(s, cfg, u))
            || (d.reason == "active connections per ip limit exceeded" && AddressHolds(s, cfg, ip))
            || (d.reason == "device limit exceeded" && DevicesReached(s, user, u, ip)))
  {
    hide S.RateCheck, S.SlotCheck, S.DevicesFull, S.UserFull, S.IPFull, UserHolds, AddressHolds, DevicesReached;
    var s1 := S.RateCheck(s, cfg, u, ip, now).0;
    LimiterIndex.RateCheckChanges(s, cfg, u, ip, now);
    SlotReasons(s1, cfg, u, ip);
    FullIff(s1, cfg, u, ip);
    SameSlots(s, s1, cfg, user, u, ip);
    DevicesFullIff(s, user, u, ip);
  }

  lemma SameSlots(s: S.State, t: S.State, cfg: S.Config, user: User, u: string, ip: Option<S.IP>)
    requires t == s.(recentConnByUser := t.recentConnByUser, recentConnByIP := t.recentConnByIP)
    ensures UserHolds(t, cfg, u) == UserHolds(s, cfg, u) && AddressHolds(t, cfg, ip) == AddressHolds(s, cfg, ip)
    ensures DevicesReached(t, user, u, ip) == DevicesReached(s, user, u, ip)
  {
  }

  // ---- Main results ----

  // Some Check was entitled to be refused by this side's rate: its limit is on and at
  // least that many Checks about the key got past less than a window ago.
  ghost predicate RateUsed(cfg: S.Config, run: seq<Op>, side: Side, key: string, now: R.Time) {
    LimitOf(cfg, side) > 0 && Past(S.EMPTY, cfg, run, side, key, now - cfg.window + 1) >= LimitOf(cfg, side)
  }

  // After any run with a clock that never goes back, every refusal has the cause its
  // reason names.
  lemma RefusedForCause(cfg: S.Config, run: seq<Op>, meta: S.ConnMeta, t: R.Time, now: R.Time)
    requires Between(run, t, now)
    ensures var (s, u) := (AfterRun(S.EMPTY, cfg, run), S.Name(meta));
      var d := S.Check(s, cfg, meta, now).1;
      d.Deny? ==>
        || (d.reason == "missing user" && u == "")
        || (d.reason == "unknown user" && u != "" && u !in s.userByName)
        || (u in s.userByName && RefusedFor(cfg, run, s, s.userByName[u], u, meta.sourceIP, now, d.reason))
  {
    hide AfterRun, S.Decide, RefusedFor, S.Name;
    var (s, u) := (AfterRun(S.EMPTY, cfg, run), S.Name(meta));
    if u != "" && u in s.userByName {
      DecidedForCause(cfg, run, s.userByName[u], u, meta.sourceIP, t, now);
    }
  }

  ghost predicate RefusedFor(cfg: S.Config, run: seq<Op>, s: S.State, user: User, u: string, ip: Option<S.IP>,
                             now: R.Time, reason: string) {
    || (reason == "new connections per user limit exceeded" && RateUsed(cfg, run, PerUser, u, now))
    || (reason == "new connections per ip limit exceeded" && ip.Some? && RateUsed(cfg, run, PerIP, ip.value, now))
    || (reason == "active connections per user limit exceeded" && UserHolds(s, cfg, u))
    || (reason == "active connections per ip limit exceeded" && AddressHolds(s, cfg, ip))
    || (reason == "device limit exceeded" && DevicesReached(s, user, u, ip))
  }

  lemma DecidedForCause(cfg: S.Config, run: seq<Op>, user: User, u: string, ip: Option<S.IP>, t: R.Time, now: R.Time)
    requires Between(run, t, now)
    ensures var s := AfterRun(S.EMPTY, cfg, run);
      var d := S.Decide(s, cfg, user, u, ip, now).1;
      && (d.Deny? ==> RefusedFor(cfg, run, s, user, u, ip, now, d.reason))
      && (d.Allow? ==> !SlotsFull(s, cfg, user, u, ip))
  {
    hide AfterRun, Past, R.CheckCPS, S.RateCheck, S.Decide, UserHolds, AddressHolds, DevicesReached;
    var s := AfterRun(S.EMPTY, cfg, run);
    DecideReasons(s, cfg, user, u, ip, now);
    RateReasons(s, cfg, u, ip, now);
    var rate := S.RateCheck(s, cfg, u, ip, now).1;
    if rate == S.Deny("new connections per user limit exceeded") {
      RateRefused(cfg, run, PerUser, u, t, now);
    } else if rate == S.Deny("new connections per ip limit exceeded") {
      RateRefused(cfg, run, PerIP, ip.value, t, now);
    }
  }

  // Away from the rate limits, a Check is allowed exactly when its user is known and
  // none of the other limits is used up.
  lemma AllowedIff(cfg: S.Config, run: seq<Op>, meta: S.ConnMeta, t: R.Time, now: R.Time)
    requires Between(run, t, now)
    ensures var (s, u) := (AfterRun(S.EMPTY, cfg, run), S.Name(meta));
      !RateUsed(cfg, run, PerUser, u, now)
      && (meta.sourceIP.Some? ==> !RateUsed(cfg, run, PerIP, meta.sourceIP.value, now)) ==>
        (S.Check(s, cfg, meta, now).1.Allow? <==>
          u != "" && u in s.userByName && !SlotsFull(s, cfg, s.userByName[u], u, meta.sourceIP))
  {
    hide AfterRun, S.Decide, RateUsed, UserHolds, AddressHolds, DevicesReached, S.Name;
    var (s, u) := (AfterRun(S.EMPTY, cfg, run), S.Name(meta));
    if u != "" && u in s.userByName {
      DecidedForCause(cfg, run, s.userByName[u], u, meta.sourceIP, t, now);
    }
  }

  // The first connection of a listed user is allowed, whatever the limits are.
  lemma FirstConnectionAllowed(cfg: S.Config, users: seq<User>, meta: S.ConnMeta, i: nat, t: R.Time, now: R.Time)
    requires i < |users| && t <= now && S.Name(meta) == Identity.LimiterUserName(users[i].id)
    ensures S.Check(AfterRun(S.EMPTY, cfg, [UpdateUsers(users, t)]), cfg, meta, now).1.Allow?
  {
    hide S.Check, S.UserTable, RateUsed, SlotsFull, S.Name;
    var run := [UpdateUsers(users, t)];
    StartedEmpty(cfg, users, t);
    TabledIff(users, S.Name(meta));
    var s := AfterRun(S.EMPTY, cfg, run);
    var u := S.Name(meta);
    assert u != "" by { assert u[0] == 'u'; }
    NothingUsed(cfg, users, PerUser, u, t, now);
    if meta.sourceIP.Some? {
      NothingUsed(cfg, users, PerIP, meta.sourceIP.value, t, now);
    }
    assert run[1..] == [];
    AllowedIff(cfg, run, meta, t, now);
  }

  lemma StartedEmpty(cfg: S.Config, users: seq<User>, t: R.Time)
    ensures var s := AfterRun(S.EMPTY, cfg, [UpdateUsers(users, t)]);
      s.userByName == S.UserTable(users) && forall user, u, ip :: !SlotsFull(s, cfg, user, u, ip)
  {
    hide S.UserTable, R.Sweep;
    assert [UpdateUsers(users, t)][1..] == [];
  }

  lemma NothingUsed(cfg: S.Config, users: seq<User>, side: Side, key: string, t: R.Time, now: R.Time)
    ensures !RateUsed(cfg, [UpdateUsers(users, t)], side, key, now)
  {
    hide Apply;
    var run := [UpdateUsers(users, t)];
    var lo := now - cfg.window + 1;
    assert run[1..] == [];
    assert Past(Apply(S.EMPTY, cfg, run[0], true).0, cfg, [], side, key, lo) == 0;
  }

  // A name is tabled exactly when some listed user has it, and what it leads to is a
  // listed user of that name.
  lemma {:induction false} TabledIff(users: seq<User>, name: string)
    ensures name in S.UserTable(users) <==>
            exists i :: 0 <= i < |users| && Identity.LimiterUserName(users[i].id) == name
    ensures name in S.UserTable(users) ==>
              S.UserTable(users)[name] in users && Identity.LimiterUserName(S.UserTable(users)[name].id) == name
  {
    hide Identity.LimiterUserName;
    if users != [] {
      var n := |users| - 1;
      TabledIff(users[..n], name);
      assert users == users[..n] + [users[n]];
    }
  }

  // With exact indexes these causes are about live connections: a map holds its limit
  // exactly when that many connections of the user, or from the address, are live.
  lemma HoldsAreLive(s: S.State, live: LimiterIndex.LiveSet, cfg: S.Config, u: string, ip: S.IP)
    requires LimiterIndex.Agrees(s, live)
    ensures UserHolds(s, cfg, u) <==> 0 < cfg.maxConnPerUser <= |LimiterIndex.ByUser(live, u)|
    ensures AddressHolds(s, cfg, Some(ip)) <==> 0 < cfg.maxConnPerIP <= |LimiterIndex.ByIP(live, ip)|
  {
    assert S.ConnsOf(s.activeConnByUser, u) == LimiterIndex.ByUser(live, u);
    assert S.ConnsOf(s.activeConnByIP, ip) == LimiterIndex.ByIP(live, ip);
  }

  // ---- The panel's device list ----

  // An address the panel lists is never a new one, and the panel's own count, repeats
  // and blanks included, counts against the limit.
  lemma PanelListCounts(s: S.State, alive: map<int, seq<string>>, user: User, u: string, ip: Option<S.IP>)
    requires user.id in alive
    ensures var s' := S.UpdateAliveList(s, alive);
      && (forall v :: v in alive[user.id] && TrimSpace(v) != "" && ip == Some(TrimSpace(v)) ==>
            !DevicesReached(s', user, u, ip))
      && (ip.Some? && 0 < user.deviceLimit <= |alive[user.id]| && NewAddress(s', user, u, ip.value) ==>
            DevicesReached(s', user, u, ip))
  {
  }

  // The set kept for a user holds the listed addresses without their padding, no
  // others; of a user the panel no longer lists nothing is kept.
  lemma PanelSetExact(s: S.State, alive: map<int, seq<string>>, id: int, ip: string)
    ensures var s' := S.UpdateAliveList(s, alive);
      if id in alive then
        && id in s'.remoteUserOnline && id in s'.aliveList
        && (ip in s'.remoteUserOnline[id] <==> ip != "" && exists v :: v in alive[id] && TrimSpace(v) == ip)
      else
        id !in s'.remoteUserOnline && id !in s'.aliveList
  {
  }
}
