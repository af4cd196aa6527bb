// The device bound is exact whenever the remote addresses leave room.

module DeviceTightness {
  import opened Sorting
  import opened Strings
  import opened Panel
  import opened Admission
  import opened Stages
  import D = DeviceLimit
  import S = LimiterSpec
  import Identity

  // All limits off but the device limit, which the user table carries.
  const DEVICES_ONLY := S.Config(0, 0, 0, 0, 60_000_000_000)

  // A run from a state, and what it does to a user's addresses.
  ghost predicate Stage(k: nat, s: Sys, run: seq<Event>, u: string, user: User) {
    && AtMost(DEVICES_ONLY, k, s, run) && Plain(run)
    && Idle(Run(DEVICES_ONLY, s, run), u, user) && Run(DEVICES_ONLY, s, run).admitted == map[]
  }

  lemma Then(k: nat, s: Sys, a: seq<Event>, b: seq<Event>, u: string, user: User)
    requires Stage(k, s, a, u, user) && Stage(k, Run(DEVICES_ONLY, s, a), b, u, user)
    ensures Stage(k, s, a + b, u, user) && Run(DEVICES_ONLY, s, a + b) == Run(DEVICES_ONLY, Run(DEVICES_ONLY, s, a), b)
  {
    hide Idle, Run, AtMost, Plain;
    RunAppend(DEVICES_ONLY, k, s, a, b);
    PlainAppend(a, b);
  }

  // New connections from these addresses, with these IDs, changed nothing else.
  ghost predicate Joined(s: Sys, t: Sys, u: string, ids: seq<string>, ips: seq<S.IP>) {
    && SameTables(s.lim, t.lim)
    && D.Addresses(t.live, u) == D.Addresses(s.live, u) + Texts(ips)
    && (forall id :: id in t.live <==> id in s.live || id in ids)
  }

  lemma JoinedBy(s: Sys, t: Sys, u: string, ids: seq<string>, ips: seq<S.IP>)
    requires |ids| == |ips| && Apart(s.live, Metas(u, ids, ips), u)
    requires t.live == s.live + ByID(Metas(u, ids, ips)) && SameTables(s.lim, t.lim)
    ensures Joined(s, t, u, ids, ips)
  {
    hide Apart, Metas, ByID, IDs, D.Addresses, Texts;
    ByIDAddresses(s.live, Metas(u, ids, ips), u);
    ByIDAddsKeys(s.live, Metas(u, ids, ips));
    MetasSets(u, ids, ips);
  }

  ghost predicate Free(s: Sys, ids: seq<string>) {
    Distinct(ids) && forall i :: 0 <= i < |ids| ==> ids[i] !in s.live
  }

  // One connection after the other, from addresses reported last or with room left.
  lemma ConnectStage(k: nat, s: Sys, u: string, user: User, ids: seq<string>, ips: seq<S.IP>) returns (run: seq<Event>)
    requires Idle(s, u, user) && s.admitted == map[] && TrimSpace(u) == u && |ids| == |ips| && Free(s, ids) && k >= 1
    requires Texts(ips) <= S.SetOf(s.lim.oldUserOnline, u)
          || (|D.Addresses(s.live, u)| + |ips| <= user.deviceLimit && OthersLeaveRoom(s.lim, u, user))
    ensures Stage(k, s, run, u, user) && Joined(s, Run(DEVICES_ONLY, s, run), u, ids, ips)
  {
    hide Idle, Next, Run, AtMost, Plain, AllNew, Apart, TrimSpace, Joined, D.Addresses, S.SetOf;
    MetasNew(s, u, ids, ips);
    run := OneByOne(DEVICES_ONLY, k, s, u, user, Metas(u, ids, ips));
    JoinedBy(s, Run(DEVICES_ONLY, s, run), u, ids, ips);
  }

  // k connections that all pass Check while one device is left.
  lemma CrowdStage(k: nat, s: Sys, u: string, user: User, ids: seq<string>, ips: seq<S.IP>) returns (run: seq<Event>)
    requires Idle(s, u, user) && s.admitted == map[] && TrimSpace(u) == u && |ids| == |ips| <= k && Free(s, ids)
    requires |D.Addresses(s.live, u)| < user.deviceLimit && OthersLeaveRoom(s.lim, u, user)
    ensures Stage(k, s, run, u, user) && Joined(s, Run(DEVICES_ONLY, s, run), u, ids, ips)
  {
    hide Next, Run, AtMost, Plain, AllNew, Apart, TrimSpace, Joined, D.Addresses, S.SetOf, Wf;
    MetasNew(s, u, ids, ips);
    CrowdMay(DEVICES_ONLY, s, u, user, Metas(u, ids, ips));
    run := Crowd(DEVICES_ONLY, k, s, u, user, Metas(u, ids, ips));
    JoinedBy(s, Run(DEVICES_ONLY, s, run), u, ids, ips);
  }

  // Everybody leaves after a report: the addresses stay known.
  lemma LeaveStage(k: nat, s: Sys, u: string, user: User) returns (run: seq<Event>)
    requires Idle(s, u, user) && s.admitted == map[]
    ensures Stage(k, s, run, u, user)
    ensures var t := Run(DEVICES_ONLY, s, run);
      && t.live == map[] && S.SetOf(t.lim.oldUserOnline, u) == D.Addresses(s.live, u)
      && t.lim.remoteUserOnline == s.lim.remoteUserOnline && t.lim.aliveList == s.lim.aliveList
  {
    hide Idle, Run, AtMost, Plain, D.Addresses, S.SetOf;
    Report(DEVICES_ONLY, k, s, u, user);
    ReportPlain();
    var s1 := Run(DEVICES_ONLY, s, [BuildAlive]);
    var close := CloseEveryone(DEVICES_ONLY, k, s1, u, user);
    Then(k, s, [BuildAlive], close, u, user);
    run := [BuildAlive] + close;
  }

  lemma ReportPlain()
    ensures Plain([BuildAlive])
  {
  }

  // ---- The whole run ----

  // Nobody is connected or was reported, and the panel has named remote addresses.
  ghost predicate Begins(s: Sys, u: string, user: User) {
    && Idle(s, u, user) && s.admitted == map[] && s.live == map[] && S.SetOf(s.lim.oldUserOnline, u) == {}
    && |S.SetOf(s.lim.remoteUserOnline, user.id)| < user.deviceLimit
    && (user.id in s.lim.aliveList ==> s.lim.aliveList[user.id] < user.deviceLimit)
  }

  // Come from all but one of the allowed devices, report, and leave.
  lemma KnownFirst(k: nat, s: Sys, u: string, user: User, ids: seq<string>, ips: seq<S.IP>) returns (run: seq<Event>)
    requires Begins(s, u, user) && TrimSpace(u) == u && k >= 1
    requires |ids| == |ips| < user.deviceLimit && Distinct(ids)
    ensures Stage(k, s, run, u, user)
    ensures var t := Run(DEVICES_ONLY, s, run);
      && t.live == map[] && S.SetOf(t.lim.oldUserOnline, u) == Texts(ips)
      && t.lim.remoteUserOnline == s.lim.remoteUserOnline && t.lim.aliveList == s.lim.aliveList
  {
    hide Idle, Run, AtMost, Plain, D.Addresses, S.SetOf, TrimSpace, Texts;
    NoAddresses(s.live, u);
    var come := ConnectStage(k, s, u, user, ids, ips);
    var leave := LeaveStage(k, Run(DEVICES_ONLY, s, come), u, user);
    Then(k, s, come, leave, u, user);
    run := come + leave;
  }

  lemma NoAddresses(live: S.Conns, u: string)
    requires live == map[]
    ensures D.Addresses(live, u) == {}
  {
  }

  lemma TextsBound(ips: seq<S.IP>)
    ensures |Texts(ips)| <= |ips|
    decreases |ips|
  {
    if ips != [] {
      var n := |ips| - 1;
      TextsBound(ips[..n]);
      var t: string := ips[n];
      assert Texts(ips) == Texts(ips[..n]) + {t};
    }
  }

  // Come from as many new addresses, let k more in at once, and come back from the
  // known ones.
  lemma NewThenKnown(k: nat, s: Sys, u: string, user: User, ids: seq<string>, newIPs: seq<S.IP>, known: seq<S.IP>)
      returns (run: seq<Event>)
    requires Idle(s, u, user) && s.admitted == map[] && s.live == map[] && TrimSpace(u) == u && k >= 1
    requires S.SetOf(s.lim.oldUserOnline, u) == Texts(known) && OthersLeaveRoom(s.lim, u, user)
    requires |known| == user.deviceLimit - 1 && |newIPs| == |known| + k && |ids| == |newIPs| + |known| && Distinct(ids)
    ensures Stage(k, s, run, u, user)
    ensures SameTables(s.lim, Run(DEVICES_ONLY, s, run).lim)
    ensures D.Addresses(Run(DEVICES_ONLY, s, run).live, u) == Texts(newIPs) + Texts(known)
  {
    hide Idle, Run, AtMost, Plain, D.Addresses, S.SetOf, TrimSpace, Texts;
    var n := |known|;
    NoAddresses(s.live, u);
    var come := ConnectStage(k, s, u, user, ids[..n], newIPs[..n]);
    var s1 := Run(DEVICES_ONLY, s, come);
    TextsBound(newIPs[..n]);
    var crowd := CrowdStage(k, s1, u, user, ids[n..n + k], newIPs[n..]);
    var s2 := Run(DEVICES_ONLY, s1, crowd);
    var back := ConnectStage(k, s2, u, user, ids[n + k..], known);
    Then(k, s1, crowd, back, u, user);
    Then(k, s, come, crowd + back, u, user);
    SplitTexts(newIPs, n);
    run := come + (crowd + back);
  }

  lemma SplitTexts(ips: seq<S.IP>, n: nat)
    requires n <= |ips|
    ensures Texts(ips) == Texts(ips[..n]) + Texts(ips[n..])
  {
    forall t | t in Texts(ips) ensures t in Texts(ips[..n]) + Texts(ips[n..]) {
      var i :| 0 <= i < |ips| && ips[i] == t;
      assert if i < n then ips[..n][i] == t else ips[n..][i - n] == t;
    }
  }

  lemma TightRun(k: nat, s: Sys, u: string, user: User, ids: seq<string>, ips: seq<S.IP>) returns (run: seq<Event>)
    requires Begins(s, u, user) && TrimSpace(u) == u && k >= 1
    requires |ips| == 2 * user.deviceLimit - 2 + k && |ids| == 3 * user.deviceLimit - 3 + k && Distinct(ids)
    ensures Stage(k, s, run, u, user)
    ensures Run(DEVICES_ONLY, s, run).lim.remoteUserOnline == s.lim.remoteUserOnline
    ensures D.Addresses(Run(DEVICES_ONLY, s, run).live, u) == Texts(ips)
  {
    hide Idle, Run, AtMost, Plain, D.Addresses, S.SetOf, TrimSpace, Texts;
    var n := user.deviceLimit - 1;
    var first := KnownFirst(k, s, u, user, ids[..n], ips[..n]);
    var s1 := Run(DEVICES_ONLY, s, first);
    TextsBound(ips[..n]);
    var second := NewThenKnown(k, s1, u, user, ids[n..], ips[n..], ips[..n]);
    Then(k, s, first, second, u, user);
    SplitTexts(ips, n);
    run := first + second;
  }

  // The panel names the user and its remote addresses.
  lemma Setup(user: User, remote: seq<string>) returns (s: Sys)
    requires |remote| < user.deviceLimit
    ensures var u := Identity.LimiterUserName(user.id);
      && Begins(s, u, user) && S.SetOf(s.lim.remoteUserOnline, user.id) == S.StringSet(remote)
      && s == Run(DEVICES_ONLY, START, [UpdateUsers([user], 0)] + [UpdateAlive(map[user.id := remote])])
  {
    hide Identity.LimiterUserName, Wf, S.StringSet, S.UserTable;
    var s0 := Next(DEVICES_ONLY, START, UpdateUsers([user], 0));
    StartIdle(DEVICES_ONLY, user);
    s := Next(DEVICES_ONLY, s0, UpdateAlive(map[user.id := remote]));
    NextWf(DEVICES_ONLY, s0, UpdateAlive(map[user.id := remote]));
    StringSetSize(remote);
    OneEvent(DEVICES_ONLY, 0, START, UpdateUsers([user], 0));
    OneEvent(DEVICES_ONLY, 0, s0, UpdateAlive(map[user.id := remote]));
    RunAppend(DEVICES_ONLY, 0, START, [UpdateUsers([user], 0)], [UpdateAlive(map[user.id := remote])]);
  }

  lemma {:induction false} StringSetSize(values: seq<string>)
    ensures |S.StringSet(values)| <= |values|
  {
    hide TrimSpace;
    if values != [] {
      var n := |values| - 1;
      StringSetSize(values[..n]);
      var last := if TrimSpace(values[n]) == "" then {} else {TrimSpace(values[n])};
      assert S.StringSet(values) == S.StringSet(values[..n]) + last;
    }
  }

  // The device bound is exact: for every limit L, every k and every list of fewer
  // than L remote addresses there is a run, within the hypotheses of the bound, that
  // ends on 2L + k - 2 addresses beyond the remote ones.
  lemma DeviceBoundIsTight(id: int, limit: nat, k: nat, ids: seq<string>, ips: seq<S.IP>, remote: seq<string>)
      returns (s: Sys, run: seq<Event>)
    requires limit >= 1 && k >= 1 && |remote| < limit
    requires |ips| == 2 * limit - 2 + k && |ids| == 3 * limit - 3 + k && Distinct(ids) && Distinct(ips)
    requires Texts(ips) !! S.StringSet(remote)
    ensures var u := Identity.LimiterUserName(id);
      && s == Run(DEVICES_ONLY, START, [UpdateUsers([User(id, "", 0, limit)], 0)] + [UpdateAlive(map[id := remote])])
      && Ok(s) && S.LiveIPs(s.lim, u) == {} && S.SetOf(s.lim.oldUserOnline, u) == {} && s.admitted == map[]
      && AtMost(DEVICES_ONLY, k, s, run) && OneTracker(run)
      && D.Known(s, u, id, limit, S.StringSet(remote)) && D.Steady(run, u, id, limit, S.StringSet(remote))
    ensures var u, t := Identity.LimiterUserName(id), Run(DEVICES_ONLY, s, run);
      |S.LiveIPs(t.lim, u) + S.SetOf(t.lim.remoteUserOnline, id)| == 2 * limit + k - 2 + |S.StringSet(remote)|
  {
    hide Identity.LimiterUserName, Idle, Next, TrimSpace, D.Addresses, S.SetOf, Run, AtMost, Texts, Wf, S.StringSet;
    var u, user := Identity.LimiterUserName(id), User(id, "", 0, limit);
    NameTrimmed(id);
    s := Setup(user, remote);
    run := TightRun(k, s, u, user, ids, ips);
    var t := Run(DEVICES_ONLY, s, run);
    TextsSize(ips);
    IdleAddresses(t, u, user);
    IdleAddresses(s, u, user);
    NoAddresses(s.live, u);
    WithinBound(s, run, u, user, S.StringSet(remote));
  }

  lemma IdleAddresses(s: Sys, u: string, user: User)
    requires Idle(s, u, user)
    ensures Ok(s) && S.LiveIPs(s.lim, u) == D.Addresses(s.live, u)
  {
    WfOk(s);
    LiveIsAddresses(s, u);
  }

  lemma WithinBound(s: Sys, run: seq<Event>, u: string, user: User, remote: set<string>)
    requires Idle(s, u, user) && Plain(run) && user.deviceLimit >= 0
    requires S.SetOf(s.lim.remoteUserOnline, user.id) == remote
    ensures OneTracker(run) && D.Known(s, u, user.id, user.deviceLimit, remote)
    ensures D.Steady(run, u, user.id, user.deviceLimit, remote)
  {
    hide S.UserTable, S.StringSet, S.Name;
  }
}
