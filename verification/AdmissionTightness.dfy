// The admission bound is exact: k connections that pass Check before any of them is
// registered all get in when one place is left.

module AdmissionTightness {
  import opened Options
  import opened Sorting
  import opened Strings
  import opened Panel
  import opened Admission
  import opened ReusedIDs
  import opened Stages
  import S = LimiterSpec
  import Identity

  // Each connection limit is this one or off.
  predicate LimitsAre(cfg: S.Config, limit: nat) {
    && RatesOff(cfg) && (cfg.maxConnPerUser <= 0 || cfg.maxConnPerUser == limit)
    && (cfg.maxConnPerIP <= 0 || cfg.maxConnPerIP == limit)
  }

  function Repeat(ip: S.IP, n: nat): (ips: seq<S.IP>)
    ensures |ips| == n
  {
    seq(n, i => ip)
  }

  // Every connection is this user's, from this address.
  ghost predicate AllFrom(live: S.Conns, u: string, ip: S.IP) {
    forall c :: c in live ==> Key(ByName, live[c]) == Some(u) && Key(ByAddress, live[c]) == Some(ip)
  }

  lemma MetasFrom(live: S.Conns, u: string, ids: seq<string>, ip: S.IP)
    requires AllFrom(live, u, ip)
    ensures TrimSpace(u) == u ==> AllFrom(live + ByID(Metas(u, ids, Repeat(ip, |ids|))), u, ip)
  {
    hide TrimSpace;
    var metas := Metas(u, ids, Repeat(ip, |ids|));
    forall c | c in ByID(metas) ensures ByID(metas)[c] in metas {
      ByIDOnly(metas, c);
    }
  }

  lemma AllUnder(live: S.Conns, u: string, ip: S.IP)
    requires AllFrom(live, u, ip)
    ensures Under(ByName, live, u) == live && Under(ByAddress, live, ip) == live
  {
    hide Key;
  }

  // Fill all places but one, then let k in at once.
  lemma FillThenCrowd(cfg: S.Config, limit: nat, k: nat, s: Sys, u: string, user: User, ids: seq<string>, ip: S.IP)
      returns (run: seq<Event>)
    requires Idle(s, u, user) && s.admitted == map[] && s.live == map[] && user.deviceLimit == 0 && TrimSpace(u) == u
    requires LimitsAre(cfg, limit) && limit >= 1 && k >= 1 && |ids| == limit - 1 + k && Distinct(ids)
    ensures AtMost(cfg, k, s, run) && Plain(run)
    ensures |Run(cfg, s, run).live| == limit + k - 1 && AllFrom(Run(cfg, s, run).live, u, ip)
  {
    hide Idle, Next, Run, AtMost, Plain, AllNew, AllMay, Apart, TrimSpace, Metas, ByID, IDs, AllFrom;
    var n := limit - 1;
    var before, after := Metas(u, ids[..n], Repeat(ip, n)), Metas(u, ids[n..], Repeat(ip, k));
    MetasNew(s, u, ids[..n], Repeat(ip, n));
    var fill := OneByOne(cfg, k, s, u, user, before);
    var s1 := Run(cfg, s, fill);
    ByIDSize(s.live, before, u);
    ByIDAddsKeys(s.live, before);
    MetasSets(u, ids[..n], Repeat(ip, n));
    NobodyFrom(s.live, u, ip);
    MetasFrom(s.live, u, ids[..n], ip);
    MetasNew(s1, u, ids[n..], Repeat(ip, k));
    IdleWf(s1, u, user);
    CrowdMay(cfg, s1, u, user, after);
    var crowd := Crowd(cfg, k, s1, u, user, after);
    ByIDSize(s1.live, after, u);
    MetasFrom(s1.live, u, ids[n..], ip);
    RunAppend(cfg, k, s, fill, crowd);
    PlainAppend(fill, crowd);
    run := fill + crowd;
  }

  lemma NobodyFrom(live: S.Conns, u: string, ip: S.IP)
    requires live == map[]
    ensures AllFrom(live, u, ip)
  {
  }

  lemma IdleWf(s: Sys, u: string, user: User)
    requires Idle(s, u, user)
    ensures Wf(s)
  {
  }

  // For every limit and every k there is a run of one tracker, with at most k
  // connections between Check and Register, that ends with limit + k - 1 of one user
  // and of one address registered.
  lemma AdmissionBoundIsTight(cfg: S.Config, limit: nat, k: nat, id: int, ids: seq<string>, ip: S.IP)
      returns (run: seq<Event>)
    requires LimitsAre(cfg, limit) && limit >= 1 && k >= 1 && |ids| == limit - 1 + k && Distinct(ids)
    ensures AtMost(cfg, k, START, run) && OneTracker(run)
    ensures |Under(ByName, Run(cfg, START, run).live, Identity.LimiterUserName(id))| == limit + k - 1
    ensures |Under(ByAddress, Run(cfg, START, run).live, ip)| == limit + k - 1
  {
    hide Identity.LimiterUserName, TrimSpace, Idle, Next, Run, AtMost, Under, AllFrom, LimitsAre;
    var user := User(id, "", 0, 0);
    var u := Identity.LimiterUserName(id);
    var first := UpdateUsers([user], 0);
    var s := Next(cfg, START, first);
    StartIdle(cfg, user);
    NameTrimmed(id);
    OneEvent(cfg, k, START, first);
    var rest := FillThenCrowd(cfg, limit, k, s, u, user, ids, ip);
    RunAppend(cfg, k, START, [first], rest);
    run := [first] + rest;
    AllUnder(Run(cfg, START, run).live, u, ip);
  }
}
