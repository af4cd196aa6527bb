// Runs of whole limiter operations: the rate limits as seen by callers of Check,
// and the clean-up of old counters.

module LimiterRuns {
  import opened Options
  import opened Panel
  import opened LimiterIndex
  import S = LimiterSpec
  import R = Rates

  datatype Op =
    | Check(meta: S.ConnMeta, now: R.Time)
    | UpdateUsers(users: seq<User>, now: R.Time)
    | Register(meta: S.ConnMeta)
    | Unregister(meta: S.ConnMeta)
    | UpdateAlive(alive: map<int, seq<string>>)
    | BuildAlive

  function Clock(op: Op, t: R.Time): R.Time {
    if op.Check? || op.UpdateUsers? then op.now else t
  }

  // The clock never goes back, starting from t.
  ghost predicate Nondecreasing(run: seq<Op>, t: R.Time) {
    run == [] || (t <= Clock(run[0], t) && Nondecreasing(run[1..], Clock(run[0], t)))
  }

  // sweep: whether UpdateUsers cleans up counters, as the program does.
  function Apply(s: S.State, cfg: S.Config, op: Op, sweep: bool): (S.State, Option<S.Decision>) {
    match op
    case Check(meta, now) => var (s', d) := S.Check(s, cfg, meta, now); (s', Some(d))
    case UpdateUsers(users, now) =>
      (if sweep then S.UpdateUsers(s, cfg, users, now) else s.(userByName := S.UserTable(users)), None)
    case Register(meta) => (S.Register(s, meta), None)
    case Unregister(meta) => (S.Unregister(s, meta), None)
    case UpdateAlive(alive) => (S.UpdateAliveList(s, alive), None)
    case BuildAlive => (S.BuildAlive(s), None)
  }

  function Decisions(s: S.State, cfg: S.Config, run: seq<Op>, sweep: bool): seq<Option<S.Decision>>
    decreases run
  {
    if run == [] then []
    else
      var (s', d) := Apply(s, cfg, run[0], sweep);
      [d] + Decisions(s', cfg, run[1..], sweep)
  }

  // ---- The clean-up is invisible ----

  // Equal but for counters, which agree up to ones the clean-up may have dropped.
  ghost predicate Like(a: S.State, b: S.State, window: nat, t: R.Time) {
    && a == b.(recentConnByUser := a.recentConnByUser, recentConnByIP := a.recentConnByIP)
    && R.SameButStale(a.recentConnByUser, b.recentConnByUser, window, t)
    && R.SameButStale(a.recentConnByIP, b.recentConnByIP, window, t)
  }

  lemma UserRateIs(s: S.State, cfg: S.Config, u: string, now: R.Time)
    ensures var r := R.CheckCPS(s.recentConnByUser, u, cfg.maxNewConnPerUser, cfg.window, now);
      S.UserRate(s, cfg, u, now) == if cfg.maxNewConnPerUser <= 0 then (s, true) else (s.(recentConnByUser := r.0), r.1)
  {
  }

  lemma IPRateIs(s: S.State, cfg: S.Config, ip: S.IP, now: R.Time)
    ensures var r := R.CheckCPS(s.recentConnByIP, ip, cfg.maxNewConnPerIP, cfg.window, now);
      S.IPRate(s, cfg, Some(ip), now)
        == if cfg.maxNewConnPerIP <= 0 then (s, true) else (s.(recentConnByIP := r.0), r.1)
  {
  }

  lemma LaterStale(swept: R.Index, full: R.Index, window: nat, t: R.Time, now: R.Time)
    requires R.SameButStale(swept, full, window, t) && t <= now
    ensures R.SameButStale(swept, full, window, now)
  {
  }

  lemma UserRateLike(a: S.State, b: S.State, cfg: S.Config, u: string, t: R.Time, now: R.Time)
    requires Like(a, b, cfg.window, t) && t <= now
    ensures S.UserRate(a, cfg, u, now).1 == S.UserRate(b, cfg, u, now).1
    ensures Like(S.UserRate(a, cfg, u, now).0, S.UserRate(b, cfg, u, now).0, cfg.window, now)
  {
    hide R.CheckCPS, R.SameButStale, S.UserRate;
    R.SameDecision(a.recentConnByUser, b.recentConnByUser, u, cfg.maxNewConnPerUser, cfg.window, t, now);
    LaterStale(a.recentConnByUser, b.recentConnByUser, cfg.window, t, now);
    LaterStale(a.recentConnByIP, b.recentConnByIP, cfg.window, t, now);
    UserRateIs(a, cfg, u, now);
    UserRateIs(b, cfg, u, now);
  }

  lemma IPRateLike(a: S.State, b: S.State, cfg: S.Config, ip: Option<S.IP>, t: R.Time, now: R.Time)
    requires Like(a, b, cfg.window, t) && t <= now
    ensures S.IPRate(a, cfg, ip, now).1 == S.IPRate(b, cfg, ip, now).1
    ensures Like(S.IPRate(a, cfg, ip, now).0, S.IPRate(b, cfg, ip, now).0, cfg.window, now)
  {
    if ip.None? {
      LaterLike(a, b, cfg.window, t, now);
    } else {
      SomeIPRateLike(a, b, cfg, ip.value, t, now);
    }
  }

  lemma SomeIPRateLike(a: S.State, b: S.State, cfg: S.Config, ip: S.IP, t: R.Time, now: R.Time)
    requires Like(a, b, cfg.window, t) && t <= now
    ensures S.IPRate(a, cfg, Some(ip), now).1 == S.IPRate(b, cfg, Some(ip), now).1
    ensures Like(S.IPRate(a, cfg, Some(ip), now).0, S.IPRate(b, cfg, Some(ip), now).0, cfg.window, now)
  {
    hide R.CheckCPS, R.SameButStale, S.IPRate;
    R.SameDecision(a.recentConnByIP, b.recentConnByIP, ip, cfg.maxNewConnPerIP, cfg.window, t, now);
    LaterStale(a.recentConnByUser, b.recentConnByUser, cfg.window, t, now);
    LaterStale(a.recentConnByIP, b.recentConnByIP, cfg.window, t, now);
    IPRateIs(a, cfg, ip, now);
    IPRateIs(b, cfg, ip, now);
  }

  lemma RateCheckLike(a: S.State, b: S.State, cfg: S.Config, u: string, ip: Option<S.IP>, t: R.Time, now: R.Time)
    requires Like(a, b, cfg.window, t) && t <= now
    ensures S.RateCheck(a, cfg, u, ip, now).1 == S.RateCheck(b, cfg, u, ip, now).1
    ensures Like(S.RateCheck(a, cfg, u, ip, now).0, S.RateCheck(b, cfg, u, ip, now).0, cfg.window, now)
  {
    hide Like, S.UserRate, S.IPRate;
    UserRateLike(a, b, cfg, u, t, now);
    IPRateLike(S.UserRate(a, cfg, u, now).0, S.UserRate(b, cfg, u, now).0, cfg, ip, now, now);
  }

  lemma TouchLike(a: S.State, b: S.State, cfg: S.Config, u: string, t: R.Time)
    requires Like(a, b, cfg.window, t)
    ensures Like(S.Touch(a, cfg, u), S.Touch(b, cfg, u), cfg.window, t)
  {
  }

  lemma TouchIPLike(a: S.State, b: S.State, cfg: S.Config, ip: Option<S.IP>, t: R.Time)
    requires Like(a, b, cfg.window, t)
    ensures Like(S.TouchIP(a, cfg, ip), S.TouchIP(b, cfg, ip), cfg.window, t)
  {
  }

  lemma LikeLooksSame(a: S.State, b: S.State, cfg: S.Config, user: User, u: string, ip: Option<S.IP>, t: R.Time)
    requires Like(a, b, cfg.window, t)
    ensures S.UserFull(a, cfg, u) == S.UserFull(b, cfg, u) && S.IPFull(a, cfg, ip) == S.IPFull(b, cfg, ip)
    ensures S.DevicesFull(a, user, u, ip) == S.DevicesFull(b, user, u, ip)
    ensures a.userByName == b.userByName
  {
  }

  lemma SlotCheckLike(a: S.State, b: S.State, cfg: S.Config, u: string, ip: Option<S.IP>, t: R.Time)
    requires Like(a, b, cfg.window, t)
    ensures S.SlotCheck(a, cfg, u, ip).1 == S.SlotCheck(b, cfg, u, ip).1
    ensures Like(S.SlotCheck(a, cfg, u, ip).0, S.SlotCheck(b, cfg, u, ip).0, cfg.window, t)
  {
    hide Like, S.Touch, S.TouchIP, S.UserFull, S.IPFull;
    LikeLooksSame(a, b, cfg, User(0, "", 0, 0), u, ip, t);
    TouchLike(a, b, cfg, u, t);
    TouchIPLike(S.Touch(a, cfg, u), S.Touch(b, cfg, u), cfg, ip, t);
  }

  lemma DecideLike(a: S.State, b: S.State, cfg: S.Config, user: User, u: string, ip: Option<S.IP>, t: R.Time,
                   now: R.Time)
    requires Like(a, b, cfg.window, t) && t <= now
    ensures S.Decide(a, cfg, user, u, ip, now).1 == S.Decide(b, cfg, user, u, ip, now).1
    ensures Like(S.Decide(a, cfg, user, u, ip, now).0, S.Decide(b, cfg, user, u, ip, now).0, cfg.window, now)
  {
    hide Like, S.RateCheck, S.SlotCheck, S.DevicesFull;
    RateCheckLike(a, b, cfg, u, ip, t, now);
    SlotCheckLike(S.RateCheck(a, cfg, u, ip, now).0, S.RateCheck(b, cfg, u, ip, now).0, cfg, u, ip, now);
    LikeLooksSame(a, b, cfg, user, u, ip, t);
  }

  lemma LaterLike(a: S.State, b: S.State, window: nat, t: R.Time, now: R.Time)
    requires Like(a, b, window, t) && t <= now
    ensures Like(a, b, window, now)
  {
  }

  lemma CheckLike(a: S.State, b: S.State, cfg: S.Config, meta: S.ConnMeta, t: R.Time, now: R.Time)
    requires Like(a, b, cfg.window, t) && t <= now
    ensures S.Check(a, cfg, meta, now).1 == S.Check(b, cfg, meta, now).1
    ensures Like(S.Check(a, cfg, meta, now).0, S.Check(b, cfg, meta, now).0, cfg.window, now)
  {
    hide Like, S.Decide, S.Name;
    var u := S.Name(meta);
    LaterLike(a, b, cfg.window, t, now);
    LikeLooksSame(a, b, cfg, User(0, "", 0, 0), u, meta.sourceIP, t);
    if u in a.userByName {
      DecideLike(a, b, cfg, a.userByName[u], u, meta.sourceIP, t, now);
    }
  }

  lemma ApplyLike(a: S.State, b: S.State, cfg: S.Config, op: Op, t: R.Time)
    requires Like(a, b, cfg.window, t) && t <= Clock(op, t)
    ensures Apply(a, cfg, op, true).1 == Apply(b, cfg, op, false).1
    ensures Like(Apply(a, cfg, op, true).0, Apply(b, cfg, op, false).0, cfg.window, Clock(op, t))
  {
    hide S.Check, S.UserTable, S.StringSet, S.Name, S.AddConn, S.DropConn, S.CountUp, S.CountDown, R.Sweep,
         R.SameButStale, S.Online;
    match op
    case Check(meta, now) => CheckLike(a, b, cfg, meta, t, now);
    case UpdateUsers(users, now) =>
      R.SweepIsInvisible(a.recentConnByUser, b.recentConnByUser, cfg.window, t, now);
      R.SweepIsInvisible(a.recentConnByIP, b.recentConnByIP, cfg.window, t, now);
    case Register(meta) =>
    case Unregister(meta) =>
    case UpdateAlive(alive) =>
    case BuildAlive => assert S.Online(a) == S.Online(b) by { OnlineLike(a, b, cfg.window, t); }
  }

  lemma OnlineLike(a: S.State, b: S.State, window: nat, t: R.Time)
    requires Like(a, b, window, t)
    ensures S.Online(a) == S.Online(b)
  {
  }

  lemma {:induction false} DecisionsLike(a: S.State, b: S.State, cfg: S.Config, run: seq<Op>, t: R.Time)
    requires Like(a, b, cfg.window, t) && Nondecreasing(run, t)
    ensures Decisions(a, cfg, run, true) == Decisions(b, cfg, run, false)
    decreases run
  {
    hide Like, Apply;
    if run != [] {
      ApplyLike(a, b, cfg, run[0], t);
      DecisionsLike(Apply(a, cfg, run[0], true).0, Apply(b, cfg, run[0], false).0, cfg, run[1..], Clock(run[0], t));
    }
  }

  // Dropping counters idle for more than two windows changes no decision, ever.
  lemma CleanUpIsInvisible(cfg: S.Config, run: seq<Op>, t: R.Time)
    requires Nondecreasing(run, t)
    ensures Decisions(S.EMPTY, cfg, run, true) == Decisions(S.EMPTY, cfg, run, false)
  {
    DecisionsLike(S.EMPTY, S.EMPTY, cfg, run, t);
  }

  // ---- Rates as Check's callers see them ----

  datatype Side = PerUser | PerIP

  function IndexOf(s: S.State, side: Side): R.Index {
    if side.PerUser? then s.recentConnByUser else s.recentConnByIP
  }

  function LimitOf(cfg: S.Config, side: Side): int {
    if side.PerUser? then cfg.maxNewConnPerUser else cfg.maxNewConnPerIP
  }

  // A Check for this user or from this address.
  predicate About(op: Op, side: Side, key: string) {
    op.Check? && if side.PerUser? then S.Name(op.meta) == key
                 else op.meta.sourceIP.Some? && op.meta.sourceIP.value == key
  }

  // Judged by its decision alone: whether a Check got past the rate limit of this side.
  predicate GotPast(d: S.Decision, side: Side) {
    d.Allow? || (d.reason !in {"missing user", "unknown user", "new connections per user limit exceeded"}
                 && (side.PerIP? ==> d.reason != "new connections per ip limit exceeded"))
  }

  // How many such Checks are allowed at a time in [lo, hi].
  function Allowed(s: S.State, cfg: S.Config, run: seq<Op>, side: Side, key: string, lo: R.Time, hi: R.Time): nat
    decreases run
  {
    if run == [] then 0
    else
      var (s', d) := Apply(s, cfg, run[0], true);
      (if About(run[0], side, key) && lo <= run[0].now <= hi && d == Some(S.Allow) then 1 else 0)
      + Allowed(s', cfg, run[1..], side, key, lo, hi)
  }

  // The slot checks leave the rates alone, and this is how they decide.
  lemma SlotReasons(s: S.State, cfg: S.Config, u: string, ip: Option<S.IP>)
    ensures var (s', d) := S.SlotCheck(s, cfg, u, ip);
      && s'.recentConnByUser == s.recentConnByUser && s'.recentConnByIP == s.recentConnByIP
      && d == if S.UserFull(s, cfg, u) then S.Deny("active connections per user limit exceeded")
              else if S.IPFull(s, cfg, ip) then S.Deny("active connections per ip limit exceeded") else S.Allow
  {
    hide S.UserFull, S.IPFull, S.Touch, S.TouchIP;
    TouchChanges(s, cfg, u);
    TouchIPChanges(S.Touch(s, cfg, u), cfg, ip);
  }

  // A decision attempts the user's rate, then the address's if the user's passed;
  // its reason tells which attempts passed.
  lemma DecideRates(s: S.State, cfg: S.Config, user: User, u: string, ip: Option<S.IP>, now: R.Time)
    ensures var (s', d) := S.Decide(s, cfg, user, u, ip, now);
      var s1 := S.UserRate(s, cfg, u, now);
      var s2 := S.IPRate(s1.0, cfg, ip, now);
      && s'.recentConnByUser == s1.0.recentConnByUser
      && s'.recentConnByIP == (if s1.1 then s2.0.recentConnByIP else s.recentConnByIP)
      && (GotPast(d, PerUser) <==> s1.1)
      && (GotPast(d, PerIP) <==> s1.1 && s2.1)
  {
    hide S.UserRate, S.IPRate, S.SlotCheck, S.DevicesFull, S.UserFull, S.IPFull;
    UserRateChanges(s, cfg, u, now);
    IPRateChanges(S.UserRate(s, cfg, u, now).0, cfg, ip, now);
    SlotReasons(S.RateCheck(s, cfg, u, ip, now).0, cfg, u, ip);
  }

  // What one operation does to a rate index: nothing, or one event at its time. The
  // Checks about the key that get past are the attempts of the key that pass.
  lemma OpEvent(s: S.State, cfg: S.Config, op: Op, side: Side, key: string) returns (e: Option<R.Event>)
    requires LimitOf(cfg, side) > 0
    ensures var (s', d) := Apply(s, cfg, op, true);
      && IndexOf(s', side) == (if e.None? then IndexOf(s, side)
                               else R.Step(IndexOf(s, side), LimitOf(cfg, side), cfg.window, e.value))
      && (e.Some? ==> (op.Check? || op.UpdateUsers?) && e.value.now == op.now)
      && (About(op, side, key) && GotPast(d.value, side) <==>
            e.Some? && e.value.Attempt? && e.value.key == key
            && R.CheckCPS(IndexOf(s, side), key, LimitOf(cfg, side), cfg.window, op.now).1)
  {
    hide S.Name, S.AddConn, S.DropConn, S.CountUp, S.CountDown;
    match op
    case Check(meta, now) => e := CheckEvent(s, cfg, meta, now, side, key);
    case UpdateUsers(users, now) => e := Some(R.Clean(now));
    case Register(meta) => e := None;
    case Unregister(meta) => e := None;
    case UpdateAlive(alive) => e := None;
    case BuildAlive => e := None;
  }

  lemma CheckEvent(s: S.State, cfg: S.Config, meta: S.ConnMeta, now: R.Time, side: Side, key: string)
      returns (e: Option<R.Event>)
    requires LimitOf(cfg, side) > 0
    ensures var (s', d) := S.Check(s, cfg, meta, now);
      && IndexOf(s', side) == (if e.None? then IndexOf(s, side)
                               else R.Step(IndexOf(s, side), LimitOf(cfg, side), cfg.window, e.value))
      && (e.Some? ==> e.value.now == now)
      && (About(Check(meta, now), side, key) && GotPast(d, side) <==>
            e.Some? && e.value.Attempt? && e.value.key == key
            && R.CheckCPS(IndexOf(s, side), key, LimitOf(cfg, side), cfg.window, now).1)
  {
    hide S.Decide, S.Name, R.CheckCPS, S.UserRate, S.IPRate;
    var u := S.Name(meta);
    e := None;
    if u != "" && u in s.userByName {
      DecideRates(s, cfg, s.userByName[u], u, meta.sourceIP, now);
      UserRateIs(s, cfg, u, now);
      UserRateChanges(s, cfg, u, now);
      var s1 := S.UserRate(s, cfg, u, now);
      if side.PerUser? {
        e := Some(R.Attempt(u, now));
      } else if s1.1 && meta.sourceIP.Some? {
        IPRateIs(s1.0, cfg, meta.sourceIP.value, now);
        e := Some(R.Attempt(meta.sourceIP.value, now));
      } else if s1.1 {
        NoIPRate(s1.0, cfg, now);
      }
    }
  }

  lemma NoIPRate(s: S.State, cfg: S.Config, now: R.Time)
    ensures S.IPRate(s, cfg, None, now) == (s, true)
  {
  }

  lemma {:induction false} NoneLate(s: S.State, cfg: S.Config, run: seq<Op>, side: Side, key: string, lo: R.Time,
                                    hi: R.Time, t: R.Time)
    requires Nondecreasing(run, t) && t > hi
    ensures Allowed(s, cfg, run, side, key, lo, hi) == 0
    decreases run
  {
    hide Apply;
    if run != [] {
      NoneLate(Apply(s, cfg, run[0], true).0, cfg, run[1..], side, key, lo, hi, Clock(run[0], t));
    }
  }

  lemma SoundLater(index: R.Index, limit: nat, t: R.Time, now: R.Time)
    requires R.Sound(index, limit, t) && t <= now
    ensures R.Sound(index, limit, now)
  {
  }

  lemma {:induction false} AllowedWithinAllowance(s: S.State, cfg: S.Config, run: seq<Op>, side: Side, key: string,
                                                  lo: R.Time, t: R.Time)
    requires LimitOf(cfg, side) >= 1 && cfg.window >= 1 && Nondecreasing(run, t)
    requires R.Sound(IndexOf(s, side), LimitOf(cfg, side), t)
    ensures Allowed(s, cfg, run, side, key, lo, lo + cfg.window)
         <= R.Allowance(IndexOf(s, side), LimitOf(cfg, side), cfg.window, key, lo)
    decreases run
  {
    hide Apply, R.Step, R.CheckCPS, R.Sound, About;
    if run == [] {
      AllowanceNat(IndexOf(s, side), LimitOf(cfg, side), cfg.window, key, lo, t);
    } else {
      var op := run[0];
      var s' := Apply(s, cfg, op, true).0;
      var now := Clock(op, t);
      var e := OpEvent(s, cfg, op, side, key);
      if now > lo + cfg.window {
        NoneLate(s', cfg, run[1..], side, key, lo, lo + cfg.window, now);
        AllowanceNat(IndexOf(s, side), LimitOf(cfg, side), cfg.window, key, lo, t);
      } else {
        if e.Some? {
          R.AllowanceStep(IndexOf(s, side), LimitOf(cfg, side), cfg.window, key, lo, e.value, t);
        } else {
          SoundLater(IndexOf(s, side), LimitOf(cfg, side), t, now);
        }
        AllowedWithinAllowance(s', cfg, run[1..], side, key, lo, now);
      }
    }
  }

  lemma AllowanceNat(index: R.Index, limit: nat, window: nat, key: string, lo: R.Time, t: R.Time)
    requires R.Sound(index, limit, t)
    ensures R.Allowance(index, limit, window, key, lo) >= 0
  {
  }

  // The configured rate as a caller of Check sees it: in any run of operations with
  // a clock that never goes back, every closed interval as long as the window holds
  // at most twice the limit of allowed Checks for one user, and for one address.
  lemma RateBound(cfg: S.Config, run: seq<Op>, side: Side, key: string, lo: R.Time, t: R.Time)
    requires LimitOf(cfg, side) >= 1 && cfg.window >= 1 && Nondecreasing(run, t)
    ensures Allowed(S.EMPTY, cfg, run, side, key, lo, lo + cfg.window) <= 2 * LimitOf(cfg, side)
  {
    AllowedWithinAllowance(S.EMPTY, cfg, run, side, key, lo, t);
  }
}
