// How far concurrent admission may exceed a connection limit.

module AdmissionBound {
  import opened Options
  import opened LimiterIndex
  import opened Admission
  import opened ReusedIDs
  import S = LimiterSpec
  import R = Rates

  function LimitOf(side: Side, cfg: S.Config): int {
    if side.ByName? then cfg.maxConnPerUser else cfg.maxConnPerIP
  }

  // Live and admitted connections under one key.
  function Load(side: Side, s: Sys, key: string): nat {
    |Under(side, s.live, key)| + |Under(side, s.admitted, key)|
  }

  lemma UnderGrows(side: Side, m: S.Conns, c: string, meta: S.ConnMeta, key: string)
    requires c !in m
    ensures |Under(side, m[c := meta], key)| == |Under(side, m, key)| + if Key(side, meta) == Some(key) then 1 else 0
  {
    hide Key;
    if Key(side, meta) == Some(key) {
      assert Under(side, m[c := meta], key) == Under(side, m, key)[c := meta];
    } else {
      assert Under(side, m[c := meta], key) == Under(side, m, key);
    }
    OneMore(Under(side, m, key), c, meta);
  }

  lemma UnderShrinks(side: Side, m: S.Conns, c: string, key: string)
    requires c in m
    ensures |Under(side, m - {c}, key)| == |Under(side, m, key)| - if Key(side, m[c]) == Some(key) then 1 else 0
  {
    hide Under, Key;
    UnderGrows(side, m - {c}, c, m[c], key);
    assert (m - {c})[c := m[c]] == m;
  }

  // A limit that Check does not find used up leaves a place under its key.
  lemma NotFullHasPlace(side: Side, cfg: S.Config, s: S.State, meta: S.ConnMeta, key: string)
    requires Key(side, meta) == Some(key)
    ensures !S.UserFull(s, cfg, S.Name(meta)) && !S.IPFull(s, cfg, meta.sourceIP) && LimitOf(side, cfg) > 0 ==>
              |S.ConnsOf(Index(side, s), key)| < LimitOf(side, cfg)
  {
    hide S.Name;
  }

  lemma LoadDecide(side: Side, cfg: S.Config, k: nat, s: Sys, tag: string, now: R.Time, key: string)
    requires Ok(s) && Complete(side, s) && LimitOf(side, cfg) > 0 && k >= 1 && tag in s.looking
    requires Load(side, s, key) <= LimitOf(side, cfg) + k - 1 && |DecideOne(cfg, s, tag, now).admitted| <= k
    ensures Load(side, DecideOne(cfg, s, tag, now), key) <= LimitOf(side, cfg) + k - 1
  {
    hide S.Name, S.Decide, S.UserFull, S.IPFull, S.DevicesFull, Under, Key, Index, CountsAgree, LimitOf;
    var a, s' := s.looking[tag], DecideOne(cfg, s, tag, now);
    if tag in s'.admitted {
      UnderGrows(side, s.admitted, tag, a.meta, key);
      if Key(side, a.meta) == Some(key) {
        AllowedSaw(s.lim, cfg, a.user, S.Name(a.meta), a.meta.sourceIP, now);
        NotFullHasPlace(side, cfg, s.lim, a.meta, key);
        assert |S.ConnsOf(Index(side, s.lim), key)| == |Under(side, s.live, key)|;
        SubmapSize(Under(side, s'.admitted, key), s'.admitted);
      }
    }
  }

  lemma LoadStep(side: Side, cfg: S.Config, k: nat, s: Sys, e: Event, key: string)
    requires Ok(s) && Complete(side, s) && LimitOf(side, cfg) > 0 && k >= 1
    requires Load(side, s, key) <= LimitOf(side, cfg) + k - 1 && |Next(cfg, s, e).admitted| <= k
    ensures Load(side, Next(cfg, s, e), key) <= LimitOf(side, cfg) + k - 1
  {
    hide S.Name, S.Register, S.Unregister, S.UserTable, S.Online, DecideOne, Under, Key, Complete, CountsAgree, LimitOf;
    match e
    case Decide(tag, now) =>
      if tag in s.looking {
        LoadDecide(side, cfg, k, s, tag, now, key);
      }
    case Register(tag) =>
      if tag in s.admitted {
        UnderShrinks(side, s.admitted, tag, key);
        UnderGrows(side, s.live, tag, s.admitted[tag], key);
      }
    case Close(tag) =>
      if tag in s.live {
        UnderShrinks(side, s.live, tag, key);
      }
    case Arrive(tag, meta) =>
    case UpdateUsers(users, now) =>
    case UpdateAlive(alive) =>
    case BuildAlive =>
  }

  lemma {:induction false} LoadRun(side: Side, cfg: S.Config, k: nat, s: Sys, run: seq<Event>, key: string)
    requires Ok(s) && AlwaysComplete(side, cfg, s, run) && LimitOf(side, cfg) > 0 && k >= 1 && AtMost(cfg, k, s, run)
    requires Load(side, s, key) <= LimitOf(side, cfg) + k - 1
    ensures Load(side, Run(cfg, s, run), key) <= LimitOf(side, cfg) + k - 1
    decreases run
  {
    hide Ok, Next, Load, Complete;
    if run != [] {
      assert AtMost(cfg, k, Next(cfg, s, run[0]), run[1..]);
      NextOk(cfg, s, run[0]);
      LoadStep(side, cfg, k, s, run[0], key);
      LoadRun(side, cfg, k, Next(cfg, s, run[0]), run[1..], key);
    }
  }

  // With at most k connections between Check and Register, and no connection
  // registered under an ID its map holds, the live and admitted connections of a
  // user (of an address) never exceed the limit by more than k - 1.
  lemma AdmissionBound(side: Side, cfg: S.Config, k: nat, run: seq<Event>, key: string)
    requires LimitOf(side, cfg) > 0 && k >= 1 && AtMost(cfg, k, START, run) && AlwaysFreshID(side, cfg, START, run)
    ensures Load(side, Run(cfg, START, run), key) <= LimitOf(side, cfg) + k - 1
  {
    hide Next, LimitOf, Key;
    MapsCompleteIffFreshIDs(side, cfg, run);
    StartOk();
    assert Under(side, START.live, key) == map[] && Under(side, START.admitted, key) == map[];
    LoadRun(side, cfg, k, START, run, key);
  }

  // One tracker never reuses an ID that is in use.
  lemma {:induction false} OneTrackerIsFresh(side: Side, cfg: S.Config, s: Sys, run: seq<Event>)
    requires Wf(s) && OneTracker(run)
    ensures AlwaysFreshID(side, cfg, s, run)
    decreases run
  {
    hide Wf, Next, FreshID;
    if run != [] {
      assert OwnID(run[0]);
      NextWf(cfg, s, run[0]);
      OwnIsFresh(side, s, run[0]);
      OneTrackerIsFresh(side, cfg, Next(cfg, s, run[0]), run[1..]);
    }
  }

  lemma OwnIsFresh(side: Side, s: Sys, e: Event)
    requires Wf(s)
    ensures FreshID(side, s, e)
  {
    hide S.Name;
    if e.Register? && e.tag in s.admitted && Key(side, s.admitted[e.tag]).Some? {
      var key := Key(side, s.admitted[e.tag]).value;
      assert S.ConnsOf(s.lim.activeConnByUser, key) == ByUser(s.live, key);
      assert S.ConnsOf(s.lim.activeConnByIP, key) == ByIP(s.live, key);
    }
  }

  // One tracker and one connection at a time: the configured limit itself holds.
  lemma LimitHolds(side: Side, cfg: S.Config, run: seq<Event>, key: string)
    requires LimitOf(side, cfg) > 0 && AtMost(cfg, 1, START, run) && OneTracker(run)
    ensures |Under(side, Run(cfg, START, run).live, key)| <= LimitOf(side, cfg)
  {
    hide Next, LimitOf, Under;
    StartWf();
    OneTrackerIsFresh(side, cfg, START, run);
    AdmissionBound(side, cfg, 1, run, key);
  }
}
