// Connections that share an ID: each new box restarts the sequence while older
// connections are still open. When the per-user and per-address maps stay complete.

module ReusedIDs {
  import opened Options
  import opened LimiterIndex
  import opened Admission
  import S = LimiterSpec

  datatype Side = ByName | ByAddress

  // The key a connection is filed under, if any.
  function Key(side: Side, meta: S.ConnMeta): Option<string> {
    if side.ByName? then Some(S.Name(meta)) else if meta.sourceIP.Some? then Some(meta.sourceIP.value) else None
  }

  function Index(side: Side, s: S.State): map<string, S.Conns> {
    if side.ByName? then s.activeConnByUser else s.activeConnByIP
  }

  // The connections that belong under a key.
  function Under(side: Side, live: S.Conns, key: string): (r: S.Conns)
    ensures r.Keys <= live.Keys
  {
    map tag | tag in live && Key(side, live[tag]) == Some(key) :: live[tag]
  }

  // No connection is missing from its map.
  ghost predicate Complete(side: Side, s: Sys) {
    forall key :: |S.ConnsOf(Index(side, s.lim), key)| == |Under(side, s.live, key)|
  }

  // A connection is registered under an ID that its map does not hold.
  ghost predicate FreshID(side: Side, s: Sys, e: Event) {
    e.Register? && e.tag in s.admitted && Key(side, s.admitted[e.tag]).Some? ==>
      s.admitted[e.tag].connID !in S.ConnsOf(Index(side, s.lim), Key(side, s.admitted[e.tag]).value)
  }

  ghost predicate Filed(side: Side, live: S.Conns, key: string, id: string) {
    exists tag :: tag in live && Key(side, live[tag]) == Some(key) && live[tag].connID == id
  }

  // The same key and the same ID.
  predicate Clash(side: Side, a: S.ConnMeta, b: S.ConnMeta) {
    Key(side, a).Some? && Key(side, a) == Key(side, b) && a.connID == b.connID
  }

  // The maps hold the IDs of the live connections, and none stands for two.
  ghost predicate Exact(side: Side, s: Sys) {
    && (forall key, id :: id in S.ConnsOf(Index(side, s.lim), key) <==> Filed(side, s.live, key, id))
    && (forall a, b :: a in s.live && b in s.live && Clash(side, s.live[a], s.live[b]) ==> a == b)
  }

  function IDsOf(m: S.Conns): set<string> {
    set tag | tag in m :: m[tag].connID
  }

  lemma {:induction false} IDsSize(m: S.Conns)
    requires forall a, b :: a in m && b in m && m[a].connID == m[b].connID ==> a == b
    ensures |IDsOf(m)| == |m|
    decreases |m|
  {
    if m == map[] {
      assert IDsOf(m) == {};
    } else {
      var c :| c in m;
      var rest := m - {c};
      assert m.Keys == rest.Keys + {c};
      IDsSize(rest);
      forall id ensures id in IDsOf(m) <==> id in IDsOf(rest) || id == m[c].connID {
        if tag :| tag in m && m[tag].connID == id && tag != c {
          assert rest[tag].connID == id;
        }
      }
      assert m[c].connID !in IDsOf(rest);
      assert IDsOf(m) == IDsOf(rest) + {m[c].connID};
    }
  }

  lemma ExactIsComplete(side: Side, s: Sys)
    requires Exact(side, s)
    ensures Complete(side, s)
  {
    hide Key, Index;
    forall key ensures |S.ConnsOf(Index(side, s.lim), key)| == |Under(side, s.live, key)| {
      var mine := Under(side, s.live, key);
      IDsSize(mine);
      forall id ensures id in S.ConnsOf(Index(side, s.lim), key).Keys <==> id in IDsOf(mine) {
        assert id in S.ConnsOf(Index(side, s.lim), key) <==> Filed(side, s.live, key, id);
        if tag :| tag in s.live && Key(side, s.live[tag]) == Some(key) && s.live[tag].connID == id {
          assert mine[tag].connID == id;
        }
      }
      assert S.ConnsOf(Index(side, s.lim), key).Keys == IDsOf(mine);
    }
  }

  // ---- One event ----

  function AddKey(index: map<string, S.Conns>, key: Option<string>, meta: S.ConnMeta): map<string, S.Conns> {
    if key.None? then index else S.AddConn(index, key.value, meta)
  }

  function DropKey(index: map<string, S.Conns>, key: Option<string>, meta: S.ConnMeta): map<string, S.Conns> {
    if key.None? then index else S.DropConn(index, key.value, meta)
  }

  lemma RegisterIndex(side: Side, s: S.State, meta: S.ConnMeta)
    requires S.Name(meta) != ""
    ensures Index(side, S.Register(s, meta)) == AddKey(Index(side, s), Key(side, meta), meta)
  {
    hide S.Name, S.AddConn, S.Register;
    RegisterChanges(s, meta);
  }

  lemma UnregisterIndex(side: Side, s: S.State, meta: S.ConnMeta)
    requires S.Name(meta) != ""
    ensures Index(side, S.Unregister(s, meta)) == DropKey(Index(side, s), Key(side, meta), meta)
  {
    hide S.Name, S.DropConn;
  }

  lemma RegisterExact(side: Side, cfg: S.Config, s: Sys, tag: string)
    requires Ok(s) && Exact(side, s) && tag in s.admitted && FreshID(side, s, Register(tag))
    ensures Exact(side, Next(cfg, s, Register(tag)))
  {
    hide S.Name, S.Register, Key, Index, CountsAgree;
    var meta, s' := s.admitted[tag], Next(cfg, s, Register(tag));
    RegisterIndex(side, s.lim, meta);
    forall key, id ensures id in S.ConnsOf(Index(side, s'.lim), key) <==> Filed(side, s'.live, key, id) {
      assert id in S.ConnsOf(Index(side, s.lim), key) <==> Filed(side, s.live, key, id);
      FiledAfterAdd(side, s.live, tag, meta, key, id);
    }
    forall a | a in s.live && Key(side, meta).Some? && Key(side, s.live[a]) == Key(side, meta)
      ensures s.live[a].connID != meta.connID
    {
      assert Filed(side, s.live, Key(side, meta).value, s.live[a].connID);
    }
  }

  lemma FiledAfterAdd(side: Side, live: S.Conns, tag: string, meta: S.ConnMeta, key: string, id: string)
    requires tag !in live
    ensures Filed(side, live[tag := meta], key, id) <==>
              Filed(side, live, key, id) || (Key(side, meta) == Some(key) && meta.connID == id)
  {
    hide Key;
    var live' := live[tag := meta];
    if t :| t in live && Key(side, live[t]) == Some(key) && live[t].connID == id {
      assert live'[t] == live[t];
    }
    if Key(side, meta) == Some(key) && meta.connID == id {
      assert live'[tag] == meta;
    }
  }

  lemma CloseExact(side: Side, cfg: S.Config, s: Sys, tag: string)
    requires Ok(s) && Exact(side, s) && tag in s.live
    ensures Exact(side, Next(cfg, s, Close(tag)))
  {
    hide S.Name, S.Unregister, Key, Index, CountsAgree;
    var meta, s' := s.live[tag], Next(cfg, s, Close(tag));
    UnregisterIndex(side, s.lim, meta);
    forall key, id ensures id in S.ConnsOf(Index(side, s'.lim), key) <==> Filed(side, s'.live, key, id) {
      assert id in S.ConnsOf(Index(side, s.lim), key) <==> Filed(side, s.live, key, id);
      FiledAfterDrop(side, s, tag, key, id);
      DroppedAt(Index(side, s.lim), Key(side, meta), meta, key);
    }
  }

  lemma DroppedAt(index: map<string, S.Conns>, key: Option<string>, meta: S.ConnMeta, other: string)
    ensures S.ConnsOf(DropKey(index, key, meta), other)
         == if key == Some(other) then S.ConnsOf(index, other) - {meta.connID} else S.ConnsOf(index, other)
  {
  }

  lemma FiledAfterDrop(side: Side, s: Sys, tag: string, key: string, id: string)
    requires Exact(side, s) && tag in s.live
    ensures Filed(side, s.live - {tag}, key, id) <==>
              Filed(side, s.live, key, id) && !(Key(side, s.live[tag]) == Some(key) && s.live[tag].connID == id)
  {
    hide Key, Index;
    var live' := s.live - {tag};
    if t :| t in s.live && Key(side, s.live[t]) == Some(key) && s.live[t].connID == id {
      if t != tag {
        assert t in live' && live'[t] == s.live[t];
      }
    }
  }

  lemma OthersExact(side: Side, cfg: S.Config, s: Sys, e: Event)
    requires Ok(s) && Exact(side, s) && !e.Register? && !e.Close?
    ensures Exact(side, Next(cfg, s, e))
  {
    hide Index, Key, Ok, Next;
    OthersKeepIndex(side, cfg, s, e);
    var s' := Next(cfg, s, e);
    forall key, id ensures id in S.ConnsOf(Index(side, s'.lim), key) <==> Filed(side, s'.live, key, id) {
      assert S.ConnsOf(Index(side, s'.lim), key) == S.ConnsOf(Index(side, s.lim), key);
    }
  }

  lemma OthersKeepIndex(side: Side, cfg: S.Config, s: Sys, e: Event)
    requires !e.Register? && !e.Close?
    ensures Next(cfg, s, e).live == s.live
    ensures forall key :: S.ConnsOf(Index(side, Next(cfg, s, e).lim), key) == S.ConnsOf(Index(side, s.lim), key)
  {
    hide S.Name, S.Decide, S.UserTable, S.Online, Key;
    if e.Decide? && e.tag in s.looking {
      var a := s.looking[e.tag];
      DecideKeepsConnections(s.lim, cfg, a.user, S.Name(a.meta), a.meta.sourceIP, e.now);
    }
  }

  lemma EventExact(side: Side, cfg: S.Config, s: Sys, e: Event)
    requires Ok(s) && Exact(side, s) && FreshID(side, s, e)
    ensures Exact(side, Next(cfg, s, e))
  {
    hide Exact, Ok, FreshID, DecideOne, S.Register, S.Unregister;
    if e.Register? {
      if e.tag in s.admitted { RegisterExact(side, cfg, s, e.tag); }
    } else if e.Close? {
      if e.tag in s.live { CloseExact(side, cfg, s, e.tag); }
    } else {
      OthersExact(side, cfg, s, e);
    }
  }

  // A registration under an ID already there leaves a connection out.
  lemma ReuseLosesOne(side: Side, cfg: S.Config, s: Sys, e: Event)
    requires Ok(s) && Complete(side, s) && !FreshID(side, s, e)
    ensures !Complete(side, Next(cfg, s, e))
  {
    hide S.Name, S.Register, Key, Index, CountsAgree;
    var meta, s' := s.admitted[e.tag], Next(cfg, s, e);
    var key := Key(side, meta).value;
    RegisterIndex(side, s.lim, meta);
    assert |S.ConnsOf(Index(side, s.lim), key)| == |Under(side, s.live, key)|;
    assert S.ConnsOf(Index(side, s'.lim), key).Keys == S.ConnsOf(Index(side, s.lim), key).Keys;
    assert Under(side, s'.live, key) == Under(side, s.live, key)[e.tag := meta];
    OneMore(Under(side, s.live, key), e.tag, meta);
  }

  // ---- Whole runs ----

  ghost predicate AlwaysComplete(side: Side, cfg: S.Config, s: Sys, run: seq<Event>)
    decreases run
  {
    Complete(side, s) && (run == [] || AlwaysComplete(side, cfg, Next(cfg, s, run[0]), run[1..]))
  }

  ghost predicate AlwaysFreshID(side: Side, cfg: S.Config, s: Sys, run: seq<Event>)
    decreases run
  {
    run == [] || (FreshID(side, s, run[0]) && AlwaysFreshID(side, cfg, Next(cfg, s, run[0]), run[1..]))
  }

  lemma {:induction false} CompleteIffFreshRun(side: Side, cfg: S.Config, s: Sys, run: seq<Event>)
    requires Ok(s) && Exact(side, s)
    ensures AlwaysComplete(side, cfg, s, run) <==> AlwaysFreshID(side, cfg, s, run)
    decreases run
  {
    hide Ok, Exact, Complete, FreshID, Next;
    ExactIsComplete(side, s);
    if run != [] {
      NextOk(cfg, s, run[0]);
      if FreshID(side, s, run[0]) {
        EventExact(side, cfg, s, run[0]);
        CompleteIffFreshRun(side, cfg, Next(cfg, s, run[0]), run[1..]);
      } else {
        ReuseLosesOne(side, cfg, s, run[0]);
      }
    }
  }

  // In a run of any interleaving, each user's map (each address's map) counts all its
  // live connections in every state exactly when no connection is ever registered
  // under an ID its map holds.
  lemma MapsCompleteIffFreshIDs(side: Side, cfg: S.Config, run: seq<Event>)
    ensures AlwaysComplete(side, cfg, START, run) <==> AlwaysFreshID(side, cfg, START, run)
  {
    StartOk();
    CompleteIffFreshRun(side, cfg, START, run);
  }
}
