// What every run of the traffic path keeps: no byte is created or lost, and no
// byte is acknowledged that was not counted.

module LedgerProofs {
  import opened Options
  import opened TrafficSpec
  import opened Ledger
  import opened LedgerWf

  // ---- Sums under one update ----

  lemma {:induction false} SumUpdate<T>(s: seq<T>, i: nat, x: T, f: T -> nat)
    requires i < |s|
    ensures Sum(s[i := x], f) == Sum(s, f) - f(s[i]) + f(x)
  {
    var n := |s| - 1;
    if i == n {
      assert s[i := x][..n] == s[..n];
    } else {
      assert s[i := x][..n] == s[..n][i := x];
      SumUpdate(s[..n], i, x, f);
    }
  }

  lemma SetThreadShare(own: Owner, l: Live, t: nat, next: Thread, uid: int, dir: Dir)
    requires t < |l.threads|
    ensures InLive(own, SetThread(l, t, next), uid, dir)
         == InLive(own, l, uid, dir) - Held(own, l.threads[t], uid, dir) + Held(own, next, uid, dir)
  {
    SumUpdate(l.threads, t, next, ThreadShare(own, uid, dir));
  }

  lemma SetConnShare(own: Owner, l: Live, c: nat, conn: Conn, uid: int, dir: Dir)
    requires c < |l.conns|
    ensures InLive(own, SetConn(l, c, conn), uid, dir)
         == InLive(own, l, uid, dir) - ConnShare(own, uid, dir)(l.conns[c]) + ConnShare(own, uid, dir)(conn)
  {
    SumUpdate(l.conns, c, conn, ConnShare(own, uid, dir));
  }

  lemma SetTotalShare(own: Owner, l: Live, r: nat, d: Dir, n: nat, uid: int, dir: Dir)
    requires r < |l.records|
    ensures var user := l.records[r].user;
            InLive(own, SetTotal(l, r, d, n), uid, dir) == InLive(own, l, uid, dir)
              + if d == dir then Share(own, user, uid, n) - Share(own, user, uid, Get(l.records[r].total, d)) else 0
  {
    SumUpdate(l.records, r, l.records[r].(total := Put(l.records[r].total, d, n)), RecordShare(own, uid, dir));
  }

  // ---- Connection threads conserve bytes ----

  lemma ConnThread(own: Owner, l: Live, c: nat, conn: Conn, t: nat, next: Thread, uid: int, dir: Dir)
    requires t < |l.threads| && c < |l.conns|
    requires ConnShare(own, uid, dir)(conn) + Held(own, next, uid, dir)
          == ConnShare(own, uid, dir)(l.conns[c]) + Held(own, l.threads[t], uid, dir)
    ensures InLive(own, SetThread(SetConn(l, c, conn), t, next), uid, dir) == InLive(own, l, uid, dir)
  {
    SetConnShare(own, l, c, conn, uid, dir);
    SetThreadShare(own, SetConn(l, c, conn), t, next, uid, dir);
  }

  lemma RecordThread(own: Owner, l: Live, r: nat, d: Dir, n: nat, t: nat, next: Thread, uid: int, dir: Dir)
    requires t < |l.threads| && r < |l.records|
    requires Held(own, l.threads[t], uid, dir)
          == Held(own, next, uid, dir) + if d == dir then Share(own, l.records[r].user, uid, n) else 0
    ensures InLive(own, SetThread(SetTotal(l, r, d, Get(l.records[r].total, d) + n), t, next), uid, dir)
         == InLive(own, l, uid, dir)
  {
    SetTotalShare(own, l, r, d, Get(l.records[r].total, d) + n, uid, dir);
    SetThreadShare(own, SetTotal(l, r, d, Get(l.records[r].total, d) + n), t, next, uid, dir);
  }

  lemma BufferStepConserves(own: Owner, l: Live, t: nat, uid: int, dir: Dir)
    requires IndexBounded(l) && t < |l.threads| && ThreadOk(l, l.threads[t])
    requires l.threads[t].Flush? || l.threads[t].CloseUp? || l.threads[t].CloseDown?
    ensures InLive(own, StepThread(l, t), uid, dir) == InLive(own, l, uid, dir)
  {
    var th := l.threads[t];
    var l' := StepThread(l, t);
    ConnThread(own, l, th.conn, l'.conns[th.conn], t, l'.threads[t], uid, dir);
  }

  lemma LookupStepConserves(own: Owner, l: Live, t: nat, uid: int, dir: Dir)
    requires IndexBounded(l) && t < |l.threads| && (l.threads[t].Load? || l.threads[t].Store?)
    ensures InLive(own, StepThread(l, t), uid, dir) == InLive(own, l, uid, dir)
  {
    var th := l.threads[t];
    var next := StepThread(l, t).threads[t];
    if th.Store? && th.user !in l.index {
      SetThreadShare(own, NewRecord(l, th.user), t, next, uid, dir);
    } else {
      SetThreadShare(own, l, t, next, uid, dir);
    }
  }

  lemma AddStepConserves(own: Owner, l: Live, t: nat, uid: int, dir: Dir)
    requires IndexBounded(l) && t < |l.threads| && ThreadOk(l, l.threads[t])
    requires l.threads[t].AddUp? || l.threads[t].AddDown?
    ensures InLive(own, StepThread(l, t), uid, dir) == InLive(own, l, uid, dir)
  {
    var th := l.threads[t];
    if th.AddUp? {
      RecordThread(own, l, th.rec, Up, th.amount.up, t, AddDown(th.user, th.rec, th.amount.down), uid, dir);
    } else {
      RecordThread(own, l, th.rec, Down, th.down, t, Idle, uid, dir);
    }
  }

  // Whatever a thread does next moves bytes between a buffer, its hands and a
  // record, the Load/LoadOrStore race included: nothing is created or lost.
  lemma StepThreadConserves(own: Owner, l: Live, t: nat, uid: int, dir: Dir)
    requires IndexBounded(l) && t < |l.threads| && ThreadOk(l, l.threads[t])
    ensures InLive(own, StepThread(l, t), uid, dir) == InLive(own, l, uid, dir)
  {
    var th := l.threads[t];
    if th.Flush? || th.CloseUp? || th.CloseDown? {
      BufferStepConserves(own, l, t, uid, dir);
    } else if th.Load? || th.Store? {
      LookupStepConserves(own, l, t, uid, dir);
    } else if !th.Idle? {
      AddStepConserves(own, l, t, uid, dir);
    }
  }

  lemma MoveCounts(own: Owner, l: Live, t: nat, c: nat, d: Dir, n: nat, uid: int, dir: Dir)
    requires t < |l.threads| && c < |l.conns| && l.threads[t].Idle?
    ensures InLive(own, Move(l, t, c, d, n), uid, dir)
         == InLive(own, l, uid, dir) + if own(l.conns[c].user) == Some(uid) && d == dir then n else 0
  {
    var l' := Move(l, t, c, d, n);
    SetConnShare(own, l, c, l'.conns[c], uid, dir);
    SetThreadShare(own, SetConn(l, c, l'.conns[c]), t, l'.threads[t], uid, dir);
  }

  lemma CloseConserves(own: Owner, l: Live, t: nat, c: nat, uid: int, dir: Dir)
    requires t < |l.threads| && c < |l.conns| && l.threads[t].Idle?
    ensures InLive(own, StartClose(l, t, c), uid, dir) == InLive(own, l, uid, dir)
  {
    if !l.conns[c].closing {
      ConnThread(own, l, c, l.conns[c].(closing := true), t, CloseUp(c), uid, dir);
    }
  }

  // A connection event changes the count and the live bytes alike, and nothing else.
  lemma ConnEventBytes(s: State, e: Event, uid: int, dir: Dir)
    requires Wf(s) && IsConnEvent(e)
    ensures var s' := ConnEvent(s, e);
      && s'.owner == s.owner && s'.rep == s.rep
      && s'.books == s.books.(counted := s'.books.counted)
      && s'.books.counted(uid, dir) >= s.books.counted(uid, dir)
      && InLive(s.owner, s'.live, uid, dir) - InLive(s.owner, s.live, uid, dir)
         == s'.books.counted(uid, dir) - s.books.counted(uid, dir)
  {
    hide InLive, Move, StartClose, StepThread, LiveOk;
    var l, own := s.live, s.owner;
    match e
    case Spawn => SpawnBytes(own, l, uid, dir);
    case Open(user) => OpenBytes(own, l, user, uid, dir);
    case IO(t, c, d, n) =>
      if t < |l.threads| && c < |l.conns| && l.threads[t].Idle? { MoveCounts(own, l, t, c, d, n, uid, dir); }
    case Close(t, c) =>
      if t < |l.threads| && c < |l.conns| && l.threads[t].Idle? { CloseConserves(own, l, t, c, uid, dir); }
    case Advance(t) => if t < |l.threads| { AdvanceConserves(own, l, t, uid, dir); }
  }

  lemma SpawnBytes(own: Owner, l: Live, uid: int, dir: Dir)
    ensures InLive(own, l.(threads := l.threads + [Idle]), uid, dir) == InLive(own, l, uid, dir)
  {
  }

  lemma OpenBytes(own: Owner, l: Live, user: string, uid: int, dir: Dir)
    ensures InLive(own, l.(conns := l.conns + [Conn(user, NONE, false, {}, NONE)]), uid, dir)
        == InLive(own, l, uid, dir)
  {
  }

  lemma AdvanceConserves(own: Owner, l: Live, t: nat, uid: int, dir: Dir)
    requires LiveOk(l) && t < |l.threads|
    ensures InLive(own, StepThread(l, t), uid, dir) == InLive(own, l, uid, dir)
  {
    StepThreadConserves(own, l, t, uid, dir);
  }

  // ---- The reporter conserves bytes ----

  function Inflow(b: Books, uid: int, dir: Dir): int {
    b.counted(uid, dir) + b.restored(uid, dir)
  }

  function Outflow(b: Books, uid: int, dir: Dir): int {
    b.acked(uid, dir) + b.trimmed(uid, dir) + b.lost(uid, dir)
  }

  lemma TakeUpBytes(s: State, user: string, uid: int, dir: Dir)
    requires s.rep.phase.Ranging? && Wf(s) && user in s.live.index
    ensures InMemory(TakeUp(s, user), uid, dir) == InMemory(s, uid, dir)
  {
    SetTotalShare(s.owner, s.live, s.live.index[user], Up, 0, uid, dir);
  }

  lemma TakeDownBytes(s: State, uid: int, dir: Dir)
    requires s.rep.phase.Halfway? && Wf(s)
    ensures InMemory(TakeDown(s), uid, dir) == InMemory(s, uid, dir)
  {
    var h := s.rep.phase;
    SetTotalShare(s.owner, s.live, h.rec, Down, 0, uid, dir);
    var item := UserTraffic(h.uid, h.up, s.live.records[h.rec].total.down);
    assert (h.got + [item])[..|h.got|] == h.got;
  }

  lemma FinishCollectBytes(rep: Reporter, uid: int, dir: Dir)
    requires rep.phase.Ranging? && Keyed(rep.pending)
    ensures InReporter(FinishCollect(rep), uid, dir) == InReporter(rep, uid, dir)
  {
    PayloadAt(rep.pending, rep.phase.got, uid, dir);
  }

  lemma TrimDropsOnly(m: Pending, max: int, uid: int, dir: Dir)
    ensures At(Trim(m, max), uid, dir) <= At(m, uid, dir)
  {
  }

  lemma CollectEventBytes(s: State, e: Event, uid: int, dir: Dir)
    requires Wf(s) && (e.CollectNext? || e.CollectDown? || e.CollectDone?)
    ensures InMemory(ReportEvent(s, e), uid, dir) == InMemory(s, uid, dir)
    ensures ReportEvent(s, e).books == s.books
  {
    match e
    case CollectNext(user) =>
      if s.rep.phase.Ranging? && user in s.live.index && user !in s.rep.phase.done { TakeUpBytes(s, user, uid, dir); }
    case CollectDown => if s.rep.phase.Halfway? { TakeDownBytes(s, uid, dir); }
    case CollectDone => if s.rep.phase.Ranging? { FinishCollectBytes(s.rep, uid, dir); }
  }

  lemma BufferBytes(s: State, uid: int, dir: Dir)
    requires s.rep.phase.Rejected?
    ensures var s' := BufferData(s, s.rep.phase.data, Buffered);
      InReporter(s'.rep, uid, dir) + s'.books.trimmed(uid, dir)
          == InReporter(s.rep, uid, dir) + s.books.trimmed(uid, dir)
    ensures BufferData(s, s.rep.phase.data, Buffered).books.trimmed(uid, dir) >= s.books.trimmed(uid, dir)
  {
  }

  predicate IsReporterEvent(e: Event) {
    !IsConnEvent(e) && !e.Crash? && !e.Restart?
  }

  lemma PhaseEventBytes(s: State, e: Event, uid: int, dir: Dir)
    requires Wf(s) && (e.BeginReport? || e.Push? || e.ClearPending? || e.Remove? || e.WriteTmp? || e.Rename?)
    ensures var s' := ReportEvent(s, e);
      && s'.live == s.live && s'.owner == s.owner
      && s'.books == s.books.(acked := s'.books.acked)
      && InReporter(s'.rep, uid, dir) + s'.books.acked(uid, dir)
         == InReporter(s.rep, uid, dir) + s.books.acked(uid, dir)
  {
  }

  // A reporter event moves bytes between memory and the acknowledged and trimmed
  // tallies, and touches no other tally.
  lemma ReportEventBytes(s: State, e: Event, uid: int, dir: Dir)
    requires Wf(s) && IsReporterEvent(e)
    ensures var s' := ReportEvent(s, e);
      && s'.books == s.books.(acked := s'.books.acked, trimmed := s'.books.trimmed)
      && InMemory(s', uid, dir) + s'.books.acked(uid, dir) + s'.books.trimmed(uid, dir)
         == InMemory(s, uid, dir) + s.books.acked(uid, dir) + s.books.trimmed(uid, dir)
      && s'.books.trimmed(uid, dir) >= s.books.trimmed(uid, dir)
  {
    if e.CollectNext? || e.CollectDown? || e.CollectDone? {
      CollectEventBytes(s, e, uid, dir);
    } else if e.Buffer? {
      if s.rep.phase.Rejected? { BufferBytes(s, uid, dir); }
    } else {
      PhaseEventBytes(s, e, uid, dir);
    }
  }

  // ---- Conservation ----

  ghost predicate Balanced(s: State, uid: int, dir: Dir) {
    Inflow(s.books, uid, dir) == InMemory(s, uid, dir) + Outflow(s.books, uid, dir)
  }

  lemma EventBalanced(s: State, e: Event, uid: int, dir: Dir)
    requires Wf(s) && Balanced(s, uid, dir)
    ensures Balanced(Next(s, e), uid, dir)
  {
    if IsConnEvent(e) {
      ConnEventBytes(s, e, uid, dir);
    } else if !e.Crash? && !e.Restart? {
      ReportEventBytes(s, e, uid, dir);
    }
  }

  lemma {:induction false} RunBalanced(s: State, run: seq<Event>, uid: int, dir: Dir)
    requires Wf(s) && Balanced(s, uid, dir)
    ensures Balanced(Run(s, run), uid, dir)
    decreases run
  {
    if run != [] {
      NextWf(s, run[0]);
      EventBalanced(s, run[0], uid, dir);
      RunBalanced(Next(s, run[0]), run[1..], uid, dir);
    }
  }

  // ---- No byte is acknowledged that was not counted ----

  // Acknowledged bytes, plus what could still be acknowledged from memory or
  // from a file that holds unacknowledged bytes only, stay below the count.
  ghost predicate Covered(s: State, uid: int, dir: Dir) {
    var top := s.books.counted(uid, dir) + s.books.debt(uid, dir);
    && s.books.acked(uid, dir) + InMemory(s, uid, dir)
       + (if s.rep.phase.Stopped? then FileShare(s.rep, uid, dir) else 0) <= top
    && s.books.acked(uid, dir) + (if s.rep.stale then 0 else FileShare(s.rep, uid, dir)) <= top
  }

  // What a reporter event does to the file: it keeps file and mark, marks the
  // file at an acknowledgement, removes it, or replaces it by the pending bytes.
  lemma FileAfter(s: State, e: Event, uid: int, dir: Dir)
    requires Wf(s) && IsReporterEvent(e)
    ensures var s' := ReportEvent(s, e);
      || (s'.rep.file == s.rep.file && s'.rep.stale == s.rep.stale && s'.books.acked == s.books.acked)
      || (s'.rep.file == s.rep.file && s'.rep.stale == s.rep.file.Some?)
      || s'.rep.file == None
      || (s'.rep.phase.Resting? && s'.rep.file == Some(s'.rep.pending) && !s'.rep.stale)
    ensures ReportEvent(s, e).rep.phase.Stopped? <==> s.rep.phase.Stopped?
    ensures s.rep.phase.Stopped? ==> ReportEvent(s, e) == s
  {
  }

  lemma ReportEventCovered(s: State, e: Event, uid: int, dir: Dir)
    requires Wf(s) && Covered(s, uid, dir) && IsReporterEvent(e)
    ensures Covered(ReportEvent(s, e), uid, dir)
  {
    ReportEventBytes(s, e, uid, dir);
    FileAfter(s, e, uid, dir);
  }

  lemma CrashCovered(s: State, uid: int, dir: Dir)
    requires Covered(s, uid, dir)
    ensures Covered(Die(s), uid, dir)
  {
  }

  lemma BootCovered(s: State, readable: bool, max: int, uid: int, dir: Dir)
    requires Wf(s) && Covered(s, uid, dir) && s.rep.phase.Stopped?
    ensures Covered(Boot(s, readable, max), uid, dir)
  {
    if s.rep.file.Some? {
      TrimDropsOnly(s.rep.file.value, max, uid, dir);
    }
  }

  lemma EventCovered(s: State, e: Event, uid: int, dir: Dir)
    requires Wf(s) && Covered(s, uid, dir)
    ensures Covered(Next(s, e), uid, dir)
  {
    if IsConnEvent(e) {
      ConnEventBytes(s, e, uid, dir);
    } else if e.Crash? {
      CrashCovered(s, uid, dir);
    } else if e.Restart? {
      if s.rep.phase.Stopped? { BootCovered(s, e.readable, e.max, uid, dir); }
    } else {
      ReportEventCovered(s, e, uid, dir);
    }
  }

  lemma {:induction false} RunCovered(s: State, run: seq<Event>, uid: int, dir: Dir)
    requires Wf(s) && Covered(s, uid, dir)
    ensures Covered(Run(s, run), uid, dir)
    decreases run
  {
    if run != [] {
      NextWf(s, run[0]);
      EventCovered(s, run[0], uid, dir);
      RunCovered(Next(s, run[0]), run[1..], uid, dir);
    }
  }
}
