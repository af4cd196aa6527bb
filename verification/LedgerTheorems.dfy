// The main results about the traffic path, over every run.

module LedgerTheorems {
  import opened TrafficSpec
  import opened Ledger
  import opened LedgerWf
  import opened LedgerProofs

  function After(max: int, run: seq<Event>): (s: State)
    ensures Wf(s)
  {
    Run(Init(max), run)
  }

  // ---- Conservation and crash safety ----

  // Every byte moved or read back is in exactly one place: a connection buffer, a
  // thread's hands, a record the collector will find, the reporter, or one of the
  // books of acknowledged, trimmed and lost bytes.
  lemma Conservation(max: int, run: seq<Event>, uid: int, dir: Dir)
    ensures var s := After(max, run);
      s.books.counted(uid, dir) + s.books.restored(uid, dir)
      == Sum(s.live.conns, ConnShare(s.owner, uid, dir)) + Sum(s.live.threads, ThreadShare(s.owner, uid, dir))
       + Sum(s.live.records, RecordShare(s.owner, uid, dir)) + InReporter(s.rep, uid, dir)
       + s.books.acked(uid, dir) + s.books.trimmed(uid, dir) + s.books.lost(uid, dir)
    ensures IndexOk(After(max, run).live)
  {
    RunBalanced(Init(max), run, uid, dir);
  }

  // What was acknowledged was counted, up to the entries of stale files at crashes.
  lemma AckedAtMostCountedPlusDebt(max: int, run: seq<Event>, uid: int, dir: Dir)
    ensures var b := After(max, run).books; b.acked(uid, dir) <= b.counted(uid, dir) + b.debt(uid, dir)
  {
    RunCovered(Init(max), run, uid, dir);
  }

  // The debt grows only at a crash that hits a stale file, by the persisted entry.
  lemma DebtOfOneEvent(s: State, e: Event, uid: int, dir: Dir)
    requires Wf(s)
    ensures Next(s, e).books.debt(uid, dir)
         == s.books.debt(uid, dir) + if e.Crash? && s.rep.stale then FileShare(s.rep, uid, dir) else 0
  {
    if IsConnEvent(e) {
      ConnEventBytes(s, e, uid, dir);
    } else if IsReporterEvent(e) {
      ReportEventBytes(s, e, uid, dir);
    }
  }

  // No crash falls between an acknowledged push and the end of its Report, and
  // the state file is always removed when that is tried.
  ghost predicate Careful(s: State, run: seq<Event>)
    requires Wf(s)
    decreases run
  {
    run == [] ||
    (&& (run[0].Crash? ==> !s.rep.phase.Acked? && !s.rep.phase.Cleared?)
     && run[0] != Remove(false)
     && (NextWf(s, run[0]); Careful(Next(s, run[0]), run[1..])))
  }

  ghost predicate StaleOnlyInWindow(s: State) {
    s.rep.stale ==> s.rep.phase.Acked? || s.rep.phase.Cleared?
  }

  lemma {:induction false} CarefulHasNoDebt(s: State, run: seq<Event>, uid: int, dir: Dir)
    requires Wf(s) && StaleOnlyInWindow(s) && Careful(s, run)
    ensures Run(s, run).books.debt(uid, dir) == s.books.debt(uid, dir)
    decreases run
  {
    if run != [] {
      NextWf(s, run[0]);
      CarefulHasNoDebt(Next(s, run[0]), run[1..], uid, dir);
    }
  }

  // Crash safety: crashes anywhere else, failed pushes, failed writes and renames,
  // trimming and any interleaving included, never over-report a byte.
  lemma CrashSafety(max: int, run: seq<Event>, uid: int, dir: Dir)
    requires Careful(Init(max), run)
    ensures var b := After(max, run).books; b.acked(uid, dir) <= b.counted(uid, dir)
  {
    AckedAtMostCountedPlusDebt(max, run, uid, dir);
    CarefulHasNoDebt(Init(max), run, uid, dir);
  }

  // A crash, the restart, and the events that follow.
  function Replay(max: int, rest: seq<Event>): seq<Event> {
    [Crash] + ([Restart(true, max)] + rest)
  }

  // A report that finds no new traffic and is acknowledged.
  const REPORT: seq<Event> := [BeginReport] + ([CollectDone] + ([Push(true)] + []))

  lemma RunCons(s: State, e: Event, rest: seq<Event>)
    requires Wf(s)
    ensures Wf(Next(s, e)) && Run(s, [e] + rest) == Run(Next(s, e), rest)
  {
    NextWf(s, e);
    assert ([e] + rest)[1..] == rest;
  }

  lemma {:induction false} RunAppend(s: State, a: seq<Event>, b: seq<Event>)
    requires Wf(s)
    ensures Run(s, a + b) == Run(Run(s, a), b)
    decreases a
  {
    hide Wf, Next;
    if a == [] {
      assert a + b == b;
    } else {
      NextWf(s, a[0]);
      assert (a + b)[0] == a[0] && (a + b)[1..] == a[1..] + b;
      RunAppend(Next(s, a[0]), a[1..], b);
    }
  }

  lemma RunOne(s: State, e: Event)
    requires Wf(s)
    ensures Wf(Next(s, e)) && Run(s, [e]) == Next(s, e)
  {
    NextWf(s, e);
    assert [e][1..] == [];
  }

  lemma ReloadAll(s: State, max: int)
    requires Wf(s) && s.rep.file.Some? && max > 0 && |s.rep.file.value| <= max
    ensures Wf(Boot(Die(s), true, max))
    ensures var s' := Boot(Die(s), true, max);
      && s'.rep.phase == Resting && s'.rep.pending == s.rep.file.value && s'.live == NO_LIVE
      && s'.books.acked == s.books.acked && s'.books.counted == s.books.counted
  {
    TrimSize(s.rep.file.value, max);
    NextWf(s, Crash);
    NextWf(Die(s), Restart(true, max));
  }

  lemma RestartThen(s: State, max: int, rest: seq<Event>)
    requires Wf(s)
    ensures Wf(Boot(Die(s), true, max)) && Run(s, Replay(max, rest)) == Run(Boot(Die(s), true, max), rest)
  {
    hide Run, Next, Boot, Die;
    CrashAndRestart(s, max);
    NextWf(Die(s), Restart(true, max));
    RunCons(s, Crash, [Restart(true, max)] + rest);
    RunCons(Die(s), Restart(true, max), rest);
  }

  lemma CrashAndRestart(s: State, max: int)
    requires Wf(s)
    ensures Wf(Die(s)) && Next(s, Crash) == Die(s) && Next(Die(s), Restart(true, max)) == Boot(Die(s), true, max)
  {
    NextWf(s, Crash);
  }

  lemma ReportPending(s: State, uid: int, dir: Dir)
    requires Wf(s) && s.rep.phase.Resting? && At(s.rep.pending, uid, dir) > 0
    ensures var s' := Run(s, REPORT);
      && s'.books.acked(uid, dir) == s.books.acked(uid, dir) + At(s.rep.pending, uid, dir)
      && s'.books.counted == s.books.counted
  {
    RunCons(s, BeginReport, [CollectDone] + ([Push(true)] + []));
    var s1 := Next(s, BeginReport);
    RunCons(s1, CollectDone, [Push(true)] + []);
    PayloadAt(s.rep.pending, [], uid, dir);
    assert uid in Payload(s.rep.pending, []);
    var s2 := Next(s1, CollectDone);
    RunCons(s2, Push(true), []);
  }

  // The window is real: after a crash between the acknowledged push and the
  // removal, the next report over-reports exactly the persisted entry.
  lemma CrashInWindowOverReports(s: State, max: int, uid: int, dir: Dir)
    requires Wf(s) && (s.rep.phase.Acked? || s.rep.phase.Cleared?)
    requires s.rep.file.Some? && max > 0 && |s.rep.file.value| <= max && FileShare(s.rep, uid, dir) > 0
    ensures var s' := Run(s, Replay(max, REPORT));
      && s'.books.acked(uid, dir) == s.books.acked(uid, dir) + FileShare(s.rep, uid, dir)
      && s'.books.counted == s.books.counted
  {
    ReloadAll(s, max);
    RestartThen(s, max, REPORT);
    ReportPending(Boot(Die(s), true, max), uid, dir);
  }

  // ---- Flush progress ----

  ghost predicate FlushDue(l: Live, c: nat, dir: Dir) {
    exists t :: 0 <= t < |l.threads| && l.threads[t] == Flush(c, dir)
  }

  predicate Closing(t: Thread, c: nat) {
    t == CloseUp(c) || (t.CloseDown? && t.conn == c)
  }

  ghost predicate CloseDue(l: Live, c: nat) {
    exists t :: 0 <= t < |l.threads| && Closing(l.threads[t], c)
  }

  // A buffer at or above the threshold is about to be swapped; a closing connection
  // is swept or about to be; a swept buffer holds at most what moved afterwards.
  ghost predicate BufferOk(l: Live, c: nat)
    requires c < |l.conns|
  {
    var conn := l.conns[c];
    && (conn.buf.up >= THRESHOLD ==> FlushDue(l, c, Up))
    && (conn.buf.down >= THRESHOLD ==> FlushDue(l, c, Down))
    && (conn.closing ==> (Up in conn.swept && Down in conn.swept) || CloseDue(l, c))
    && (forall t :: 0 <= t < |l.threads| && l.threads[t].CloseDown? && l.threads[t].conn == c ==> Up in conn.swept)
    && (Up in conn.swept ==> conn.buf.up <= conn.late.up)
    && (Down in conn.swept ==> conn.buf.down <= conn.late.down)
  }

  ghost predicate BuffersOk(l: Live) {
    forall c :: 0 <= c < |l.conns| ==> BufferOk(l, c)
  }

  // Thread t changed; every other thread still stands where it stood.
  lemma DueElsewhere(l: Live, l': Live, t: nat, c: nat)
    requires t < |l.threads| == |l'.threads| && l'.threads == l.threads[t := l'.threads[t]]
    ensures forall d :: FlushDue(l, c, d) && l.threads[t] != Flush(c, d) ==> FlushDue(l', c, d)
    ensures CloseDue(l, c) && !Closing(l.threads[t], c) ==> CloseDue(l', c)
  {
    forall d | FlushDue(l, c, d) && l.threads[t] != Flush(c, d) ensures FlushDue(l', c, d) {
      var i :| 0 <= i < |l.threads| && l.threads[i] == Flush(c, d);
      assert l'.threads[i] == l.threads[i];
    }
    if CloseDue(l, c) && !Closing(l.threads[t], c) {
      var i :| 0 <= i < |l.threads| && Closing(l.threads[i], c);
      assert l'.threads[i] == l.threads[i];
    }
  }

  lemma StepThreadBuffers(l: Live, t: nat, c: nat)
    requires t < |l.threads| && c < |l.conns| && ThreadOk(l, l.threads[t]) && IndexBounded(l) && BufferOk(l, c)
    ensures BufferOk(StepThread(l, t), c)
  {
    var th := l.threads[t];
    if th.Flush? || th.CloseUp? || th.CloseDown? {
      SwapBuffers(l, t, c);
    } else {
      AddBuffers(l, t, c);
    }
  }

  lemma SwapBuffers(l: Live, t: nat, c: nat)
    requires t < |l.threads| && c < |l.conns| && ThreadOk(l, l.threads[t]) && IndexBounded(l) && BufferOk(l, c)
    requires l.threads[t].Flush? || l.threads[t].CloseUp? || l.threads[t].CloseDown?
    ensures BufferOk(StepThread(l, t), c)
  {
    hide IndexBounded;
    var l' := StepThread(l, t);
    DueElsewhere(l, l', t, c);
    if l.threads[t] == CloseUp(c) {
      assert Closing(l'.threads[t], c);
    }
  }

  lemma AddBuffers(l: Live, t: nat, c: nat)
    requires t < |l.threads| && c < |l.conns| && ThreadOk(l, l.threads[t]) && IndexBounded(l) && BufferOk(l, c)
    requires !l.threads[t].Flush? && !l.threads[t].CloseUp? && !l.threads[t].CloseDown?
    ensures BufferOk(StepThread(l, t), c)
  {
    DueElsewhere(l, StepThread(l, t), t, c);
  }

  lemma MoveBuffers(l: Live, t: nat, c: nat, dir: Dir, n: nat, k: nat)
    requires t < |l.threads| && c < |l.conns| && l.threads[t].Idle? && k < |l.conns| && BufferOk(l, k)
    ensures BufferOk(Move(l, t, c, dir, n), k)
  {
    var l' := Move(l, t, c, dir, n);
    DueElsewhere(l, l', t, k);
    if k == c && Get(l'.conns[c].buf, dir) >= THRESHOLD {
      assert l'.threads[t] == Flush(c, dir);
    }
  }

  lemma StartCloseBuffers(l: Live, t: nat, c: nat, k: nat)
    requires t < |l.threads| && c < |l.conns| && l.threads[t].Idle? && k < |l.conns| && BufferOk(l, k)
    ensures BufferOk(StartClose(l, t, c), k)
  {
    var l' := StartClose(l, t, c);
    if l' != l {
      DueElsewhere(l, l', t, k);
      assert Closing(l'.threads[t], c);
    }
  }

  lemma SpawnBuffers(l: Live, c: nat)
    requires c < |l.conns| && BufferOk(l, c)
    ensures BufferOk(l.(threads := l.threads + [Idle]), c)
  {
    var l' := l.(threads := l.threads + [Idle]);
    forall i | 0 <= i < |l.threads| ensures l'.threads[i] == l.threads[i] {}
    assert forall d :: FlushDue(l, c, d) ==> FlushDue(l', c, d);
    assert CloseDue(l, c) ==> CloseDue(l', c);
  }

  lemma SameThreadsBuffers(l: Live, l': Live, c: nat)
    requires c < |l.conns| && c < |l'.conns| && l'.conns[c] == l.conns[c] && l'.threads == l.threads && BufferOk(l, c)
    ensures BufferOk(l', c)
  {
  }

  lemma ConnEventBuffers(s: State, e: Event)
    requires Wf(s) && IsConnEvent(e) && BuffersOk(s.live)
    ensures BuffersOk(ConnEvent(s, e).live)
  {
    var l, l' := s.live, ConnEvent(s, e).live;
    forall c | 0 <= c < |l'.conns| ensures BufferOk(l', c) {
      assert c < |l.conns| ==> BufferOk(l, c);
      if e.Advance? {
        if e.thread < |l.threads| { assert ThreadOk(l, l.threads[e.thread]); StepThreadBuffers(l, e.thread, c); }
      } else if e.IO? {
        if l' != l { MoveBuffers(l, e.thread, e.conn, e.dir, e.n, c); }
      } else if e.Close? {
        if l' != l { StartCloseBuffers(l, e.thread, e.conn, c); }
      } else if e.Spawn? {
        SpawnBuffers(l, c);
      } else if c < |l.conns| {
        SameThreadsBuffers(l, l', c);
      }
    }
  }

  lemma ReportEventBuffers(s: State, e: Event)
    requires Wf(s) && !IsConnEvent(e) && BuffersOk(s.live)
    ensures BuffersOk(ReportEvent(s, e).live)
  {
    var l, l' := s.live, ReportEvent(s, e).live;
    if !e.Crash? {
      assert l'.conns == l.conns && l'.threads == l.threads;
      forall c | 0 <= c < |l'.conns| ensures BufferOk(l', c) {
        SameThreadsBuffers(l, l', c);
      }
    }
  }

  lemma {:induction false} RunBuffers(s: State, run: seq<Event>)
    requires Wf(s) && BuffersOk(s.live)
    ensures BuffersOk(Run(s, run).live)
    decreases run
  {
    if run != [] {
      NextWf(s, run[0]);
      if IsConnEvent(run[0]) { ConnEventBuffers(s, run[0]); } else { ReportEventBuffers(s, run[0]); }
      RunBuffers(Next(s, run[0]), run[1..]);
    }
  }

  // Flush progress, under any number of concurrent readers, writers and closers:
  // a full buffer always has a thread about to swap it.
  lemma FullBufferIsAboutToFlush(max: int, run: seq<Event>, c: nat, dir: Dir)
    requires c < |After(max, run).live.conns| && Get(After(max, run).live.conns[c].buf, dir) >= THRESHOLD
    ensures FlushDue(After(max, run).live, c, dir)
  {
    RunBuffers(Init(max), run);
    assert BufferOk(After(max, run).live, c);
  }

  // At rest every buffer is below the threshold, and a closed connection holds at
  // most the bytes that moved after its buffers were swept.
  lemma QuietBuffers(max: int, run: seq<Event>, c: nat, dir: Dir)
    requires c < |After(max, run).live.conns|
    requires forall t :: 0 <= t < |After(max, run).live.threads| ==> After(max, run).live.threads[t].Idle?
    ensures var conn := After(max, run).live.conns[c];
      && Get(conn.buf, dir) < THRESHOLD
      && (conn.closing ==> Get(conn.buf, dir) <= Get(conn.late, dir))
  {
    RunBuffers(Init(max), run);
    var l := After(max, run).live;
    assert BufferOk(l, c);
    assert !FlushDue(l, c, Up) && !FlushDue(l, c, Down) && !CloseDue(l, c);
  }

  // ---- One AddTraffic call on its own ----

  // The shared map, name by name.
  function Totals(l: Live): map<string, Amount>
    requires IndexBounded(l)
  {
    map u | u in l.index :: l.records[l.index[u]].total
  }

  function Credit(m: map<string, Amount>, user: string, a: Amount): map<string, Amount> {
    var was := if user in m then m[user] else NONE;
    m[user := Amount(was.up + a.up, was.down + a.down)]
  }

  // Thread t takes every step.
  ghost predicate Uninterrupted(trace: seq<Live>, t: nat) {
    && (forall i :: 0 <= i < |trace| ==> LiveOk(trace[i]) && t < |trace[i].threads|)
    && (forall i :: 0 < i < |trace| ==> trace[i] == StepThread(trace[i - 1], t))
  }

  lemma AddUpAlone(l: Live, t: nat, user: string, r: nat, a: Amount)
    requires LiveOk(l) && t < |l.threads| && l.threads[t] == AddUp(user, r, a)
    ensures var l' := StepThread(l, t);
      && l'.conns == l.conns
      && l'.threads == l.threads[t := AddDown(user, r, a.down)] && user in l.index && user in Totals(l) && LiveOk(l')
      && Totals(l') == Totals(l)[user := Put(Totals(l)[user], Up, Totals(l)[user].up + a.up)]
  {
    assert ThreadOk(l, l.threads[t]);
    assert l.index[user] == r;
    StepThreadOk(l, t);
  }

  lemma AddDownAlone(l: Live, t: nat, user: string, r: nat, down: nat)
    requires LiveOk(l) && t < |l.threads| && l.threads[t] == AddDown(user, r, down)
    ensures var l' := StepThread(l, t);
      && l'.conns == l.conns
      && l'.threads == l.threads[t := Idle] && user in l.index && LiveOk(l')
      && Totals(l') == Totals(l)[user := Put(Totals(l)[user], Down, Totals(l)[user].down + down)]
  {
    assert ThreadOk(l, l.threads[t]);
    assert l.index[user] == r;
    StepThreadOk(l, t);
  }

  lemma Prepend(l: Live, t: nat, rest: seq<Live>)
    requires LiveOk(l) && t < |l.threads| && Uninterrupted(rest, t) && |rest| > 0 && rest[0] == StepThread(l, t)
    ensures Uninterrupted([l] + rest, t)
  {
  }

  lemma CreditInTwoAdds(m: map<string, Amount>, m1: map<string, Amount>, m2: map<string, Amount>, user: string,
                        a: Amount)
    requires user in m && m1 == m[user := Put(m[user], Up, m[user].up + a.up)]
    requires m2 == m1[user := Put(m1[user], Down, m1[user].down + a.down)]
    ensures m2 == Credit(m, user, a)
  {
  }

  // The two adds of AddTraffic, once the record is in hand.
  lemma AddsAlone(l: Live, t: nat, user: string, r: nat, a: Amount) returns (trace: seq<Live>)
    requires LiveOk(l) && t < |l.threads| && l.threads[t] == AddUp(user, r, a)
    ensures |trace| == 3 && trace[0] == l && Uninterrupted(trace, t)
    ensures trace[2].threads == l.threads[t := Idle] && trace[2].conns == l.conns
    ensures Totals(trace[2]) == Credit(Totals(l), user, a)
  {
    hide LiveOk, Totals, Credit, Uninterrupted, ThreadOk;
    var l1, l2 := TwoAdds(l, t, user, r, a);
    Alone(l2, t);
    Prepend(l1, t, [l2]);
    Prepend(l, t, [l1] + [l2]);
    trace := [l] + ([l1] + [l2]);
  }

  lemma TwoAdds(l: Live, t: nat, user: string, r: nat, a: Amount) returns (l1: Live, l2: Live)
    requires LiveOk(l) && t < |l.threads| && l.threads[t] == AddUp(user, r, a)
    ensures LiveOk(l1) && t < |l1.threads| && l1 == StepThread(l, t)
    ensures LiveOk(l2) && t < |l2.threads| && l2 == StepThread(l1, t) && l2.threads == l.threads[t := Idle]
    ensures l2.conns == l.conns
    ensures Totals(l2) == Credit(Totals(l), user, a)
  {
    hide Totals, Credit;
    AddUpAlone(l, t, user, r, a);
    l1 := StepThread(l, t);
    AddDownAlone(l1, t, user, r, a.down);
    l2 := StepThread(l1, t);
    CreditInTwoAdds(Totals(l), Totals(l1), Totals(l2), user, a);
  }

  lemma Alone(l: Live, t: nat)
    requires LiveOk(l) && t < |l.threads|
    ensures Uninterrupted([l], t)
  {
  }

  lemma PublishRecord(l: Live, t: nat, user: string, a: Amount)
    requires LiveOk(l) && t < |l.threads| && l.threads[t] == Store(user, a) && user !in l.index
    ensures var l' := StepThread(l, t);
      && l'.threads == l.threads[t := AddUp(user, |l.records|, a)] && LiveOk(l') && l'.conns == l.conns
      && Totals(l') == Totals(l)[user := NONE]
  {
    StepThreadOk(l, t);
  }

  lemma StoreAlone(l: Live, t: nat, user: string, a: Amount) returns (trace: seq<Live>)
    requires LiveOk(l) && t < |l.threads| && l.threads[t] == Store(user, a) && user !in l.index
    ensures |trace| == 4 && trace[0] == l && Uninterrupted(trace, t)
    ensures trace[3].threads == l.threads[t := Idle] && trace[3].conns == l.conns
    ensures Totals(trace[3]) == Credit(Totals(l), user, a)
  {
    hide Uninterrupted;
    PublishRecord(l, t, user, a);
    var rest := AddsAlone(StepThread(l, t), t, user, |l.records|, a);
    Prepend(l, t, rest);
    assert Credit(Totals(l)[user := NONE], user, a) == Credit(Totals(l), user, a);
    trace := [l] + rest;
  }

  lemma LookUp(l: Live, t: nat, user: string, a: Amount) returns (l1: Live)
    requires LiveOk(l) && t < |l.threads| && l.threads[t] == Load(user, a)
    ensures l1 == StepThread(l, t) && LiveOk(l1) && l1.index == l.index && l1.records == l.records
    ensures l1.conns == l.conns
    ensures l1.threads == l.threads[t := if user in l.index then AddUp(user, l.index[user], a) else Store(user, a)]
    ensures Totals(l1) == Totals(l)
  {
    StepThreadOk(l, t);
    l1 := StepThread(l, t);
  }

  // An AddTraffic call nobody interrupts credits its user, whether Load finds the
  // record (three steps) or LoadOrStore has to publish it (four).
  lemma AddTrafficAlone(l: Live, t: nat, user: string, a: Amount) returns (trace: seq<Live>)
    requires LiveOk(l) && t < |l.threads| && l.threads[t] == Load(user, a)
    ensures |trace| == (if user in l.index then 4 else 5) && trace[0] == l && Uninterrupted(trace, t)
    ensures trace[|trace| - 1].threads == l.threads[t := Idle] && trace[|trace| - 1].conns == l.conns
    ensures Totals(trace[|trace| - 1]) == Credit(Totals(l), user, a)
  {
    hide LiveOk, Totals, Uninterrupted;
    var l1 := LookUp(l, t, user, a);
    var rest;
    if user in l.index {
      rest := AddsAlone(l1, t, user, l.index[user], a);
    } else {
      rest := StoreAlone(l1, t, user, a);
    }
    Prepend(l, t, rest);
    trace := [l] + rest;
  }
}
