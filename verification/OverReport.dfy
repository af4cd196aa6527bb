// A run of the whole traffic path, from an empty process, in which the panel is
// told twice as many bytes as moved: one connection flushes once, the first push
// fails and is persisted, the second is acknowledged, and the process dies before
// the file is removed.

module OverReport {
  import opened Options
  import opened TrafficSpec
  import opened Ledger
  import opened LedgerWf
  import opened LedgerTheorems
  import opened Delivery
  import Identity

  // One connection and one idle thread; the bytes are in the shared record.
  function Flushed(name: string, dir: Dir, total: nat): Live {
    Live([Conn(name, NONE, false, {}, NONE)], [Idle], [Record(name, Only(dir, total))], map[name := 0])
  }

  // What the books say of this user's bytes in one direction.
  ghost predicate Booked(s: State, uid: int, dir: Dir, counted: int, acked: int) {
    s.books.counted(uid, dir) == counted && s.books.acked(uid, dir) == acked
  }

  // ---- Moving the bytes ----

  function Moving(name: string, dir: Dir, n: nat): seq<Event> {
    [Spawn] + ([Open(name)] + [IO(0, 0, dir, n)])
  }

  lemma MovingRuns(s: State, name: string, uid: int, dir: Dir, n: nat)
    requires Wf(s) && s.live == NO_LIVE && name != "" && s.owner(name) == Some(uid) && n >= THRESHOLD
    requires Booked(s, uid, dir, 0, 0)
    ensures var s' := Run(s, Moving(name, dir, n));
      && s'.rep == s.rep && s'.owner == s.owner && Booked(s', uid, dir, n, 0)
      && s'.live == Live([Conn(name, Only(dir, n), false, {}, NONE)], [Flush(0, dir)], [], map[])
  {
    hide Wf, Run;
    RunCons(s, Spawn, [Open(name)] + [IO(0, 0, dir, n)]);
    var s1 := s.(live := Live([], [Idle], [], map[]));
    assert s1 == Next(s, Spawn);
    RunCons(s1, Open(name), [IO(0, 0, dir, n)]);
    var s2 := s.(live := Live([Conn(name, NONE, false, {}, NONE)], [Idle], [], map[]));
    assert s2 == Next(s1, Open(name));
    MovingEnds(s2, name, uid, dir, n);
  }

  lemma MovingEnds(s: State, name: string, uid: int, dir: Dir, n: nat)
    requires Wf(s) && s.owner(name) == Some(uid) && n >= THRESHOLD && Booked(s, uid, dir, 0, 0)
    requires s.live == Live([Conn(name, NONE, false, {}, NONE)], [Idle], [], map[])
    ensures var s' := Run(s, [IO(0, 0, dir, n)]);
      && s'.rep == s.rep && s'.owner == s.owner && Booked(s', uid, dir, n, 0)
      && s'.live == Live([Conn(name, Only(dir, n), false, {}, NONE)], [Flush(0, dir)], [], map[])
  {
    hide Run;
    RunOne(s, IO(0, 0, dir, n));
    assert Next(s, IO(0, 0, dir, n)).live.threads == [Flush(0, dir)];
  }

  const FLUSHING: seq<Event> := [Advance(0)] + ([Advance(0)] + ([Advance(0)] + ([Advance(0)] + [Advance(0)])))

  // One step of the only thread.
  lemma AdvanceOnly(s: State, rest: seq<Event>)
    requires Wf(s) && |s.live.threads| == 1 && ThreadOk(s.live, s.live.threads[0]) && IndexBounded(s.live)
    ensures var s' := s.(live := StepThread(s.live, 0));
      Wf(s') && Run(s, [Advance(0)] + rest) == Run(s', rest)
  {
    RunCons(s, Advance(0), rest);
  }

  lemma OnlyThread(s: State)
    requires Wf(s) && |s.live.threads| == 1
    ensures ThreadOk(s.live, s.live.threads[0]) && IndexBounded(s.live)
  {
  }

  lemma FlushingRuns(s: State, name: string, dir: Dir, n: nat)
    requires Wf(s) && n > 0
    requires s.live == Live([Conn(name, Only(dir, n), false, {}, NONE)], [Flush(0, dir)], [], map[])
    ensures Run(s, FLUSHING) == s.(live := Flushed(name, dir, n))
  {
    hide Wf, Run;
    var conns := [Conn(name, NONE, false, {}, NONE)];
    OnlyThread(s);
    AdvanceOnly(s, [Advance(0)] + ([Advance(0)] + ([Advance(0)] + [Advance(0)])));
    var s1 := s.(live := Live(conns, [Load(name, Only(dir, n))], [], map[]));
    assert s1 == s.(live := StepThread(s.live, 0));
    OnlyThread(s1);
    AdvanceOnly(s1, [Advance(0)] + ([Advance(0)] + [Advance(0)]));
    var s2 := s.(live := Live(conns, [Store(name, Only(dir, n))], [], map[]));
    assert s2 == s1.(live := StepThread(s1.live, 0));
    OnlyThread(s2);
    AdvanceOnly(s2, [Advance(0)] + [Advance(0)]);
    var s3 := s.(live := Live(conns, [AddUp(name, 0, Only(dir, n))], [Record(name, NONE)], map[name := 0]));
    assert s3 == s2.(live := StepThread(s2.live, 0));
    FlushingEnds(s3, name, dir, n);
  }

  lemma FlushingEnds(s: State, name: string, dir: Dir, n: nat)
    requires Wf(s)
    requires s.live == Live([Conn(name, NONE, false, {}, NONE)], [AddUp(name, 0, Only(dir, n))],
                            [Record(name, NONE)], map[name := 0])
    ensures Run(s, [Advance(0)] + [Advance(0)]) == s.(live := Flushed(name, dir, n))
  {
    hide Wf, Run;
    OnlyThread(s);
    AdvanceOnly(s, [Advance(0)]);
    var a := Only(dir, n);
    var s1 := s.(live := Live(s.live.conns, [AddDown(name, 0, a.down)], [Record(name, Amount(a.up, 0))], s.live.index));
    assert s1 == s.(live := StepThread(s.live, 0));
    OnlyThread(s1);
    RunOne(s1, Advance(0));
    assert StepThread(s1.live, 0) == Flushed(name, dir, n);
  }

  // ---- Two reports ----

  lemma OneRecord(s: State, name: string, dir: Dir, n: nat)
    requires s.live == Flushed(name, dir, n)
    ensures forall uid, d :: Recorded(s, uid, d) == if s.owner(name) == Some(uid) && d == dir then n else 0
  {
    assert forall f: Record -> nat, r :: Sum([r], f) == f(r) by {
      forall f: Record -> nat, r ensures Sum([r], f) == f(r) { assert [r][..0] == []; }
    }
  }

  // Every byte there is belongs to this user and this direction.
  ghost predicate OnlyBytes(m: Pending, uid: int, dir: Dir, n: nat) {
    forall id, d :: At(m, id, d) == if id == uid && d == dir then n else 0
  }

  lemma OneEntry(m: Pending, uid: int, dir: Dir, n: nat, max: int)
    requires OnlyBytes(m, uid, dir, n) && n > 0 && max > 0
    requires forall u :: u in m <==> At(m, u, Up) + At(m, u, Down) > 0
    ensures |m| == 1 && Trim(m, max) == m
  {
    hide At, Trim;
    forall u ensures u in m <==> u == uid {
      assert At(m, u, Up) == (if u == uid && Up == dir then n else 0);
      assert At(m, u, Down) == (if u == uid && Down == dir then n else 0);
    }
    assert m.Keys == {uid};
    TrimSize(m, max);
  }

  // The first report collects the bytes; its push fails and is persisted.
  lemma FirstReport(s: State, name: string, uid: int, dir: Dir, n: nat) returns (data: Pending)
    requires Wf(s) && s.live == Flushed(name, dir, n) && n > 0 && s.owner(name) == Some(uid)
    requires Booked(s, uid, dir, n, 0)
    requires s.rep.phase == Resting && s.rep.pending == map[] && s.rep.max > 0
    ensures OnlyBytes(data, uid, dir, n) && |data| == 1
    ensures var s' := Run(s, Collection([name]) + PERSISTING);
      && s'.live == Flushed(name, dir, 0) && s'.owner == s.owner && Booked(s', uid, dir, n, 0)
      && s'.rep == Reporter(Resting, data, s.rep.max, None, Some(data), false)
  {
    hide Run, Wf, Collection, At, Trim, Recorded;
    CollectionDelivers(s, [name]);
    OneRecord(s, name, dir, n);
    NothingThere();
    var s1 := Run(s, Collection([name]));
    SomethingPushed(s1, uid, dir);
    data := s1.rep.phase.data;
    OneEntry(data, uid, dir, n, s.rep.max);
    PersistingEnds(s1, data);
    RunAppend(s, Collection([name]), PERSISTING);
  }

  // The second finds nothing new, and its push is acknowledged.
  lemma SecondReport(s: State, data: Pending, name: string, uid: int, dir: Dir, n: nat)
    requires Wf(s) && s.live == Flushed(name, dir, 0) && n > 0 && s.owner(name) == Some(uid)
    requires Booked(s, uid, dir, n, 0) && OnlyBytes(data, uid, dir, n)
    requires s.rep == Reporter(Resting, data, s.rep.max, None, Some(data), false)
    ensures var s' := Run(s, Collection([name]) + [Push(true)]);
      && s'.rep.phase.Acked? && s'.rep.file == s.rep.file && Booked(s', uid, dir, n, n)
  {
    hide Run, Wf, Collection, At, Recorded;
    CollectionDelivers(s, [name]);
    OneRecord(s, name, dir, 0);
    var s1 := Run(s, Collection([name]));
    SomethingPushed(s1, uid, dir);
    RunOne(s1, Push(true));
    RunAppend(s, Collection([name]), [Push(true)]);
  }

  // ---- The whole run ----

  // Up to the acknowledged push whose file is still there.
  function UpToAck(name: string, dir: Dir, n: nat): seq<Event> {
    (Moving(name, dir, n) + FLUSHING) + ((Collection([name]) + PERSISTING) + (Collection([name]) + [Push(true)]))
  }

  lemma NamedUser(name: string)
    requires Identity.ParseUserID(name).Some?
    ensures name != ""
  {
  }

  lemma UpToAckRuns(max: int, name: string, uid: int, dir: Dir, n: nat)
    requires max > 0 && Identity.ParseUserID(name) == Some(uid) && n >= THRESHOLD
    ensures var s := After(max, UpToAck(name, dir, n));
      && s.rep.phase.Acked? && s.rep.file.Some? && |s.rep.file.value| == 1 && FileShare(s.rep, uid, dir) == n
      && Booked(s, uid, dir, n, n)
  {
    hide Run, Identity.ParseUserID, Collection, Moving;
    var s := Init(max);
    NamedUser(name);
    MovingRuns(s, name, uid, dir, n);
    var s1 := Run(s, Moving(name, dir, n));
    FlushingRuns(s1, name, dir, n);
    RunAppend(s, Moving(name, dir, n), FLUSHING);
    var s2 := Run(s1, FLUSHING);
    var data := FirstReport(s2, name, uid, dir, n);
    var s3 := Run(s2, Collection([name]) + PERSISTING);
    SecondReport(s3, data, name, uid, dir, n);
    RunAppend(s2, Collection([name]) + PERSISTING, Collection([name]) + [Push(true)]);
    RunAppend(s, Moving(name, dir, n) + FLUSHING,
              (Collection([name]) + PERSISTING) + (Collection([name]) + [Push(true)]));
  }

  // For every user, each direction and every amount of at least the threshold there is
  // a run that moves that amount and ends with twice as much acknowledged.
  lemma AckedExceedsCounted(max: int, uid: int, dir: Dir, n: nat)
    requires max > 0 && 0 < uid && Identity.IsInt64(uid) && n >= THRESHOLD
    ensures var run := UpToAck(Identity.LimiterUserName(uid), dir, n) + Replay(max, REPORT);
      var b := After(max, run).books;
      b.counted(uid, dir) == n && b.acked(uid, dir) == 2 * n && b.acked(uid, dir) > b.counted(uid, dir)
  {
    hide Run, Identity.ParseUserID, UpToAck, Identity.LimiterUserName;
    var name := Identity.LimiterUserName(uid);
    Identity.UserNameRoundTrip(uid);
    UpToAckRuns(max, name, uid, dir, n);
    var s := After(max, UpToAck(name, dir, n));
    CrashInWindowOverReports(s, max, uid, dir);
    RunAppend(Init(max), UpToAck(name, dir, n), Replay(max, REPORT));
  }
}
