// What a report delivers: a collection that visits every name pushes all the bytes
// the records held when it began, whatever the connection threads do meanwhile.

module Delivery {
  import opened Options
  import opened TrafficSpec
  import opened Ledger
  import opened LedgerWf
  import opened LedgerProofs
  import opened LedgerTheorems

  // ---- Sums side by side ----

  // Every summand but the one at k is matched.
  lemma {:induction false} SumMatched<T>(a: seq<T>, b: seq<T>, f: T -> nat, g: T -> nat, k: int)
    requires |a| <= |b| && forall i :: 0 <= i < |a| && i != k ==> f(a[i]) <= g(b[i])
    ensures Sum(a, f) <= Sum(b, g) + if 0 <= k < |a| then f(a[k]) else 0
    decreases |b|
  {
    if |a| < |b| {
      SumMatched(a, b[..|b| - 1], f, g, k);
    } else if a != [] {
      SumMatched(a[..|a| - 1], b[..|b| - 1], f, g, k);
    }
  }

  lemma {:induction false} SumZero<T>(s: seq<T>, f: T -> nat, i: nat)
    requires i < |s| && Sum(s, f) == 0
    ensures f(s[i]) == 0
  {
    if i < |s| - 1 {
      SumZero(s[..|s| - 1], f, i);
    }
  }

  lemma {:induction false} ZeroSum<T>(s: seq<T>, f: T -> nat)
    requires forall i :: 0 <= i < |s| ==> f(s[i]) == 0
    ensures Sum(s, f) == 0
  {
    if s != [] {
      ZeroSum(s[..|s| - 1], f);
    }
  }

  // ---- What a collection has and what it still has to take ----

  predicate Collects(p: Phase) {
    p.Ranging? || p.Halfway?
  }

  predicate Taken(p: Phase, user: string, dir: Dir) {
    Collects(p) && (user in p.done || (p.Halfway? && user == p.user && dir.Up?))
  }

  // The bytes of a record still to be taken for one of these names.
  function LeftIn(own: Owner, names: set<string>, p: Phase, uid: int, dir: Dir, r: Record): nat {
    if r.user in names && !Taken(p, r.user, dir) then Share(own, r.user, uid, Get(r.total, dir)) else 0
  }

  function Left(own: Owner, names: set<string>, p: Phase, uid: int, dir: Dir): Record -> nat {
    (r: Record) => LeftIn(own, names, p, uid, dir, r)
  }

  // Bytes this collection has or will still find under these names.
  function Reach(s: State, names: set<string>, uid: int, dir: Dir): nat {
    InReporter(s.rep, uid, dir) + Sum(s.live.records, Left(s.owner, names, s.rep.phase, uid, dir))
  }

  predicate IsVisit(e: Event) {
    e.CollectNext? || e.CollectDown?
  }

  ghost predicate RecordsGrow(l: Live, l': Live) {
    && |l.records| <= |l'.records|
    && forall i :: 0 <= i < |l.records| ==>
         && l'.records[i].user == l.records[i].user
         && l'.records[i].total.up >= l.records[i].total.up
         && l'.records[i].total.down >= l.records[i].total.down
  }

  lemma ConnEventGrows(s: State, e: Event)
    requires Wf(s) && IsConnEvent(e)
    ensures RecordsGrow(s.live, ConnEvent(s, e).live) && ConnEvent(s, e).rep == s.rep
  {
    if e.Advance? && e.thread < |s.live.threads| {
      assert ThreadOk(s.live, s.live.threads[e.thread]);
    }
  }

  lemma ConnEventReach(s: State, e: Event, names: set<string>, uid: int, dir: Dir)
    requires Wf(s) && IsConnEvent(e) && Collects(s.rep.phase)
    ensures var s' := ConnEvent(s, e);
      s'.rep == s.rep && s'.owner == s.owner && Reach(s', names, uid, dir) >= Reach(s, names, uid, dir)
  {
    hide ConnEvent, Wf, LeftIn, RecordsGrow;
    ConnEventGrows(s, e);
    NextWf(s, e);
    var f := Left(s.owner, names, s.rep.phase, uid, dir);
    var a, b := s.live.records, ConnEvent(s, e).live.records;
    GrownLeft(s.live, ConnEvent(s, e).live, s.owner, names, s.rep.phase, uid, dir);
    SumMatched(a, b, f, f, -1);
  }

  lemma GrownLeft(l: Live, l': Live, own: Owner, names: set<string>, p: Phase, uid: int, dir: Dir)
    requires RecordsGrow(l, l')
    ensures |l.records| <= |l'.records|
    ensures forall i :: 0 <= i < |l.records| ==>
              LeftIn(own, names, p, uid, dir, l.records[i]) <= LeftIn(own, names, p, uid, dir, l'.records[i])
  {
  }

  lemma TakeUpReach(s: State, user: string, names: set<string>, uid: int, dir: Dir)
    requires Wf(s) && s.rep.phase.Ranging? && user in s.live.index && user !in s.rep.phase.done
    ensures Collects(TakeUp(s, user).rep.phase)
    ensures Reach(TakeUp(s, user), names, uid, dir) >= Reach(s, names, uid, dir)
  {
    hide LeftIn, TakeUp;
    var s' := TakeUp(s, user);
    var k := if s.owner(user).Some? && dir.Up? then s.live.index[user] else -1;
    var f, g := Left(s.owner, names, s.rep.phase, uid, dir), Left(s.owner, names, s'.rep.phase, uid, dir);
    TakeUpLeft(s, user, names, uid, dir, k);
    SumMatched(s.live.records, s'.live.records, f, g, k);
  }

  lemma TakeUpLeft(s: State, user: string, names: set<string>, uid: int, dir: Dir, k: int)
    requires Wf(s) && s.rep.phase.Ranging? && user in s.live.index && user !in s.rep.phase.done
    requires k == if s.owner(user).Some? && dir.Up? then s.live.index[user] else -1
    ensures var (s', p) := (TakeUp(s, user), s.rep.phase);
      var (a, b) := (s.live.records, s'.live.records);
      && |a| == |b| && s'.owner == s.owner && Collects(s'.rep.phase)
      && (forall i :: 0 <= i < |a| && i != k ==>
            LeftIn(s.owner, names, p, uid, dir, a[i]) <= LeftIn(s.owner, names, s'.rep.phase, uid, dir, b[i]))
      && InReporter(s'.rep, uid, dir) >= InReporter(s.rep, uid, dir)
           + if 0 <= k < |a| then LeftIn(s.owner, names, p, uid, dir, a[k]) else 0
  {
    var (a, b) := (s.live.records, TakeUp(s, user).live.records);
    assert a[s.live.index[user]].user == user;
    forall i | 0 <= i < |a| && a[i].user == user ensures i == s.live.index[user] {}
  }

  lemma TakeDownReach(s: State, names: set<string>, uid: int, dir: Dir)
    requires Wf(s) && s.rep.phase.Halfway?
    ensures Collects(TakeDown(s).rep.phase)
    ensures Reach(TakeDown(s), names, uid, dir) >= Reach(s, names, uid, dir)
  {
    hide LeftIn, TakeDown;
    var s' := TakeDown(s);
    var k := if dir.Down? then s.rep.phase.rec else -1;
    var f, g := Left(s.owner, names, s.rep.phase, uid, dir), Left(s.owner, names, s'.rep.phase, uid, dir);
    TakeDownLeft(s, names, uid, dir, k);
    SumMatched(s.live.records, s'.live.records, f, g, k);
  }

  lemma TakeDownLeft(s: State, names: set<string>, uid: int, dir: Dir, k: int)
    requires Wf(s) && s.rep.phase.Halfway? && k == if dir.Down? then s.rep.phase.rec else -1
    ensures var (s', p) := (TakeDown(s), s.rep.phase);
      var (a, b) := (s.live.records, s'.live.records);
      && |a| == |b| && s'.owner == s.owner && Collects(s'.rep.phase)
      && (forall i :: 0 <= i < |a| && i != k ==>
            LeftIn(s.owner, names, p, uid, dir, a[i]) <= LeftIn(s.owner, names, s'.rep.phase, uid, dir, b[i]))
      && InReporter(s'.rep, uid, dir) >= InReporter(s.rep, uid, dir)
           + if 0 <= k < |a| then LeftIn(s.owner, names, p, uid, dir, a[k]) else 0
  {
    var h, a := s.rep.phase, s.live.records;
    forall i | 0 <= i < |a| && a[i].user == h.user ensures i == h.rec {}
    var item := UserTraffic(h.uid, h.up, a[h.rec].total.down);
    assert (h.got + [item])[..|h.got|] == h.got;
  }

  // ---- A report among connection threads ----

  // Nothing but connection threads and the collector's visits.
  ghost predicate During(run: seq<Event>) {
    forall i :: 0 <= i < |run| ==> IsConnEvent(run[i]) || IsVisit(run[i])
  }

  lemma VisitEventReach(s: State, e: Event, names: set<string>, uid: int, dir: Dir)
    requires Wf(s) && Collects(s.rep.phase) && IsVisit(e)
    ensures Collects(Next(s, e).rep.phase) && Reach(Next(s, e), names, uid, dir) >= Reach(s, names, uid, dir)
  {
    hide Reach, TakeUp, TakeDown, Wf;
    match e
    case CollectNext(user) =>
      if s.rep.phase.Ranging? && user in s.live.index && user !in s.rep.phase.done {
        TakeUpReach(s, user, names, uid, dir);
      }
    case CollectDown =>
      if s.rep.phase.Halfway? {
        TakeDownReach(s, names, uid, dir);
      }
  }

  lemma {:induction false} RunReaches(s: State, run: seq<Event>, names: set<string>, uid: int, dir: Dir)
    requires Wf(s) && Collects(s.rep.phase) && During(run)
    ensures Collects(Run(s, run).rep.phase) && Reach(Run(s, run), names, uid, dir) >= Reach(s, names, uid, dir)
    decreases run
  {
    hide Reach, Wf, Next;
    if run != [] {
      NextWf(s, run[0]);
      NextReaches(s, run[0], names, uid, dir);
      RunReaches(Next(s, run[0]), run[1..], names, uid, dir);
    }
  }

  lemma NextReaches(s: State, e: Event, names: set<string>, uid: int, dir: Dir)
    requires Wf(s) && Collects(s.rep.phase) && (IsConnEvent(e) || IsVisit(e))
    ensures Collects(Next(s, e).rep.phase) && Reach(Next(s, e), names, uid, dir) >= Reach(s, names, uid, dir)
  {
    hide Reach, Wf, ConnEvent, ReportEvent;
    if IsConnEvent(e) {
      ConnEventReach(s, e, names, uid, dir);
    } else {
      VisitEventReach(s, e, names, uid, dir);
    }
  }

  // What a finished collection is about to push, nothing when it found nothing.
  function Pushed(s: State): Pending {
    if s.rep.phase.Pushing? then s.rep.phase.data else map[]
  }

  // All the shared records hold for a user.
  function Recorded(s: State, uid: int, dir: Dir): nat {
    Sum(s.live.records, RecordShare(s.owner, uid, dir))
  }

  // Delivery: a report that visits every name known at its start pushes at least the
  // bytes pending and in the records then, for every user and both directions,
  // however connection threads run between its steps.
  lemma ReportDelivers(s: State, run: seq<Event>, uid: int, dir: Dir)
    requires Wf(s) && s.rep.phase.Resting? && During(run)
    requires var t := Run(s, [BeginReport] + run); t.rep.phase.Ranging? && s.live.index.Keys <= t.rep.phase.done
    ensures var t := Next(Run(s, [BeginReport] + run), CollectDone);
      && (t.rep.phase.Pushing? || t.rep.phase.Resting?)
      && At(Pushed(t), uid, dir) >= At(s.rep.pending, uid, dir) + Recorded(s, uid, dir)
  {
    hide Reach, Run, Payload;
    RunCons(s, BeginReport, run);
    var begun := Next(s, BeginReport);
    var names := s.live.index.Keys;
    BegunReach(s, uid, dir);
    RunReaches(begun, run, names, uid, dir);
    var t := Run(begun, run);
    AllTaken(t, names, uid, dir);
    PayloadAt(t.rep.pending, t.rep.phase.got, uid, dir);
  }

  lemma BegunReach(s: State, uid: int, dir: Dir)
    requires Wf(s) && s.rep.phase.Resting?
    ensures var begun := s.(rep := s.rep.(phase := Ranging({}, [])));
      && begun == Next(s, BeginReport)
      && Reach(begun, s.live.index.Keys, uid, dir) >= At(s.rep.pending, uid, dir) + Recorded(s, uid, dir)
  {
    var p := Ranging({}, []);
    var f, g := RecordShare(s.owner, uid, dir), Left(s.owner, s.live.index.Keys, p, uid, dir);
    SumMatched(s.live.records, s.live.records, f, g, -1);
  }

  lemma AllTaken(t: State, names: set<string>, uid: int, dir: Dir)
    requires t.rep.phase.Ranging? && names <= t.rep.phase.done
    ensures Reach(t, names, uid, dir) == At(t.rep.pending, uid, dir) + Total(t.rep.phase.got, uid, dir)
  {
    ZeroSum(t.live.records, Left(t.owner, names, t.rep.phase, uid, dir));
  }

  // ---- A report on its own ----

  // One visit of each name; the second half does nothing for a name without an owner.
  function Visits(users: seq<string>): seq<Event> {
    if users == [] then [] else [CollectNext(users[0])] + ([CollectDown] + Visits(users[1..]))
  }

  lemma {:induction false} VisitsDuring(users: seq<string>)
    ensures During(Visits(users))
    ensures forall i :: 0 <= i < |Visits(users)| ==> IsVisit(Visits(users)[i])
  {
    if users != [] {
      VisitsDuring(users[1..]);
    }
  }

  // The collector leaves everything else as it was, and records without an owner too.
  ghost predicate OnlyCollected(s: State, t: State) {
    && t.owner == s.owner && t.books == s.books
    && t.rep == s.rep.(phase := t.rep.phase)
    && t.live == s.live.(records := t.live.records) && |t.live.records| == |s.live.records|
    && (forall r :: 0 <= r < |s.live.records| ==> t.live.records[r].user == s.live.records[r].user)
    && (forall r :: 0 <= r < |s.live.records| && s.owner(s.live.records[r].user).None? ==>
          t.live.records[r] == s.live.records[r])
  }

  lemma VisitOnly(s: State, e: Event)
    requires Wf(s) && IsVisit(e)
    ensures OnlyCollected(s, Next(s, e))
  {
  }

  // After the visit of a name the collector is ranging again and the name is done.
  lemma VisitOne(s: State, user: string)
    requires Wf(s) && s.rep.phase.Ranging?
    ensures var s1 := Next(s, CollectNext(user));
      && Wf(s1)
      && var s2 := Next(s1, CollectDown);
         && s2.rep.phase.Ranging? && s.rep.phase.done <= s2.rep.phase.done
         && (user in s.live.index ==> user in s2.rep.phase.done)
  {
    NextWf(s, CollectNext(user));
  }

  lemma {:induction false} VisitsRun(s: State, users: seq<string>)
    requires Wf(s) && s.rep.phase.Ranging?
    ensures var t := Run(s, Visits(users));
      && t.rep.phase.Ranging? && OnlyCollected(s, t) && s.rep.phase.done <= t.rep.phase.done
      && (forall u :: u in users && u in s.live.index ==> u in t.rep.phase.done)
    decreases users
  {
    hide Wf, Next;
    if users != [] {
      VisitOne(s, users[0]);
      VisitOnly(s, CollectNext(users[0]));
      var s1 := Next(s, CollectNext(users[0]));
      VisitOnly(s1, CollectDown);
      RunCons(s, CollectNext(users[0]), [CollectDown] + Visits(users[1..]));
      RunCons(s1, CollectDown, Visits(users[1..]));
      VisitsRun(Next(s1, CollectDown), users[1..]);
    }
  }

  lemma {:induction false} VisitsConserve(s: State, run: seq<Event>, uid: int, dir: Dir)
    requires Wf(s) && forall i :: 0 <= i < |run| ==> IsVisit(run[i])
    ensures InMemory(Run(s, run), uid, dir) == InMemory(s, uid, dir)
    decreases run
  {
    hide Wf, InMemory, ReportEvent;
    if run != [] {
      NextWf(s, run[0]);
      CollectEventBytes(s, run[0], uid, dir);
      VisitsConserve(Next(s, run[0]), run[1..], uid, dir);
    }
  }

  // The steps of one report up to its push.
  function Collection(users: seq<string>): seq<Event> {
    ([BeginReport] + Visits(users)) + [CollectDone]
  }

  lemma OnlyTransitive(s: State, t: State, u: State)
    requires OnlyCollected(s, t) && OnlyCollected(t, u)
    ensures OnlyCollected(s, u)
  {
  }

  lemma CollectionRanges(s: State, users: seq<string>)
    requires Wf(s) && s.rep.phase.Resting? && s.live.index.Keys <= (set u | u in users)
    ensures var t := Run(s, [BeginReport] + Visits(users));
      t.rep.phase.Ranging? && OnlyCollected(s, t) && s.live.index.Keys <= t.rep.phase.done
  {
    hide Wf, Run, Visits;
    RunCons(s, BeginReport, Visits(users));
    var begun := s.(rep := s.rep.(phase := Ranging({}, [])));
    assert begun == Next(s, BeginReport);
    VisitsRun(begun, users);
    OnlyTransitive(s, begun, Run(begun, Visits(users)));
  }

  lemma CollectDoneOnly(t: State)
    requires Wf(t) && t.rep.phase.Ranging?
    ensures var end := Next(t, CollectDone);
      && end == t.(rep := t.rep.(phase := end.rep.phase)) && OnlyCollected(t, end)
      && (end.rep.phase.Pushing? || end.rep.phase.Resting?)
      && (forall uid :: uid in Pushed(end) <==> At(Pushed(end), uid, Up) + At(Pushed(end), uid, Down) > 0)
  {
  }

  lemma CollectDoneHolds(t: State, uid: int, dir: Dir)
    requires Wf(t) && t.rep.phase.Ranging?
    ensures var end := Next(t, CollectDone);
      && At(Pushed(end), uid, dir) == InReporter(end.rep, uid, dir)
      && InMemory(end, uid, dir) == InMemory(t, uid, dir)
  {
    hide Payload;
    PayloadAt(t.rep.pending, t.rep.phase.got, uid, dir);
    CollectEventBytes(t, CollectDone, uid, dir);
  }

  lemma CollectionConserves(s: State, users: seq<string>, uid: int, dir: Dir)
    requires Wf(s) && s.rep.phase.Resting?
    ensures InMemory(Run(s, [BeginReport] + Visits(users)), uid, dir) == InMemory(s, uid, dir)
  {
    hide Wf, Run, Visits, InLive;
    RunCons(s, BeginReport, Visits(users));
    VisitsDuring(users);
    VisitsConserve(s.(rep := s.rep.(phase := Ranging({}, []))), Visits(users), uid, dir);
  }

  lemma OnlyRecordsDiffer(s: State, t: State, uid: int, dir: Dir)
    requires OnlyCollected(s, t)
    ensures InLive(t.owner, t.live, uid, dir) - Recorded(t, uid, dir)
         == InLive(s.owner, s.live, uid, dir) - Recorded(s, uid, dir)
  {
  }

  lemma DeliveredExactly(s: State, users: seq<string>, uid: int, dir: Dir)
    requires Wf(s) && s.rep.phase.Resting? && s.live.index.Keys <= (set u | u in users)
    ensures var t := Run(s, [BeginReport] + Visits(users));
      var end := Next(t, CollectDone);
      && At(Pushed(end), uid, dir) == At(s.rep.pending, uid, dir) + Recorded(s, uid, dir)
      && Recorded(end, uid, dir) == 0
  {
    hide Wf, Run, Visits, InLive, Recorded, Next, OnlyCollected;
    var t := Run(s, [BeginReport] + Visits(users));
    var end := Next(t, CollectDone);
    CollectionRanges(s, users);
    CollectDoneOnly(t);
    VisitsDuring(users);
    ReportDelivers(s, Visits(users), uid, dir);
    CollectionConserves(s, users, uid, dir);
    CollectDoneHolds(t, uid, dir);
    OnlyTransitive(s, t, end);
    OnlyRecordsDiffer(s, end, uid, dir);
  }

  lemma EmptyRecord(t: State, r: nat)
    requires r < |t.live.records| && t.owner(t.live.records[r].user).Some?
    requires forall uid, dir :: Recorded(t, uid, dir) == 0
    ensures t.live.records[r].total == NONE
  {
    var uid := t.owner(t.live.records[r].user).value;
    assert Recorded(t, uid, Up) == 0 && Recorded(t, uid, Down) == 0;
    SumZero(t.live.records, RecordShare(t.owner, uid, Up), r);
    SumZero(t.live.records, RecordShare(t.owner, uid, Down), r);
  }

  // A report with no other event between its steps pushes exactly what was pending
  // and recorded, for every user and both directions. It leaves nothing in the
  // records it can report and everything in the others.
  lemma CollectionDelivers(s: State, users: seq<string>)
    requires Wf(s) && s.rep.phase.Resting? && s.live.index.Keys <= (set u | u in users)
    ensures var t := Run(s, Collection(users));
      && (t.rep.phase.Pushing? || t.rep.phase.Resting?) && OnlyCollected(s, t)
      && (forall uid, dir :: At(Pushed(t), uid, dir) == At(s.rep.pending, uid, dir) + Recorded(s, uid, dir))
      && (forall uid :: uid in Pushed(t) <==> At(Pushed(t), uid, Up) + At(Pushed(t), uid, Down) > 0)
      && (forall r :: 0 <= r < |s.live.records| && s.owner(s.live.records[r].user).Some? ==>
            t.live.records[r].total == NONE)
  {
    hide Wf, Run, Next, Visits, Recorded;
    var t := Run(s, [BeginReport] + Visits(users));
    CollectionRanges(s, users);
    RunAppend(s, [BeginReport] + Visits(users), [CollectDone]);
    RunOne(t, CollectDone);
    var end := Next(t, CollectDone);
    CollectDoneOnly(t);
    OnlyTransitive(s, t, end);
    forall uid, dir
      ensures At(Pushed(end), uid, dir) == At(s.rep.pending, uid, dir) + Recorded(s, uid, dir)
      ensures Recorded(end, uid, dir) == 0
    {
      DeliveredExactly(s, users, uid, dir);
    }
    forall r | 0 <= r < |s.live.records| && s.owner(s.live.records[r].user).Some?
      ensures end.live.records[r].total == NONE
    {
      EmptyRecord(end, r);
    }
  }

  // ---- How a report ends ----

  const ACKING: seq<Event> := [Push(true)] + ([ClearPending] + [Remove(true)])

  // An acknowledged push moves the payload to the books and leaves nothing behind.
  lemma AckingEnds(s: State)
    requires Wf(s) && s.rep.phase.Pushing?
    ensures var t := Run(s, ACKING);
      && t.live == s.live && t.owner == s.owner && t.books == s.books.(acked := t.books.acked)
      && t.rep == s.rep.(phase := Resting, pending := map[], file := None, stale := false)
      && (forall uid, dir :: t.books.acked(uid, dir) == s.books.acked(uid, dir) + At(s.rep.phase.data, uid, dir))
  {
    hide Wf, Run, At;
    RunCons(s, Push(true), [ClearPending] + [Remove(true)]);
    var s1 := PushOk(s);
    RunCons(s1, ClearPending, [Remove(true)]);
    RunOne(Next(s1, ClearPending), Remove(true));
  }

  lemma NothingToAck(s: State)
    requires Wf(s) && s.rep.phase.Resting?
    ensures Run(s, ACKING) == s
  {
    hide Wf, Run;
    RunCons(s, Push(true), [ClearPending] + [Remove(true)]);
    RunCons(s, ClearPending, [Remove(true)]);
    RunOne(s, Remove(true));
  }

  // A whole successful report: every byte pending or recorded is acknowledged, once,
  // in both directions, and nothing stays pending or on file.
  lemma ReportAcknowledges(s: State, users: seq<string>)
    requires Wf(s) && s.rep.phase.Resting? && s.live.index.Keys <= (set u | u in users)
    ensures var t := Run(s, Collection(users) + ACKING);
      && t.rep.phase.Resting? && t.live == Run(s, Collection(users)).live
      && (forall uid, dir :: t.books.acked(uid, dir)
                          == s.books.acked(uid, dir) + At(s.rep.pending, uid, dir) + Recorded(s, uid, dir))
      && (forall uid, dir :: At(t.rep.pending, uid, dir) == 0)
      && t.rep.file == if Run(s, Collection(users)).rep.phase.Pushing? then None else s.rep.file
  {
    hide Wf, Run, At, Recorded, Collection;
    CollectionDelivers(s, users);
    RunAppend(s, Collection(users), ACKING);
    var c := Run(s, Collection(users));
    if c.rep.phase.Pushing? {
      AckingEnds(c);
      NothingThere();
    } else {
      NothingToAck(c);
      forall uid, dir ensures At(s.rep.pending, uid, dir) + Recorded(s, uid, dir) == 0 {
        NothingThere();
        assert At(Pushed(c), uid, dir) == At(s.rep.pending, uid, dir) + Recorded(s, uid, dir);
      }
    }
  }

  lemma NothingThere()
    ensures forall uid, dir :: At(map[], uid, dir) == 0
  {
  }

  // ---- A push that fails and is persisted ----

  const PERSISTING: seq<Event> := [Push(false)] + ([Buffer] + ([WriteTmp(true)] + [Rename(true)]))

  // The payload becomes the pending bytes, cut to the limit, and so does the file.
  lemma PersistingEnds(s: State, data: Pending)
    requires Wf(s) && s.rep.phase == Pushing(data)
    ensures var t := Run(s, PERSISTING);
      && t.live == s.live && t.owner == s.owner
      && t.books.counted == s.books.counted && t.books.acked == s.books.acked
      && t.rep == Reporter(Resting, Trim(data, s.rep.max), s.rep.max, None, Some(Trim(data, s.rep.max)), false)
  {
    hide Wf, Run, Trim;
    RunCons(s, Push(false), [Buffer] + ([WriteTmp(true)] + [Rename(true)]));
    var s1 := s.(rep := s.rep.(phase := Rejected(data)));
    RunCons(s1, Buffer, [WriteTmp(true)] + [Rename(true)]);
    Persisted(Next(s1, Buffer));
  }

  lemma Persisted(s: State)
    requires Wf(s) && s.rep.phase == Buffered
    ensures Run(s, [WriteTmp(true)] + [Rename(true)])
         == s.(rep := Reporter(Resting, s.rep.pending, s.rep.max, None, Some(s.rep.pending), false))
  {
    hide Run;
    RunCons(s, WriteTmp(true), [Rename(true)]);
    RunOne(Next(s, WriteTmp(true)), Rename(true));
  }

  // A write, rename or removal that fails ends the report and leaves the file and the
  // pending bytes as they were.
  lemma FileStepFails(s: State, e: Event)
    requires Wf(s) && (e == WriteTmp(false) || e == Rename(false) || e == Remove(false))
    ensures Next(s, e) == s.(rep := s.rep.(phase := Next(s, e).rep.phase))
    ensures s.rep.phase.Buffered? && e.WriteTmp? ==> Next(s, e).rep.phase.Resting?
    ensures s.rep.phase.Written? && e.Rename? ==> Next(s, e).rep.phase.Resting?
    ensures s.rep.phase.Cleared? && e.Remove? ==> Next(s, e).rep.phase.Resting?
  {
  }

  // ---- Across a crash ----

  // A process starts with what the file holds, cut to the limit, or with nothing when
  // there is no file or it cannot be read.
  lemma RestartRestores(s: State, readable: bool, max: int)
    requires Wf(s)
    ensures var t := Boot(Die(s), readable, max);
      && t.rep == Reporter(Resting, if readable && s.rep.file.Some? then Trim(s.rep.file.value, max) else map[], max,
                           s.rep.tmp, s.rep.file, false)
      && t.live == NO_LIVE && t.owner == s.owner
      && t.books.acked == s.books.acked && t.books.counted == s.books.counted
  {
    hide Trim;
  }

  lemma TrimAgain(m: Pending, max: int)
    ensures Trim(Trim(m, max), max) == Trim(m, max)
  {
    if max > 0 {
      TrimSize(m, max);
      TrimSize(Trim(m, max), max);
    }
  }

  // A report whose push fails, a crash, and a report after the restart.
  function Survival(users: seq<string>, max: int): seq<Event> {
    (Collection(users) + PERSISTING) + Replay(max, Collection([]) + ACKING)
  }

  // What a failed report put on file is acknowledged after a crash, entry by entry.
  lemma PersistedIsDelivered(s: State, users: seq<string>, uid: int, dir: Dir)
    requires Wf(s) && s.rep.phase.Resting? && s.live.index.Keys <= (set u | u in users)
    requires At(s.rep.pending, uid, dir) + Recorded(s, uid, dir) > 0
    ensures var data := Pushed(Run(s, Collection(users)));
      var t := Run(s, Survival(users, s.rep.max));
      && (forall id, d :: At(data, id, d) == At(s.rep.pending, id, d) + Recorded(s, id, d))
      && (forall id, d :: t.books.acked(id, d) == s.books.acked(id, d) + At(Trim(data, s.rep.max), id, d))
  {
    hide Wf, Run, At, Collection, Trim, Boot, Die, Replay;
    var max, rest := s.rep.max, Collection([]) + ACKING;
    var c := Run(s, Collection(users));
    CollectionDelivers(s, users);
    SomethingPushed(c, uid, dir);
    var data := c.rep.phase.data;
    PersistingEnds(c, data);
    var p := Run(c, PERSISTING);
    RunAppend(s, Collection(users), PERSISTING);
    RunAppend(s, Collection(users) + PERSISTING, Replay(max, rest));
    RestartThen(p, max, rest);
    TrimAgain(data, max);
    RestartRestores(p, true, max);
    var b := Boot(Die(p), true, max);
    ReportAcknowledges(b, []);
  }

  lemma SomethingPushed(c: State, uid: int, dir: Dir)
    requires At(Pushed(c), uid, dir) > 0
    ensures c.rep.phase.Pushing?
  {
  }

}