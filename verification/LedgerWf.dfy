// Every event keeps the step machine well-formed, so runs are defined.

module LedgerWf {
  import opened TrafficSpec
  import opened Ledger

  // Nothing a thread may point at has gone away or changed its user.
  ghost predicate Extends(l: Live, l': Live) {
    && |l.conns| <= |l'.conns|
    && (forall c :: 0 <= c < |l.conns| ==> l'.conns[c].user == l.conns[c].user)
    && |l.records| <= |l'.records|
    && (forall r :: 0 <= r < |l.records| ==> l'.records[r].user == l.records[r].user)
  }

  lemma ThreadsStayOk(l: Live, l': Live, t: nat)
    requires LiveOk(l) && Extends(l, l') && t < |l.threads| == |l'.threads|
    requires l'.threads == l.threads[t := l'.threads[t]] && ThreadOk(l', l'.threads[t])
    ensures forall i :: 0 <= i < |l'.threads| ==> ThreadOk(l', l'.threads[i])
  {
  }

  lemma IndexKept(l: Live, l': Live)
    requires IndexOk(l) && l'.index == l.index && |l'.records| == |l.records| && Extends(l, l')
    ensures IndexOk(l')
  {
  }

  lemma NewRecordIndex(l: Live, user: string)
    requires IndexOk(l) && user !in l.index
    ensures IndexOk(NewRecord(l, user)) && Extends(l, NewRecord(l, user))
  {
  }

  lemma StepThreadOk(l: Live, t: nat)
    requires LiveOk(l) && t < |l.threads|
    ensures LiveOk(StepThread(l, t)) && Extends(l, StepThread(l, t))
  {
    var l' := StepThread(l, t);
    assert ThreadOk(l, l.threads[t]);
    if l.threads[t].Store? && l.threads[t].user !in l.index {
      NewRecordIndex(l, l.threads[t].user);
      IndexKept(NewRecord(l, l.threads[t].user), l');
    } else {
      IndexKept(l, l');
    }
    ThreadsStayOk(l, l', t);
  }

  lemma ConnEventOk(s: State, e: Event)
    requires Wf(s) && IsConnEvent(e)
    ensures LiveOk(ConnEvent(s, e).live) && Extends(s.live, ConnEvent(s, e).live)
  {
    var l, l' := s.live, ConnEvent(s, e).live;
    match e
    case Advance(t) => if t < |l.threads| { StepThreadOk(l, t); }
    case Spawn =>
      IndexKept(l, l');
      assert l'.threads == l.threads + [Idle];
      forall i | 0 <= i < |l'.threads| ensures ThreadOk(l', l'.threads[i]) {
        assert i < |l.threads| ==> ThreadOk(l, l.threads[i]);
      }
    case Open(user) =>
      IndexKept(l, l');
      forall i | 0 <= i < |l'.threads| ensures ThreadOk(l', l'.threads[i]) {
        assert ThreadOk(l, l.threads[i]);
      }
    case IO(t, c, dir, n) =>
      IndexKept(l, l');
      if l' != l { ThreadsStayOk(l, l', t); }
    case Close(t, c) =>
      IndexKept(l, l');
      if l' != l { ThreadsStayOk(l, l', t); }
  }

  lemma SetTotalOk(l: Live, r: nat, dir: Dir, n: nat)
    requires LiveOk(l) && r < |l.records|
    ensures LiveOk(SetTotal(l, r, dir, n)) && Extends(l, SetTotal(l, r, dir, n))
  {
  }

  lemma ReportEventOk(s: State, e: Event)
    requires Wf(s) && !IsConnEvent(e)
    ensures Wf(ReportEvent(s, e))
  {
    hide TakeUp, TakeDown, LiveOk;
    match e
    case CollectNext(user) =>
      if s.rep.phase.Ranging? && user in s.live.index && user !in s.rep.phase.done { TakeUpOk(s, user); }
    case CollectDown => if s.rep.phase.Halfway? { TakeDownOk(s); }
    case CollectDone => if s.rep.phase.Ranging? { PayloadAt(s.rep.pending, s.rep.phase.got, 0, Up); }
    case Crash => NothingOk();
    case _ =>
  }

  lemma NothingOk()
    ensures LiveOk(NO_LIVE)
  {
  }

  lemma TakeUpOk(s: State, user: string)
    requires s.rep.phase.Ranging? && Wf(s) && user in s.live.index
    ensures Wf(TakeUp(s, user))
  {
    SetTotalOk(s.live, s.live.index[user], Up, 0);
  }

  lemma TakeDownOk(s: State)
    requires s.rep.phase.Halfway? && Wf(s)
    ensures Wf(TakeDown(s))
  {
    SetTotalOk(s.live, s.rep.phase.rec, Down, 0);
  }

  lemma NextWf(s: State, e: Event)
    requires Wf(s)
    ensures Wf(Next(s, e)) && Next(s, e).owner == s.owner
  {
    if IsConnEvent(e) {
      ConnEventOk(s, e);
      var s' := ConnEvent(s, e);
      assert s'.rep == s.rep && s'.owner == s.owner;
    } else {
      ReportEventOk(s, e);
    }
  }

  function Run(s: State, run: seq<Event>): (s': State)
    requires Wf(s)
    ensures Wf(s') && s'.owner == s.owner
    decreases run
  {
    if run == [] then s else NextWf(s, run[0]); Run(Next(s, run[0]), run[1..])
  }
}
