// Reads, writes and closes of a connection that nobody interrupts: what the program's
// atomic operations add up to, one call at a time.

module ConnCalls {
  import opened TrafficSpec
  import opened Ledger
  import opened LedgerWf
  import opened LedgerTheorems

  lemma ConnOk(l: Live, c: nat, conn: Conn, t: nat, next: Thread)
    requires LiveOk(l) && c < |l.conns| && t < |l.threads| && conn.user == l.conns[c].user && ThreadOk(l, next)
    ensures var l' := SetThread(SetConn(l, c, conn), t, next);
      LiveOk(l') && Totals(l') == Totals(l) && l'.index == l.index
  {
    var l' := SetThread(SetConn(l, c, conn), t, next);
    IndexKept(l, l');
    assert ThreadOk(l', l'.threads[t]);
    ThreadsStayOk(l, l', t);
  }

  // Swapping out a buffer with bytes, then AddTraffic.
  lemma FlushAlone(l: Live, t: nat, c: nat, dir: Dir) returns (trace: seq<Live>)
    requires LiveOk(l) && t < |l.threads| && l.threads[t] == Flush(c, dir)
    requires c < |l.conns| && Get(l.conns[c].buf, dir) > 0
    ensures |trace| > 0 && trace[0] == l && Uninterrupted(trace, t)
    ensures var (end, conn) := (trace[|trace| - 1], l.conns[c]);
      && end.threads == l.threads[t := Idle] && end.conns == l.conns[c := Empty(conn, dir)]
      && Totals(end) == Credit(Totals(l), conn.user, Only(dir, Get(conn.buf, dir)))
  {
    hide LiveOk, Totals, Uninterrupted, Credit;
    var conn := l.conns[c];
    var a := Only(dir, Get(conn.buf, dir));
    ThreadsInPlace(l, t);
    ConnOk(l, c, Empty(conn, dir), t, Load(conn.user, a));
    var l1 := StepThread(l, t);
    var rest := AddTrafficAlone(l1, t, conn.user, a);
    Prepend(l, t, rest);
    trace := [l] + rest;
  }

  lemma ThreadsInPlace(l: Live, t: nat)
    requires LiveOk(l) && t < |l.threads|
    ensures ThreadOk(l, l.threads[t]) && IndexBounded(l)
  {
  }

  // A read or write of n bytes that nobody interrupts. Below the threshold the bytes
  // stay in the buffer; at the threshold the whole buffer is credited to the user and
  // left empty. The other direction and the other connections keep theirs.
  lemma MoveAlone(l: Live, t: nat, c: nat, dir: Dir, n: nat) returns (trace: seq<Live>)
    requires LiveOk(l) && t < |l.threads| && l.threads[t].Idle? && c < |l.conns|
    ensures |trace| > 0 && trace[0] == Move(l, t, c, dir, n) && Uninterrupted(trace, t)
    ensures var (end, conn, val) := (trace[|trace| - 1], l.conns[c], Get(l.conns[c].buf, dir) + n);
      && end.threads == l.threads && |end.conns| == |l.conns|
      && end.conns == l.conns[c := end.conns[c]]
      && end.conns[c].buf == Put(conn.buf, dir, if val < THRESHOLD then val else 0)
      && Totals(end) == if val < THRESHOLD then Totals(l) else Credit(Totals(l), conn.user, Only(dir, val))
  {
    hide LiveOk, Totals, Uninterrupted, Credit;
    var conn, val := l.conns[c], Get(l.conns[c].buf, dir) + n;
    var l1 := Move(l, t, c, dir, n);
    ConnOk(l, c, l1.conns[c], t, l1.threads[t]);
    if val < THRESHOLD {
      Alone(l1, t);
      trace := [l1];
    } else {
      trace := FlushAlone(l1, t, c, dir);
    }
  }

  // A first Close that nobody interrupts credits what both buffers held, empties
  // them and marks the connection closed; any later Close does nothing.
  lemma CloseAlone(l: Live, t: nat, c: nat) returns (trace: seq<Live>)
    requires LiveOk(l) && t < |l.threads| && l.threads[t].Idle? && c < |l.conns|
    ensures |trace| > 0 && trace[0] == StartClose(l, t, c) && Uninterrupted(trace, t)
    ensures var (end, conn) := (trace[|trace| - 1], l.conns[c]);
      && end.threads == l.threads && |end.conns| == |l.conns|
      && end.conns == l.conns[c := end.conns[c]] && end.conns[c].closing
      && (conn.closing ==> end == l)
      && (!conn.closing ==>
            && end.conns[c].buf == NONE
            && Totals(end) == if conn.buf == NONE then Totals(l) else Credit(Totals(l), conn.user, conn.buf))
  {
    hide LiveOk, Totals, Uninterrupted, Credit;
    var conn := l.conns[c];
    if conn.closing {
      Alone(l, t);
      trace := [l];
    } else {
      ConnOk(l, c, conn.(closing := true), t, CloseUp(c));
      trace := SettleAlone(StartClose(l, t, c), t, c);
      assert l.threads[t := CloseUp(c)][t := Idle] == l.threads;
    }
  }

  lemma SettleAlone(l: Live, t: nat, c: nat) returns (trace: seq<Live>)
    requires LiveOk(l) && t < |l.threads| && l.threads[t] == CloseUp(c) && c < |l.conns|
    ensures |trace| > 0 && trace[0] == l && Uninterrupted(trace, t)
    ensures var (end, conn) := (trace[|trace| - 1], l.conns[c]);
      && end.threads == l.threads[t := Idle] && |end.conns| == |l.conns|
      && end.conns == l.conns[c := end.conns[c]] && end.conns[c].closing == conn.closing
      && end.conns[c].buf == NONE
      && Totals(end) == if conn.buf == NONE then Totals(l) else Credit(Totals(l), conn.user, conn.buf)
  {
    hide LiveOk, Totals, Uninterrupted, Credit;
    var conn := l.conns[c];
    ThreadsInPlace(l, t);
    var l1 := StepThread(l, t);
    ConnOk(l, c, Sweep(conn, Up), t, CloseDown(c, conn.user, conn.buf.up));
    ThreadsInPlace(l1, t);
    var l2 := StepThread(l1, t);
    ConnOk(l1, c, l2.conns[c], t, l2.threads[t]);
    var rest;
    if conn.buf == NONE {
      Alone(l2, t);
      rest := [l2];
    } else {
      rest := AddTrafficAlone(l2, t, conn.user, conn.buf);
    }
    Prepend(l1, t, rest);
    Prepend(l, t, [l1] + rest);
    trace := [l] + ([l1] + rest);
  }
}
