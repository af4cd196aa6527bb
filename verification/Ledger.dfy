// The traffic path as a step machine: connection buffers, the shared traffic
// records, the collector, the reporter and its state file. One event is one
// atomic operation of the program; a run is any sequence of events, so every
// interleaving of any number of threads is a run. An event that is not enabled
// changes nothing.

module Ledger {
  import opened Options
  import opened TrafficSpec
  import Identity

  const THRESHOLD: nat := 1024 * 1024

  datatype Amount = Amount(up: nat, down: nat)

  const NONE := Amount(0, 0)

  function Get(a: Amount, dir: Dir): nat {
    if dir.Up? then a.up else a.down
  }

  function Put(a: Amount, dir: Dir, n: nat): Amount {
    if dir.Up? then a.(up := n) else a.(down := n)
  }

  function Only(dir: Dir, n: nat): Amount {
    Put(NONE, dir, n)
  }

  // swept: directions Close has swapped out; late: bytes moved after that.
  datatype Conn = Conn(user: string, buf: Amount, closing: bool, swept: set<Dir>, late: Amount)

  // A record of the shared map, with the name it was stored under.
  datatype Record = Record(user: string, total: Amount)

  // Where a connection thread stands, with the bytes it alone holds.
  datatype Thread =
    | Idle
    | Flush(conn: nat, dir: Dir)                     // buffer add reached the threshold
    | CloseUp(conn: nat)                             // first Close, nothing swapped yet
    | CloseDown(conn: nat, user: string, up: nat)    // upload swapped out
    | Load(user: string, amount: Amount)             // AddTraffic entered
    | Store(user: string, amount: Amount)            // Load found no record
    | AddUp(user: string, rec: nat, amount: Amount)  // record in hand
    | AddDown(user: string, rec: nat, down: nat)     // upload added

  datatype Live = Live(conns: seq<Conn>, threads: seq<Thread>, records: seq<Record>, index: map<string, nat>)

  // Where Report stands.
  datatype Phase =
    | Stopped                                        // no process
    | Resting
    | Ranging(done: set<string>, got: seq<UserTraffic>)
    | Halfway(done: set<string>, got: seq<UserTraffic>, uid: int, user: string, rec: nat, up: nat)
    | Pushing(data: Pending)                         // payload built, panel not answered
    | Acked                                          // panel accepted, pending not yet cleared
    | Cleared                                        // pending cleared, file not yet removed
    | Rejected(data: Pending)                        // push failed, not yet buffered
    | Buffered                                       // pending replaced and trimmed
    | Written                                        // temporary file written

  // stale: the file still holds bytes the panel has acknowledged.
  datatype Reporter = Reporter(phase: Phase, pending: Pending, max: int,
                               tmp: Option<Pending>, file: Option<Pending>, stale: bool)

  type Tally = (int, Dir) -> int

  datatype Books = Books(
    counted: Tally,    // bytes moved by connections
    acked: Tally,      // bytes in acknowledged pushes
    trimmed: Tally,    // bytes dropped by the pending limit
    lost: Tally,       // bytes in memory when the process died
    restored: Tally,   // bytes read back from the file
    debt: Tally)       // file entries at crashes that hit a stale file

  // Which user a connection's name is reported under.
  type Owner = string -> Option<int>

  datatype State = State(owner: Owner, live: Live, rep: Reporter, books: Books)

  datatype Event =
    | Spawn
    | Open(user: string)
    | IO(thread: nat, conn: nat, dir: Dir, n: nat)
    | Close(thread: nat, conn: nat)
    | Advance(thread: nat)
    | BeginReport
    | CollectNext(user: string)
    | CollectDown
    | CollectDone
    | Push(ok: bool)
    | ClearPending
    | Remove(ok: bool)
    | Buffer
    | WriteTmp(ok: bool)
    | Rename(ok: bool)
    | Crash
    | Restart(readable: bool, max: int)

  const NO_LIVE := Live([], [], [], map[])

  function Zero(): Tally { (u, d) => 0 }

  function Init(max: int): State {
    State((name: string) => Identity.ParseUserID(name), NO_LIVE, Reporter(Resting, map[], max, None, None, false),
          Books(Zero(), Zero(), Zero(), Zero(), Zero(), Zero()))
  }

  // ---- Connection threads ----

  ghost predicate ThreadOk(l: Live, t: Thread) {
    match t
    case Flush(c, dir) => c < |l.conns|
    case CloseUp(c) => c < |l.conns|
    case CloseDown(c, user, up) => c < |l.conns| && l.conns[c].user == user
    case AddUp(user, r, a) => r < |l.records| && l.records[r].user == user
    case AddDown(user, r, down) => r < |l.records| && l.records[r].user == user
    case _ => true
  }

  // A record is never orphaned: the map leads to every record, so a thread that
  // holds a record holds the one the map leads to.
  ghost predicate IndexBounded(l: Live) {
    forall user :: user in l.index ==> l.index[user] < |l.records|
  }

  ghost predicate IndexOk(l: Live) {
    && IndexBounded(l)
    && (forall user :: user in l.index ==> l.records[l.index[user]].user == user)
    && (forall r :: 0 <= r < |l.records| ==> l.records[r].user in l.index && l.index[l.records[r].user] == r)
  }

  ghost predicate LiveOk(l: Live) {
    IndexOk(l) && forall t :: 0 <= t < |l.threads| ==> ThreadOk(l, l.threads[t])
  }

  function SetThread(l: Live, t: nat, next: Thread): Live
    requires t < |l.threads|
  {
    l.(threads := l.threads[t := next])
  }

  function SetConn(l: Live, c: nat, conn: Conn): Live
    requires c < |l.conns|
  {
    l.(conns := l.conns[c := conn])
  }

  function SetTotal(l: Live, r: nat, dir: Dir, n: nat): Live
    requires r < |l.records|
  {
    l.(records := l.records[r := l.records[r].(total := Put(l.records[r].total, dir, n))])
  }

  function NewRecord(l: Live, user: string): Live {
    l.(records := l.records + [Record(user, NONE)], index := l.index[user := |l.records|])
  }

  function Move(l: Live, t: nat, c: nat, dir: Dir, n: nat): Live
    requires t < |l.threads| && c < |l.conns|
  {
    var conn := l.conns[c];
    var val := Get(conn.buf, dir) + n;
    var late := if dir in conn.swept then Put(conn.late, dir, Get(conn.late, dir) + n) else conn.late;
    SetThread(SetConn(l, c, conn.(buf := Put(conn.buf, dir, val), late := late)),
              t, if val >= THRESHOLD then Flush(c, dir) else Idle)
  }

  function StartClose(l: Live, t: nat, c: nat): Live
    requires t < |l.threads| && c < |l.conns|
  {
    if l.conns[c].closing then l
    else SetThread(SetConn(l, c, l.conns[c].(closing := true)), t, CloseUp(c))
  }

  function Empty(conn: Conn, dir: Dir): Conn {
    conn.(buf := Put(conn.buf, dir, 0))
  }

  function Sweep(conn: Conn, dir: Dir): Conn {
    Empty(conn, dir).(swept := conn.swept + {dir}, late := Put(conn.late, dir, 0))
  }

  // The next atomic operation of thread t.
  function StepThread(l: Live, t: nat): Live
    requires t < |l.threads| && ThreadOk(l, l.threads[t])
    requires IndexBounded(l)
  {
    match l.threads[t]
    case Idle => l
    case Flush(c, dir) =>
      var n := Get(l.conns[c].buf, dir);
      SetThread(SetConn(l, c, Empty(l.conns[c], dir)), t,
                if n > 0 then Load(l.conns[c].user, Only(dir, n)) else Idle)
    case CloseUp(c) =>
      SetThread(SetConn(l, c, Sweep(l.conns[c], Up)), t, CloseDown(c, l.conns[c].user, l.conns[c].buf.up))
    case CloseDown(c, user, up) =>
      var down := l.conns[c].buf.down;
      SetThread(SetConn(l, c, Sweep(l.conns[c], Down)), t,
                if up > 0 || down > 0 then Load(user, Amount(up, down)) else Idle)
    case Load(user, a) =>
      SetThread(l, t, if user in l.index then AddUp(user, l.index[user], a) else Store(user, a))
    case Store(user, a) =>
      if user in l.index then SetThread(l, t, AddUp(user, l.index[user], a))
      else SetThread(NewRecord(l, user), t, AddUp(user, |l.records|, a))
    case AddUp(user, r, a) =>
      SetThread(SetTotal(l, r, Up, l.records[r].total.up + a.up), t, AddDown(user, r, a.down))
    case AddDown(user, r, down) =>
      SetThread(SetTotal(l, r, Down, l.records[r].total.down + down), t, Idle)
  }

  // ---- Reporter ----

  ghost predicate PhaseOk(s: State) {
    match s.rep.phase
    case Stopped => s.rep.pending == map[]
    case Halfway(done, got, uid, user, rec, up) =>
      rec < |s.live.records| && s.live.records[rec].user == user && s.owner(user) == Some(uid)
    case Pushing(data) => Keyed(data)
    case Rejected(data) => Keyed(data)
    case Cleared => s.rep.pending == map[]
    case Written => s.rep.tmp == Some(s.rep.pending)
    case _ => true
  }

  ghost predicate FilesOk(rep: Reporter) {
    && Keyed(rep.pending)
    && (rep.tmp.Some? ==> Keyed(rep.tmp.value))
    && (rep.file.Some? ==> Keyed(rep.file.value))
    && (rep.stale ==> rep.file.Some?)
  }

  ghost predicate Wf(s: State) {
    LiveOk(s.live) && PhaseOk(s) && FilesOk(s.rep)
  }

  function TakeUp(s: State, user: string): State
    requires s.rep.phase.Ranging? && Wf(s) && user in s.live.index
  {
    var id := s.owner(user);
    var r := s.live.index[user];
    var done, got := s.rep.phase.done, s.rep.phase.got;
    if id.None? then s.(rep := s.rep.(phase := Ranging(done + {user}, got)))
    else s.(live := SetTotal(s.live, r, Up, 0),
            rep := s.rep.(phase := Halfway(done, got, id.value, user, r, s.live.records[r].total.up)))
  }

  function TakeDown(s: State): State
    requires s.rep.phase.Halfway? && Wf(s)
  {
    var h := s.rep.phase;
    var down := s.live.records[h.rec].total.down;
    var got := if h.up == 0 && down == 0 then h.got else h.got + [UserTraffic(h.uid, h.up, down)];
    s.(live := SetTotal(s.live, h.rec, Down, 0), rep := s.rep.(phase := Ranging(h.done + {h.user}, got)))
  }

  function FinishCollect(rep: Reporter): Reporter
    requires rep.phase.Ranging?
  {
    var data := Payload(rep.pending, rep.phase.got);
    rep.(phase := if data == map[] then Resting else Pushing(data))
  }

  function PushOk(s: State): State
    requires s.rep.phase.Pushing?
  {
    var data, tally := s.rep.phase.data, s.books.acked;
    s.(rep := s.rep.(phase := Acked, stale := s.rep.file.Some?),
       books := s.books.(acked := (u, d) => tally(u, d) + At(data, u, d)))
  }

  function BufferData(s: State, data: Pending, after: Phase): State {
    var kept, tally := Trim(data, s.rep.max), s.books.trimmed;
    s.(rep := s.rep.(phase := after, pending := kept),
       books := s.books.(trimmed := (u, d) => tally(u, d) + At(data, u, d) - At(kept, u, d)))
  }

  // ---- Crash and restart ----

  function FileShare(rep: Reporter, uid: int, dir: Dir): nat {
    if rep.file.Some? then At(rep.file.value, uid, dir) else 0
  }

  function Die(s: State): State {
    var lost, debt := s.books.lost, s.books.debt;
    s.(live := NO_LIVE,
       rep := s.rep.(phase := Stopped, pending := map[], stale := false),
       books := s.books.(lost := (u, d) => lost(u, d) + InMemory(s, u, d),
                         debt := (u, d) => debt(u, d) + if s.rep.stale then FileShare(s.rep, u, d) else 0))
  }

  function Boot(s: State, readable: bool, max: int): State {
    var back := s.books.restored;
    var s' := s.(rep := s.rep.(max := max, phase := Resting));
    if readable && s.rep.file.Some? then
      BufferData(s'.(books := s.books.(restored := (u, d) => back(u, d) + FileShare(s.rep, u, d))),
                 s.rep.file.value, Resting)
    else s'
  }

  function ConnEvent(s: State, e: Event): State
    requires Wf(s)
  {
    var l := s.live;
    match e
    case Spawn => s.(live := l.(threads := l.threads + [Idle]))
    case Open(user) =>
      if user == "" then s else s.(live := l.(conns := l.conns + [Conn(user, NONE, false, {}, NONE)]))
    case IO(t, c, dir, n) =>
      if t < |l.threads| && c < |l.conns| && l.threads[t].Idle? then
        var tally, user := s.books.counted, l.conns[c].user;
        var own := s.owner;
        s.(live := Move(l, t, c, dir, n),
           books := s.books.(counted := (u, d) => tally(u, d) + if own(user) == Some(u) && d == dir then n else 0))
      else s
    case Close(t, c) =>
      if t < |l.threads| && c < |l.conns| && l.threads[t].Idle? then s.(live := StartClose(l, t, c)) else s
    case Advance(t) => if t < |l.threads| then s.(live := StepThread(l, t)) else s
    case _ => s
  }

  function ReportEvent(s: State, e: Event): State
    requires Wf(s)
  {
    var rep := s.rep;
    match e
    case BeginReport => if rep.phase.Resting? then s.(rep := rep.(phase := Ranging({}, []))) else s
    case CollectNext(user) =>
      if rep.phase.Ranging? && user in s.live.index && user !in rep.phase.done then TakeUp(s, user) else s
    case CollectDown => if rep.phase.Halfway? then TakeDown(s) else s
    case CollectDone => if rep.phase.Ranging? then s.(rep := FinishCollect(rep)) else s
    case Push(ok) =>
      if !rep.phase.Pushing? then s
      else if ok then PushOk(s) else s.(rep := rep.(phase := Rejected(rep.phase.data)))
    case ClearPending => if rep.phase.Acked? then s.(rep := rep.(phase := Cleared, pending := map[])) else s
    case Remove(ok) =>
      if !rep.phase.Cleared? then s
      else if ok then s.(rep := rep.(phase := Resting, file := None, stale := false))
      else s.(rep := rep.(phase := Resting))
    case Buffer => if rep.phase.Rejected? then BufferData(s, rep.phase.data, Buffered) else s
    case WriteTmp(ok) =>
      if !rep.phase.Buffered? then s
      else if ok then s.(rep := rep.(phase := Written, tmp := Some(rep.pending)))
      else s.(rep := rep.(phase := Resting))
    case Rename(ok) =>
      if !rep.phase.Written? then s
      else if ok then s.(rep := rep.(phase := Resting, file := rep.tmp, tmp := None, stale := false))
      else s.(rep := rep.(phase := Resting))
    case Crash => Die(s)
    case Restart(readable, max) => if rep.phase.Stopped? then Boot(s, readable, max) else s
    case _ => s
  }

  predicate IsConnEvent(e: Event) {
    e.Spawn? || e.Open? || e.IO? || e.Close? || e.Advance?
  }

  function Next(s: State, e: Event): State
    requires Wf(s)
  {
    if IsConnEvent(e) then ConnEvent(s, e) else ReportEvent(s, e)
  }

  // ---- Where the bytes are ----

  function Sum<T>(s: seq<T>, f: T -> nat): nat {
    if s == [] then 0 else Sum(s[..|s| - 1], f) + f(s[|s| - 1])
  }

  function Share(own: Owner, user: string, uid: int, n: nat): nat {
    if own(user) == Some(uid) then n else 0
  }

  function ConnShare(own: Owner, uid: int, dir: Dir): Conn -> nat {
    (c: Conn) => Share(own, c.user, uid, Get(c.buf, dir))
  }

  function RecordShare(own: Owner, uid: int, dir: Dir): Record -> nat {
    (r: Record) => Share(own, r.user, uid, Get(r.total, dir))
  }

  function Held(own: Owner, t: Thread, uid: int, dir: Dir): nat {
    match t
    case CloseDown(c, user, up) => Share(own, user, uid, Get(Amount(up, 0), dir))
    case Load(user, a) => Share(own, user, uid, Get(a, dir))
    case Store(user, a) => Share(own, user, uid, Get(a, dir))
    case AddUp(user, r, a) => Share(own, user, uid, Get(a, dir))
    case AddDown(user, r, down) => Share(own, user, uid, Get(Amount(0, down), dir))
    case _ => 0
  }

  function ThreadShare(own: Owner, uid: int, dir: Dir): Thread -> nat {
    (t: Thread) => Held(own, t, uid, dir)
  }

  // Bytes in connection buffers, in threads' hands and in the shared records.
  function InLive(own: Owner, l: Live, uid: int, dir: Dir): nat {
    Sum(l.conns, ConnShare(own, uid, dir)) + Sum(l.threads, ThreadShare(own, uid, dir))
    + Sum(l.records, RecordShare(own, uid, dir))
  }

  // Bytes the reporter holds: collected so far, in the payload, or pending.
  function InReporter(rep: Reporter, uid: int, dir: Dir): nat {
    match rep.phase
    case Ranging(done, got) => At(rep.pending, uid, dir) + Total(got, uid, dir)
    case Halfway(done, got, id, user, rec, up) =>
      At(rep.pending, uid, dir) + Total(got, uid, dir) + if id == uid && dir.Up? then up else 0
    case Pushing(data) => At(data, uid, dir)
    case Rejected(data) => At(data, uid, dir)
    case Acked => 0
    case _ => At(rep.pending, uid, dir)
  }

  function InMemory(s: State, uid: int, dir: Dir): nat {
    InLive(s.owner, s.live, uid, dir) + InReporter(s.rep, uid, dir)
  }
}
