// The connection limiter as a value: its indexes and what each operation does to
// them. The Limiter class updates the same state in place.

module LimiterSpec {
  import opened Options
  import opened Panel
  import opened Strings
  import opened Rates
  import Identity

  // The text of a valid address.
  type IP = s: string | s != "" witness "0.0.0.0"

  datatype ConnMeta = ConnMeta(connID: string, user: string, sourceIP: Option<IP>)

  datatype Decision = Allow | Deny(reason: string)

  // Limits; 0 or less switches a limit off.
  datatype Config = Config(maxConnPerUser: int, maxConnPerIP: int, maxNewConnPerUser: int, maxNewConnPerIP: int,
                           window: nat)

  type Conns = map<string, ConnMeta>

  datatype State = State(
    userByName: map<string, User>,
    oldUserOnline: map<string, set<string>>,
    remoteUserOnline: map<int, set<string>>,
    aliveList: map<int, int>,
    activeConnByUser: map<string, Conns>,
    activeConnByIP: map<string, Conns>,
    activeIPsCount: map<string, map<string, int>>,
    recentConnByUser: Index,
    recentConnByIP: Index)

  const EMPTY := State(map[], map[], map[], map[], map[], map[], map[], map[], map[])

  function Name(meta: ConnMeta): string {
    TrimSpace(meta.user)
  }

  // A missing connection map and an empty one mean the same.
  function ConnsOf(index: map<string, Conns>, key: string): Conns {
    if key in index then index[key] else map[]
  }

  function EnsureConnMap(index: map<string, Conns>, key: string): map<string, Conns> {
    index[key := ConnsOf(index, key)]
  }

  function SetOf<K>(m: map<K, set<string>>, key: K): set<string> {
    if key in m then m[key] else {}
  }

  function IPsIn(counts: map<string, map<string, int>>, userName: string): set<string> {
    if userName in counts then counts[userName].Keys else {}
  }

  // The addresses a user is connected from.
  function LiveIPs(s: State, userName: string): set<string> {
    IPsIn(s.activeIPsCount, userName)
  }

  function Max(a: int, b: int): int {
    if b > a then b else a
  }

  // How many devices count against the limit: the largest of the three views and
  // the panel's own count.
  function DeviceCount(s: State, userName: string, userID: int): int {
    var live := |LiveIPs(s, userName)|;
    var remote := |SetOf(s.remoteUserOnline, userID)|;
    var alive := if userID in s.aliveList then s.aliveList[userID] else 0;
    Max(Max(Max(live, remote), alive), |SetOf(s.oldUserOnline, userName)|)
  }

  function KnownIP(s: State, userName: string, userID: int, ip: string): bool {
    ip in LiveIPs(s, userName) || ip in SetOf(s.oldUserOnline, userName) || ip in SetOf(s.remoteUserOnline, userID)
  }

  function UserRate(s: State, cfg: Config, userName: string, now: Time): (State, bool) {
    if cfg.maxNewConnPerUser <= 0 then (s, true)
    else
      var r := CheckCPS(s.recentConnByUser, userName, cfg.maxNewConnPerUser, cfg.window, now);
      (s.(recentConnByUser := r.0), r.1)
  }

  function IPRate(s: State, cfg: Config, ip: Option<IP>, now: Time): (State, bool) {
    if ip.None? || cfg.maxNewConnPerIP <= 0 then (s, true)
    else
      var r := CheckCPS(s.recentConnByIP, ip.value, cfg.maxNewConnPerIP, cfg.window, now);
      (s.(recentConnByIP := r.0), r.1)
  }

  function Touch(s: State, cfg: Config, userName: string): State {
    if cfg.maxConnPerUser > 0 then s.(activeConnByUser := EnsureConnMap(s.activeConnByUser, userName)) else s
  }

  function TouchIP(s: State, cfg: Config, ip: Option<IP>): State {
    if ip.Some? && cfg.maxConnPerIP > 0 then s.(activeConnByIP := EnsureConnMap(s.activeConnByIP, ip.value)) else s
  }

  predicate UserFull(s: State, cfg: Config, userName: string) {
    cfg.maxConnPerUser > 0 && |ConnsOf(s.activeConnByUser, userName)| >= cfg.maxConnPerUser
  }

  predicate IPFull(s: State, cfg: Config, ip: Option<IP>) {
    ip.Some? && cfg.maxConnPerIP > 0 && |ConnsOf(s.activeConnByIP, ip.value)| >= cfg.maxConnPerIP
  }

  predicate DevicesFull(s: State, user: User, userName: string, ip: Option<IP>) {
    user.deviceLimit > 0 && ip.Some? && !KnownIP(s, userName, user.id, ip.value)
    && DeviceCount(s, userName, user.id) >= user.deviceLimit
  }

  function RateCheck(s: State, cfg: Config, userName: string, ip: Option<IP>, now: Time): (State, Decision) {
    var (s1, userOk) := UserRate(s, cfg, userName, now);
    if !userOk then (s1, Deny("new connections per user limit exceeded"))
    else
      var (s2, ipOk) := IPRate(s1, cfg, ip, now);
      (s2, if ipOk then Allow else Deny("new connections per ip limit exceeded"))
  }

  function SlotCheck(s: State, cfg: Config, userName: string, ip: Option<IP>): (State, Decision) {
    var s1 := Touch(s, cfg, userName);
    if UserFull(s, cfg, userName) then (s1, Deny("active connections per user limit exceeded"))
    else (TouchIP(s1, cfg, ip), if IPFull(s, cfg, ip) then Deny("active connections per ip limit exceeded") else Allow)
  }

  // The second critical section of Check, with the user record the first one read.
  function Decide(s: State, cfg: Config, user: User, userName: string, ip: Option<IP>, now: Time): (State, Decision) {
    var (s1, rate) := RateCheck(s, cfg, userName, ip, now);
    if rate.Deny? then (s1, rate)
    else
      var (s2, slot) := SlotCheck(s1, cfg, userName, ip);
      (s2, if slot.Deny? then slot
           else if DevicesFull(s, user, userName, ip) then Deny("device limit exceeded") else Allow)
  }

  // Check with nothing between its two critical sections.
  function Check(s: State, cfg: Config, meta: ConnMeta, now: Time): (State, Decision) {
    var userName := Name(meta);
    if userName == "" then (s, Deny("missing user"))
    else if userName !in s.userByName then (s, Deny("unknown user"))
    else Decide(s, cfg, s.userByName[userName], userName, meta.sourceIP, now)
  }

  function AddConn(index: map<string, Conns>, key: string, meta: ConnMeta): map<string, Conns> {
    index[key := ConnsOf(index, key)[meta.connID := meta]]
  }

  function DropConn(index: map<string, Conns>, key: string, meta: ConnMeta): map<string, Conns> {
    if key !in index then index
    else
      var rest := index[key] - {meta.connID};
      if rest == map[] then index - {key} else index[key := rest]
  }

  function CountUp(counts: map<string, map<string, int>>, userName: string, ip: string): map<string, map<string, int>> {
    var mine := if userName in counts then counts[userName] else map[];
    counts[userName := mine[ip := (if ip in mine then mine[ip] else 0) + 1]]
  }

  function CountDown(counts: map<string, map<string, int>>, userName: string,
                     ip: string): map<string, map<string, int>> {
    if userName !in counts then counts
    else
      var mine := counts[userName];
      var n := (if ip in mine then mine[ip] else 0) - 1;
      var rest := if n <= 0 then mine - {ip} else mine[ip := n];
      if rest == map[] then counts - {userName} else counts[userName := rest]
  }

  function Register(s: State, meta: ConnMeta): State {
    var userName := Name(meta);
    if userName == "" then s
    else
      var ip := meta.sourceIP;
      s.(activeConnByUser := AddConn(s.activeConnByUser, userName, meta),
         activeConnByIP := if ip.Some? then AddConn(s.activeConnByIP, ip.value, meta) else s.activeConnByIP,
         activeIPsCount := if ip.Some? then CountUp(s.activeIPsCount, userName, ip.value) else s.activeIPsCount)
  }

  function Unregister(s: State, meta: ConnMeta): State {
    var userName := Name(meta);
    var ip := meta.sourceIP;
    s.(activeConnByUser := if userName == "" then s.activeConnByUser else DropConn(s.activeConnByUser, userName, meta),
       activeConnByIP := if ip.Some? then DropConn(s.activeConnByIP, ip.value, meta) else s.activeConnByIP,
       activeIPsCount := if ip.Some? && userName != "" then CountDown(s.activeIPsCount, userName, ip.value)
                         else s.activeIPsCount)
  }

  // The user table of a list; a later record replaces an earlier one of that name.
  function UserTable(users: seq<User>): map<string, User> {
    if users == [] then map[]
    else
      var last := users[|users| - 1];
      UserTable(users[..|users| - 1])[Identity.LimiterUserName(last.id) := last]
  }

  function UpdateUsers(s: State, cfg: Config, users: seq<User>, now: Time): State {
    s.(userByName := UserTable(users),
       recentConnByIP := Sweep(s.recentConnByIP, cfg.window, now),
       recentConnByUser := Sweep(s.recentConnByUser, cfg.window, now))
  }

  // Trimmed, non-empty texts of a list.
  function StringSet(values: seq<string>): set<string> {
    set v | v in values && TrimSpace(v) != "" :: TrimSpace(v)
  }

  function UpdateAliveList(s: State, alive: map<int, seq<string>>): State {
    s.(aliveList := map uid | uid in alive :: |alive[uid]|,
       remoteUserOnline := map uid | uid in alive :: StringSet(alive[uid]))
  }

  // Users on record that are connected from some address. Only names with a
  // connection map are looked at.
  function Online(s: State): set<string> {
    set u | u in s.activeConnByUser && u in s.userByName && LiveIPs(s, u) != {}
  }

  function BuildAlive(s: State): State {
    s.(oldUserOnline := map u | u in Online(s) :: LiveIPs(s, u))
  }
}
