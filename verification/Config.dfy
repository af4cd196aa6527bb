// Translation of the panel's node configuration into sing-box options.

module Config {
  import opened Options
  import opened Strings
  import opened Panel
  import opened ShortIDs
  import Identity

  datatype NodeConfig = NodeConfig(protocol: string, listenIP: string, serverPort: int, network: string, tls: int,
                                   flow: string, tlsSettings: TLSSettings, pushInterval: int, pullInterval: int,
                                   routes: string)

  datatype VLESSUser = VLESSUser(name: string, uuid: string, flow: string)

  // The fields that vary; the rest of the options is constant.
  datatype SingBox<A, R> = SingBox(logLevel: string, listen: A, listenPort: nat, users: seq<VLESSUser>,
                                   serverName: string, destPort: nat, privateKey: string, shortIDs: seq<string>,
                                   routes: R, clashAPI: Option<string>, googleIPv6: bool)

  datatype BuildError =
    | NilConfig
    | UnsupportedProtocol(text: string)
    | UnsupportedNetwork(text: string)
    | MissingServerName
    | MissingPrivateKey
    | InvalidDestPort(text: string)
    | DestPortOutOfRange(port: int)
    | InvalidListenIP(text: string)
    | InvalidRoutes

  datatype Result<+T> = Ok(value: T) | Err(error: BuildError)

  // Library parsers: addresses, and routes merged with the defaults.
  datatype Parsers<!A, !R> = Parsers(address: string -> Option<A>, unspecified: A, routes: string -> Option<R>)

  // What stays the same over a process: log level and environment switches.
  datatype Settings = Settings(logLevel: string, clashAPI: string, googleIPv6: bool)

  const DEFAULT_FLOW := "xtls-rprx-vision"
  const DEFAULT_DEST_PORT: nat := 443

  function LowerChar(c: char): char {
    if 'A' <= c <= 'Z' then (c as int + 32) as char else c
  }

  function Lower(s: string): (r: string)
    ensures |r| == |s|
  {
    if s == "" then "" else [LowerChar(s[0])] + Lower(s[1..])
  }

  function DestPort(raw: string): Result<nat> {
    if TrimSpace(raw) == "" then Ok(DEFAULT_DEST_PORT)
    else
      var port := Identity.Atoi(raw);
      if port.None? then Err(InvalidDestPort(raw))
      else if port.value < 1 || port.value > 65535 then Err(DestPortOutOfRange(port.value))
      else Ok(port.value)
  }

  function ListenAddr<A, R>(p: Parsers<A, R>, raw: string): Result<A> {
    if TrimSpace(raw) == "" then Ok(p.unspecified)
    else
      var addr := p.address(TrimSpace(raw));
      if addr.None? then Err(InvalidListenIP(raw)) else Ok(addr.value)
  }

  function Flow(c: NodeConfig): string {
    if TrimSpace(c.flow) == "" then DEFAULT_FLOW else TrimSpace(c.flow)
  }

  function VLESSUserOf(u: User, flow: string): VLESSUser {
    VLESSUser(Identity.LimiterUserName(u.id), u.uuid, flow)
  }

  function VLESSUsers(users: seq<User>, flow: string): (r: seq<VLESSUser>)
    ensures |r| == |users|
    ensures forall i :: 0 <= i < |users| ==> r[i] == VLESSUserOf(users[i], flow)
  {
    if users == [] then [] else [VLESSUserOf(users[0], flow)] + VLESSUsers(users[1..], flow)
  }

  method BuildUsers(users: seq<User>, flow: string) returns (sbUsers: seq<VLESSUser>)
    ensures sbUsers == VLESSUsers(users, flow)
  {
    sbUsers := [];
    for i := 0 to |users|
      invariant |sbUsers| == i && forall j :: 0 <= j < i ==> sbUsers[j] == VLESSUserOf(users[j], flow)
    {
      var user := users[i];
      sbUsers := sbUsers + [VLESSUser("user-" + Identity.Itoa(user.id), user.uuid, flow)];
    }
  }

  // The first check that fails, in the order of the checks.
  function Reject(c: NodeConfig): Option<BuildError> {
    if TrimSpace(c.protocol) != "" && Lower(TrimSpace(c.protocol)) != "vless" then Some(UnsupportedProtocol(c.protocol))
    else if Lower(TrimSpace(c.network)) != "" && Lower(TrimSpace(c.network)) != "tcp" then
      Some(UnsupportedNetwork(c.network))
    else if TrimSpace(c.tlsSettings.serverName) == "" then Some(MissingServerName)
    else if TrimSpace(c.tlsSettings.privateKey) == "" then Some(MissingPrivateKey)
    else None
  }

  function BuildConfig<A, R>(p: Parsers<A, R>, site: Settings, config: Option<NodeConfig>,
                             users: seq<User>): Result<SingBox<A, R>> {
    if config.None? then Err(NilConfig)
    else
      var c := config.value;
      var bad := Reject(c);
      var port := DestPort(c.tlsSettings.serverPort);
      var listen := ListenAddr(p, c.listenIP);
      var routes := p.routes(c.routes);
      if bad.Some? then Err(bad.value)
      else if port.Err? then Err(port.error)
      else if listen.Err? then Err(listen.error)
      else if routes.None? then Err(InvalidRoutes)
      else Ok(SingBox(site.logLevel, listen.value, c.serverPort % 65536, VLESSUsers(users, Flow(c)),
                      c.tlsSettings.serverName, port.value, c.tlsSettings.privateKey, ShortIDList(c.tlsSettings),
                      routes.value, if TrimSpace(site.clashAPI) == "" then None else Some(TrimSpace(site.clashAPI)),
                      site.googleIPv6))
  }

  // ---- What a build accepts and produces ----

  // The port texts that are accepted: a blank one means 443; any other one is the
  // decimal text of a port, after any zeros and an optional plus sign.
  lemma PortTextsExact(raw: string, port: nat)
    ensures DestPort(raw) == Ok(port) <==>
      || (TrimSpace(raw) == "" && port == DEFAULT_DEST_PORT)
      || (1 <= port <= 65535 && exists z: nat ::
            var digits := Identity.Zeros(z) + Identity.Format(port, 10);
            raw == digits || raw == "+" + digits)
  {
    hide TrimSpace, Identity.Atoi;
    if 1 <= port <= 65535 {
      Identity.AtoiExact(raw, port);
      if Identity.Atoi(raw) == Some(port) {
        Identity.LastIsDigit(port);
        if TrimSpace(raw) == "" {
          BlankHasNoText(raw, |raw| - 1);
        }
      }
    }
  }

  lemma WrittenPortIsRead(port: nat)
    requires 1 <= port <= 65535
    ensures DestPort(Identity.Itoa(port)) == Ok(port)
  {
    hide TrimSpace;
    Identity.AtoiOfItoa(port);
    NumberIsNotBlank(port);
  }

  lemma NumberIsNotBlank(n: nat)
    ensures TrimSpace(Identity.Itoa(n)) != ""
  {
    hide TrimSpace;
    Identity.LastIsDigit(n);
    var s := Identity.Itoa(n);
    if TrimSpace(s) == "" {
      BlankHasNoText(s, |s| - 1);
    }
  }

  // A configuration is accepted exactly when every check passes.
  lemma BuildsIff<A, R>(p: Parsers<A, R>, site: Settings, config: Option<NodeConfig>, users: seq<User>)
    ensures BuildConfig(p, site, config, users).Ok? <==>
      && config.Some?
      && Lower(TrimSpace(config.value.protocol)) in {"", "vless"}
      && Lower(TrimSpace(config.value.network)) in {"", "tcp"}
      && TrimSpace(config.value.tlsSettings.serverName) != "" && TrimSpace(config.value.tlsSettings.privateKey) != ""
      && (exists port :: DestPort(config.value.tlsSettings.serverPort) == Ok(port))
      && (TrimSpace(config.value.listenIP) == "" || p.address(TrimSpace(config.value.listenIP)).Some?)
      && p.routes(config.value.routes).Some?
  {
    hide TrimSpace;
  }

  lemma {:induction false} LowerAt(s: string, i: nat)
    requires i < |s|
    ensures Lower(s)[i] == LowerChar(s[i])
  {
    if i > 0 {
      LowerAt(s[1..], i - 1);
    }
  }

  // A text reads as a lower-case word exactly when it is that word in any case.
  lemma LowerExact(s: string, word: string)
    requires forall i :: 0 <= i < |word| ==> 'a' <= word[i] <= 'z'
    ensures Lower(s) == word <==>
      |s| == |word| && forall i :: 0 <= i < |s| ==> s[i] == word[i] || s[i] as int == word[i] as int - 32
  {
    hide Lower;
    forall i | 0 <= i < |s| && |s| == |word|
      ensures Lower(s)[i] == word[i] <==> s[i] == word[i] || s[i] as int == word[i] as int - 32
    {
      LowerAt(s, i);
    }
  }

  // A rejected configuration is rejected for its first fault, and the error says which.
  lemma FirstFault<A, R>(p: Parsers<A, R>, site: Settings, c: NodeConfig, users: seq<User>)
    requires BuildConfig(p, site, Some(c), users).Err?
    ensures var (error, t) := (BuildConfig(p, site, Some(c), users).error, c.tlsSettings);
      var protocolOk := Lower(TrimSpace(c.protocol)) in {"", "vless"};
      var networkOk := protocolOk && Lower(TrimSpace(c.network)) in {"", "tcp"};
      var namesOk := networkOk && TrimSpace(t.serverName) != "" && TrimSpace(t.privateKey) != "";
      var port := Identity.Atoi(t.serverPort);
      var portOk := namesOk && (TrimSpace(t.serverPort) == "" || (port.Some? && 1 <= port.value <= 65535));
      var listenOk := portOk && (TrimSpace(c.listenIP) == "" || p.address(TrimSpace(c.listenIP)).Some?);
      error == (if !protocolOk then UnsupportedProtocol(c.protocol)
                else if !networkOk then UnsupportedNetwork(c.network)
                else if TrimSpace(t.serverName) == "" then MissingServerName
                else if !namesOk then MissingPrivateKey
                else if !portOk && port.None? then InvalidDestPort(t.serverPort)
                else if !portOk then DestPortOutOfRange(port.value)
                else if !listenOk then InvalidListenIP(c.listenIP)
                else InvalidRoutes)
  {
    hide TrimSpace, Identity.Atoi;
  }

  // An accepted configuration reaches the proxy field by field.
  lemma BuildCarries<A, R>(p: Parsers<A, R>, site: Settings, c: NodeConfig, users: seq<User>)
    requires BuildConfig(p, site, Some(c), users).Ok?
    ensures var (options, t) := (BuildConfig(p, site, Some(c), users).value, c.tlsSettings);
      && options.serverName == t.serverName && TrimSpace(options.serverName) != ""
      && options.privateKey == t.privateKey && TrimSpace(options.privateKey) != ""
      && DestPort(t.serverPort) == Ok(options.destPort) && 1 <= options.destPort <= 65535
      && (TrimSpace(c.listenIP) == "" ==> options.listen == p.unspecified)
      && (TrimSpace(c.listenIP) != "" ==> p.address(TrimSpace(c.listenIP)) == Some(options.listen))
      && (0 <= c.serverPort < 65536 ==> options.listenPort == c.serverPort)
      && (TrimSpace(c.flow) == "" ==> forall u :: u in options.users ==> u.flow == "xtls-rprx-vision")
      && (TrimSpace(c.flow) != "" ==> forall u :: u in options.users ==> u.flow == TrimSpace(c.flow))
      && (t.shortIDs != [] ==> options.shortIDs == t.shortIDs)
      && p.routes(c.routes) == Some(options.routes)
      && options.logLevel == site.logLevel && options.googleIPv6 == site.googleIPv6
      && (options.clashAPI.None? <==> TrimSpace(site.clashAPI) == "")
      && (options.clashAPI.Some? ==> options.clashAPI.value == TrimSpace(site.clashAPI))
  {
    hide TrimSpace, Identity.Atoi;
  }

  // The inbound users of a build are the panel's users in order; the name of each
  // leads the traffic counters back to its ID, and no two users share one.
  lemma UsersTraceBack<A, R>(p: Parsers<A, R>, site: Settings, config: Option<NodeConfig>, users: seq<User>,
                             i: nat, j: nat)
    requires BuildConfig(p, site, config, users).Ok? && i < |users| && j < |users| && Identity.IsInt64(users[i].id)
    ensures var options := BuildConfig(p, site, config, users).value;
      && |options.users| == |users| && options.users[i].uuid == users[i].uuid
      && (Identity.ParseUserID(options.users[i].name) == if users[i].id > 0 then Some(users[i].id) else None)
      && (options.users[i].name == options.users[j].name <==> users[i].id == users[j].id)
  {
    hide TrimSpace, Reject, DestPort, Identity.ParseUserID, Identity.LimiterUserName;
    Identity.UserNameRoundTrip(users[i].id);
    Identity.UserNamesDistinct(users[i].id, users[j].id);
  }

  // ---- What two builds have in common ----

  // Equal up to the order of users and short IDs.
  ghost predicate SameOptions<A, R>(x: SingBox<A, R>, y: SingBox<A, R>) {
    && x == y.(users := x.users, shortIDs := x.shortIDs)
    && multiset(x.users) == multiset(y.users)
    && multiset(x.shortIDs) == multiset(y.shortIDs)
  }

  ghost predicate SameResult<A, R>(x: Result<SingBox<A, R>>, y: Result<SingBox<A, R>>) {
    if x.Ok? && y.Ok? then SameOptions(x.value, y.value) else x == y
  }
}
