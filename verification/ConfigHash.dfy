// The hash of the node configuration, and why equal hashes make a reload needless.

module ConfigHash {
  import opened Options
  import opened Sorting
  import opened Strings
  import opened Panel
  import opened Encoding
  import opened ShortIDs
  import opened Config
  import Identity
  import J = Json

  // How the JSON library parses the routes text.
  type JsonParser = string -> Option<J.Json>

  // ---- Runs of delimited fields ----

  datatype Field = Text(text: string) | Num(num: int)

  function EncodeField(f: Field): string {
    match f
    case Text(text) => text + ['\0']
    case Num(num) => Be64(num)
  }

  function EncodeFields(fields: seq<Field>): string {
    if fields == [] then "" else EncodeField(fields[0]) + EncodeFields(fields[1..])
  }

  ghost predicate FieldOk(f: Field) {
    match f
    case Text(text) => NulFree(text)
    case Num(num) => Identity.IsInt64(num)
  }

  ghost predicate FieldsOk(fields: seq<Field>) {
    forall i :: 0 <= i < |fields| ==> FieldOk(fields[i])
  }

  ghost predicate SameKinds(a: seq<Field>, b: seq<Field>) {
    |a| == |b| && forall i :: 0 <= i < |a| ==> (a[i].Text? <==> b[i].Text?)
  }

  lemma FieldDecodable(f: Field, g: Field, r: string, s: string)
    requires FieldOk(f) && FieldOk(g) && (f.Text? <==> g.Text?) && EncodeField(f) + r == EncodeField(g) + s
    ensures f == g && r == s
  {
    hide Be64;
    if f.Text? {
      NulTerminated(f.text, g.text, r, s);
    } else {
      SplitAt(Be64(f.num), Be64(g.num), r, s);
      Be64Injective(f.num, g.num);
    }
  }

  lemma {:induction false} FieldsDecodable(a: seq<Field>, b: seq<Field>, r: string, s: string)
    requires FieldsOk(a) && FieldsOk(b) && SameKinds(a, b) && EncodeFields(a) + r == EncodeFields(b) + s
    ensures a == b && r == s
  {
    hide EncodeField, FieldOk;
    if a == [] {
      assert "" + r == r && "" + s == s;
    } else {
      assert EncodeFields(a) + r == EncodeField(a[0]) + (EncodeFields(a[1..]) + r);
      assert EncodeFields(b) + s == EncodeField(b[0]) + (EncodeFields(b[1..]) + s);
      FieldDecodable(a[0], b[0], EncodeFields(a[1..]) + r, EncodeFields(b[1..]) + s);
      FieldsDecodable(a[1..], b[1..], r, s);
      assert a == [a[0]] + a[1..] && b == [b[0]] + b[1..];
    }
  }

  lemma {:induction false} FieldsAppend(fields: seq<Field>, f: Field)
    ensures EncodeFields(fields + [f]) == EncodeFields(fields) + EncodeField(f)
  {
    hide EncodeField;
    if fields == [] {
      assert ([] + [f])[1..] == [];
    } else {
      assert (fields + [f])[1..] == fields[1..] + [f];
      FieldsAppend(fields[1..], f);
    }
  }

  // ---- The stream of a configuration ----

  function Header(c: NodeConfig): seq<Field> {
    var t := c.tlsSettings;
    [Text(c.protocol), Text(c.listenIP), Num(c.serverPort), Text(c.network), Num(c.tls), Text(c.flow),
     Num(if t.allowInsecure then 1 else 0),
     Text(t.serverPort), Text(t.serverName), Text(t.publicKey), Text(t.privateKey)]
  }

  function Concat(list: seq<string>): string {
    if list == [] then "" else Concat(list[..|list| - 1]) + list[|list| - 1]
  }

  // Sorted and written without separators; the raw field when there is no list.
  function ShortIDPart(t: TLSSettings): string {
    var list := ShortIDList(t);
    if list == [] then t.shortID else Concat(Sort(list, Le))
  }

  function Intervals(c: NodeConfig): string {
    Be64(c.pushInterval) + Be64(c.pullInterval)
  }

  ghost function RoutesPart(parse: JsonParser, routes: string): string {
    if routes == "" || routes == "null" then ""
    else
      var parsed := parse(routes);
      if parsed.Some? then J.Encode(parsed.value) else routes
  }

  ghost function Stream(parse: JsonParser, c: NodeConfig): string {
    EncodeFields(Header(c)) + (ShortIDPart(c.tlsSettings) + (Intervals(c) + RoutesPart(parse, c.routes)))
  }

  ghost function HashConfig(parse: JsonParser, config: Option<NodeConfig>): Hash {
    if config.None? then Word("nil") else Digest(Stream(parse, config.value))
  }

  ghost function ConfigHasher(parse: JsonParser): Option<NodeConfig> -> Hash {
    (config: Option<NodeConfig>) => HashConfig(parse, config)
  }

  // The hash object: bytes go in at the end.
  class HashWriter {
    var bytes: string
    ghost var fields: seq<Field>

    constructor ()
      ensures bytes == "" && fields == [] && bytes == EncodeFields(fields)
    {
      bytes, fields := "", [];
    }

    method WriteText(text: string)
      requires bytes == EncodeFields(fields)
      modifies this
      ensures fields == old(fields) + [Text(text)] && bytes == EncodeFields(fields)
    {
      FieldsAppend(fields, Text(text));
      fields := fields + [Text(text)];
      var before := bytes;
      bytes := bytes + text;
      bytes := bytes + ['\0'];
      assert bytes == before + (text + ['\0']);
    }

    method WriteNum(num: int)
      requires bytes == EncodeFields(fields)
      modifies this
      ensures fields == old(fields) + [Num(num)] && bytes == EncodeFields(fields)
    {
      FieldsAppend(fields, Num(num));
      fields := fields + [Num(num)];
      var buf := Be64(num);
      bytes := bytes + buf;
    }

    method Write(raw: string)
      modifies this
      ensures bytes == old(bytes) + raw
    {
      bytes := bytes + raw;
    }
  }

  method HashConfigByWriter(parse: JsonParser, config: Option<NodeConfig>) returns (hash: Hash)
    ensures hash == HashConfig(parse, config)
  {
    hide EncodeFields, Header, ShortIDPart, RoutesPart;
    if config.None? {
      return Word("nil");
    }
    var c := config.value;
    var h := WriteHeader(c);
    WriteShortIDs(h, c.tlsSettings);
    h.Write(Be64(c.pushInterval));
    h.Write(Be64(c.pullInterval));
    WriteRoutes(h, parse, c.routes);
    assert h.bytes == EncodeFields(Header(c)) + ShortIDPart(c.tlsSettings) + Be64(c.pushInterval) + Be64(c.pullInterval)
                    + RoutesPart(parse, c.routes);
    return Digest(h.bytes);
  }

  method WriteHeader(c: NodeConfig) returns (h: HashWriter)
    ensures fresh(h) && h.bytes == EncodeFields(Header(c))
  {
    hide EncodeFields;
    var t := c.tlsSettings;
    h := new HashWriter();
    h.WriteText(c.protocol);
    h.WriteText(c.listenIP);
    h.WriteNum(c.serverPort);
    h.WriteText(c.network);
    h.WriteNum(c.tls);
    h.WriteText(c.flow);
    assert h.fields == Header(c)[..6];
    h.WriteNum(if t.allowInsecure then 1 else 0);
    h.WriteText(t.serverPort);
    h.WriteText(t.serverName);
    h.WriteText(t.publicKey);
    h.WriteText(t.privateKey);
    assert h.fields == Header(c);
  }

  method WriteShortIDs(h: HashWriter, t: TLSSettings)
    modifies h
    ensures h.bytes == old(h.bytes) + ShortIDPart(t)
  {
    hide Sort, ShortIDList, Concat;
    var list := ShortIDList(t);
    if |list| > 0 {
      var sorted := Sort(list, Le);
      ConcatNone(sorted);
      for i := 0 to |sorted|
        invariant h.bytes == old(h.bytes) + Concat(sorted[..i])
      {
        h.Write(sorted[i]);
        ConcatGrows(sorted, i);
      }
      assert sorted[..|sorted|] == sorted;
    } else {
      h.Write(t.shortID);
    }
  }

  lemma ConcatNone(list: seq<string>)
    ensures Concat(list[..0]) == ""
  {
  }

  lemma ConcatGrows(list: seq<string>, i: nat)
    requires i < |list|
    ensures Concat(list[..i + 1]) == Concat(list[..i]) + list[i]
  {
    assert list[..i + 1][..i] == list[..i];
  }

  method WriteRoutes(h: HashWriter, parse: JsonParser, routes: string)
    modifies h
    ensures h.bytes == old(h.bytes) + RoutesPart(parse, routes)
  {
    if |routes| > 0 && routes != "null" {
      var parsed := parse(routes);
      if parsed.Some? {
        h.bytes := J.HashGenericValue(h.bytes, parsed.value);
      } else {
        h.Write(routes);
      }
    }
  }

  lemma SortKeepsSize(list: seq<string>)
    ensures |Sort(list, Le)| == |list| && multiset(Sort(list, Le)) == multiset(list) && Sorted(Sort(list, Le), Le)
  {
    LeTotalPreorder();
    SortIsSortedPermutation(list, Le);
  }

  // ---- Equal hashes ----

  // Header texts without NUL, integers of the machine's width.
  ghost predicate HeaderOk(c: NodeConfig) {
    FieldsOk(Header(c)) && Identity.IsInt64(c.pushInterval) && Identity.IsInt64(c.pullInterval)
  }

  // All short IDs have this length.
  ghost predicate OneLength(list: seq<string>, n: nat) {
    forall i :: 0 <= i < |list| ==> |list[i]| == n
  }

  ghost predicate ConfigOk(c: NodeConfig, n: nat) {
    HeaderOk(c) && AllClean(c.tlsSettings.shortIDs) && OneLength(ShortIDList(c.tlsSettings), n)
  }

  lemma {:induction false} ConcatDecodable(a: seq<string>, b: seq<string>, n: nat)
    requires n > 0 && OneLength(a, n) && OneLength(b, n) && Concat(a) == Concat(b)
    ensures a == b
  {
    ConcatSize(a, n);
    ConcatSize(b, n);
    if a == [] || b == [] {
    } else {
      var i, j := |a| - 1, |b| - 1;
      ConcatSize(a[..i], n);
      ConcatSize(b[..j], n);
      assert i * n + n == j * n + n;
      assert |Concat(a[..i])| == |Concat(b[..j])|;
      SplitAt(Concat(a[..i]), Concat(b[..j]), a[i], b[j]);
      ConcatDecodable(a[..i], b[..j], n);
      assert a == a[..i] + [a[i]] && b == b[..j] + [b[j]];
    }
  }

  lemma {:induction false} ConcatSize(a: seq<string>, n: nat)
    requires OneLength(a, n)
    ensures |Concat(a)| == |a| * n
  {
    if a != [] {
      var k := |a| - 1;
      ConcatSize(a[..k], n);
      assert k * n + n == (k + 1) * n;
    }
  }

  lemma {:induction false} ConcatStartsWith(a: seq<string>)
    requires a != [] && a[0] != ""
    ensures Concat(a) != "" && Concat(a)[0] == a[0][0]
  {
    if |a| == 1 {
      assert a[..0] == [];
      assert Concat(a) == "" + a[0];
    } else {
      ConcatStartsWith(a[..|a| - 1]);
    }
  }

  // The short-ID text tells the list up to order, once all IDs have one length.
  lemma ShortIDsDecodable(t: TLSSettings, u: TLSSettings, n: nat)
    requires AllClean(t.shortIDs) && AllClean(u.shortIDs)
    requires OneLength(ShortIDList(t), n) && OneLength(ShortIDList(u), n)
    requires ShortIDPart(t) == ShortIDPart(u)
    ensures multiset(ShortIDList(t)) == multiset(ShortIDList(u))
  {
    var a, b := ShortIDList(t), ShortIDList(u);
    ListClean(t);
    ListClean(u);
    if a == [] && b == [] {
    } else if a == [] {
      BlankIsNotAList(t.shortID, b);
    } else if b == [] {
      BlankIsNotAList(u.shortID, a);
    } else {
      var sa, sb := Sort(a, Le), Sort(b, Le);
      SortKeepsSize(a);
      SortKeepsSize(b);
      KeepsLength(a, sa, n);
      KeepsLength(b, sb, n);
      ConcatDecodable(sa, sb, n);
    }
  }

  lemma ListClean(t: TLSSettings)
    requires AllClean(t.shortIDs)
    ensures AllClean(ShortIDList(t))
    ensures ShortIDList(t) == [] ==> TrimSpace(t.shortID) == ""
  {
    hide TrimSpace;
  }

  lemma KeepsLength(a: seq<string>, b: seq<string>, n: nat)
    requires OneLength(a, n) && multiset(a) == multiset(b)
    ensures OneLength(b, n)
  {
    forall i | 0 <= i < |b| ensures |b[i]| == n {
      assert b[i] in multiset(a);
    }
  }

  lemma BlankIsNotAList(blank: string, list: seq<string>)
    requires TrimSpace(blank) == "" && list != [] && AllClean(list)
    ensures blank != Concat(Sort(list, Le))
  {
    hide TrimSpace, Sort;
    var s := Sort(list, Le);
    SortKeepsSize(list);
    assert s[0] in multiset(list);
    ConcatStartsWith(s);
    if blank == Concat(s) {
      BlankHasNoText(blank, 0);
    }
  }

  // Streams whose short-ID parts or whose routes parts are equally long agree part
  // by part.
  lemma EqualParts(parse: JsonParser, a: NodeConfig, b: NodeConfig)
    requires HeaderOk(a) && HeaderOk(b) && Stream(parse, a) == Stream(parse, b)
    requires |ShortIDPart(a.tlsSettings)| == |ShortIDPart(b.tlsSettings)|
          || |RoutesPart(parse, a.routes)| == |RoutesPart(parse, b.routes)|
    ensures Header(a) == Header(b) && ShortIDPart(a.tlsSettings) == ShortIDPart(b.tlsSettings)
    ensures a.pushInterval == b.pushInterval && a.pullInterval == b.pullInterval
    ensures RoutesPart(parse, a.routes) == RoutesPart(parse, b.routes)
  {
    hide ShortIDPart, Be64, RoutesPart, EncodeFields;
    var sa, sb := ShortIDPart(a.tlsSettings), ShortIDPart(b.tlsSettings);
    var ra := Intervals(a) + RoutesPart(parse, a.routes);
    var rb := Intervals(b) + RoutesPart(parse, b.routes);
    FieldsDecodable(Header(a), Header(b), sa + ra, sb + rb);
    assert |sa| == |sb|;
    SplitAt(sa, sb, ra, rb);
    SplitAt(Intervals(a), Intervals(b), RoutesPart(parse, a.routes), RoutesPart(parse, b.routes));
    SplitAt(Be64(a.pushInterval), Be64(b.pushInterval), Be64(a.pullInterval), Be64(b.pullInterval));
    Be64Injective(a.pushInterval, b.pushInterval);
    Be64Injective(a.pullInterval, b.pullInterval);
  }

  // A routes text the hash reads as JSON.
  predicate ReadAsJson(parse: JsonParser, routes: string) {
    routes != "" && routes != "null" && parse(routes).Some?
  }

  // Equally many short IDs, and no other text in their place.
  ghost predicate SameShortSize(t: TLSSettings, u: TLSSettings) {
    |ShortIDList(t)| == |ShortIDList(u)| && (ShortIDList(t) == [] ==> t.shortID == u.shortID == "")
  }

  // Routes whose hashed bytes can be compared: the same text; texts of the same
  // value; or plain values of one shape beside equally many short IDs.
  ghost predicate RoutesComparable(parse: JsonParser, a: NodeConfig, b: NodeConfig) {
    || a.routes == b.routes
    || (ReadAsJson(parse, a.routes) && ReadAsJson(parse, b.routes)
        && var (v, w) := (parse(a.routes).value, parse(b.routes).value);
           v == w || (J.Plain(v) && J.Plain(w) && J.SameShape(v, w) && SameShortSize(a.tlsSettings, b.tlsSettings)))
  }

  lemma SameShortBytes(t: TLSSettings, u: TLSSettings, n: nat)
    requires OneLength(ShortIDList(t), n) && OneLength(ShortIDList(u), n) && SameShortSize(t, u)
    ensures |ShortIDPart(t)| == |ShortIDPart(u)|
  {
    hide Sort, ShortIDList;
    var a, b := ShortIDList(t), ShortIDList(u);
    if a != [] {
      SortKeepsSize(a);
      SortKeepsSize(b);
      KeepsLength(a, Sort(a, Le), n);
      KeepsLength(b, Sort(b, Le), n);
      ConcatSize(Sort(a, Le), n);
      ConcatSize(Sort(b, Le), n);
    }
  }

  // Equal hashes of two configurations with comparable routes mean the same header,
  // the same intervals, the same short IDs up to order, and the same routes: one
  // text, or two texts of one JSON value.
  lemma EqualConfigHashes(parse: JsonParser, a: NodeConfig, b: NodeConfig, n: nat)
    requires ConfigOk(a, n) && ConfigOk(b, n) && RoutesComparable(parse, a, b)
    requires Stream(parse, a) == Stream(parse, b)
    ensures Header(a) == Header(b)
    ensures a.pushInterval == b.pushInterval && a.pullInterval == b.pullInterval
    ensures ShortIDPart(a.tlsSettings) == ShortIDPart(b.tlsSettings)
    ensures multiset(ShortIDList(a.tlsSettings)) == multiset(ShortIDList(b.tlsSettings))
    ensures a.routes == b.routes || (parse(a.routes).Some? && parse(a.routes) == parse(b.routes))
  {
    hide ShortIDPart, Stream, SameShortSize, J.Encode, J.Plain, J.SameShape;
    if a.routes != b.routes && parse(a.routes) != parse(b.routes) {
      SameShortBytes(a.tlsSettings, b.tlsSettings, n);
      EqualParts(parse, a, b);
      J.UniquelyDecodable(parse(a.routes).value, parse(b.routes).value, "", "");
    } else {
      EqualParts(parse, a, b);
    }
    ShortIDsDecodable(a.tlsSettings, b.tlsSettings, n);
  }

  // ---- Equal content ----

  ghost predicate SameShortIDs(t: TLSSettings, u: TLSSettings) {
    && multiset(ShortIDList(t)) == multiset(ShortIDList(u))
    && (ShortIDList(t) == [] ==> t.shortID == u.shortID)
  }

  ghost predicate SameRoutes(parse: JsonParser, x: string, y: string) {
    || x == y
    || (ReadAsJson(parse, x) && ReadAsJson(parse, y) && parse(x) == parse(y))
  }

  // What the hash covers is the same: short IDs in any order, routes in any writing.
  ghost predicate SameContent(parse: JsonParser, a: NodeConfig, b: NodeConfig) {
    && Header(a) == Header(b) && a.pushInterval == b.pushInterval && a.pullInterval == b.pullInterval
    && SameShortIDs(a.tlsSettings, b.tlsSettings) && SameRoutes(parse, a.routes, b.routes)
  }

  lemma SortedTextsUnique(a: seq<string>, b: seq<string>)
    requires multiset(a) == multiset(b)
    ensures Sort(a, Le) == Sort(b, Le)
  {
    hide Sort;
    SortKeepsSize(a);
    SortKeepsSize(b);
    LeTotalPreorder();
    var s := Sort(a, Le);
    forall x, y | x in s && y in s && Le(x, y) && Le(y, x) ensures x == y { LeAntisymmetric(x, y); }
    SortedUnique(s, Sort(b, Le), Le);
  }

  lemma SameShortIDsSamePart(t: TLSSettings, u: TLSSettings)
    requires SameShortIDs(t, u)
    ensures ShortIDPart(t) == ShortIDPart(u)
  {
    hide Sort, ShortIDList;
    var a, b := ShortIDList(t), ShortIDList(u);
    assert |multiset(a)| == |a| && |multiset(b)| == |b|;
    SortedTextsUnique(a, b);
  }

  // The same content has the same hash, whatever its texts are: the order of the
  // short IDs and the writing of the routes do not matter.
  lemma SameContentSameHash(parse: JsonParser, a: NodeConfig, b: NodeConfig)
    requires SameContent(parse, a, b)
    ensures HashConfig(parse, Some(a)) == HashConfig(parse, Some(b))
  {
    hide ShortIDPart, Header, EncodeFields, SameShortIDs, J.Encode;
    SameShortIDsSamePart(a.tlsSettings, b.tlsSettings);
  }

  // For comparable configurations the hash changes exactly with the content.
  lemma ConfigHashExact(parse: JsonParser, a: NodeConfig, b: NodeConfig, n: nat)
    requires ConfigOk(a, n) && ConfigOk(b, n) && RoutesComparable(parse, a, b)
    ensures HashConfig(parse, Some(a)) == HashConfig(parse, Some(b)) <==> SameContent(parse, a, b)
  {
    hide ConfigOk, Header, Stream, ShortIDPart, SameShortIDs;
    if SameContent(parse, a, b) {
      SameContentSameHash(parse, a, b);
    }
    if HashConfig(parse, Some(a)) == HashConfig(parse, Some(b)) {
      EqualConfigHashes(parse, a, b, n);
      SamePartSameShortIDs(a.tlsSettings, b.tlsSettings);
    }
  }

  lemma SamePartSameShortIDs(t: TLSSettings, u: TLSSettings)
    requires multiset(ShortIDList(t)) == multiset(ShortIDList(u)) && ShortIDPart(t) == ShortIDPart(u)
    ensures SameShortIDs(t, u)
  {
    hide Sort, ShortIDList, Concat;
    var a, b := ShortIDList(t), ShortIDList(u);
    assert |multiset(a)| == |a| && |multiset(b)| == |b|;
  }

  // Without one length, two different lists share a stream.
  lemma ShortIDsCollide(parse: JsonParser, c: NodeConfig)
    ensures var x := c.(tlsSettings := c.tlsSettings.(shortIDs := ["ab", "c"]));
      var y := c.(tlsSettings := c.tlsSettings.(shortIDs := ["a", "bc"]));
      && HashConfig(parse, Some(x)) == HashConfig(parse, Some(y))
      && multiset(ShortIDList(x.tlsSettings)) != multiset(ShortIDList(y.tlsSettings))
  {
    var p, q := ["ab", "c"], ["a", "bc"];
    assert Le("ab", "c") && Le("a", "bc");
    SortTwoTexts("ab", "c");
    SortTwoTexts("a", "bc");
    ConcatTwo("ab", "c");
    ConcatTwo("a", "bc");
    assert "ab" + "c" == "a" + "bc";
    assert "ab" in multiset(p) && "ab" !in multiset(q);
  }

  lemma SortTwoTexts(a: string, b: string)
    requires Le(a, b)
    ensures Sort([a, b], Le) == [a, b]
  {
    assert [a, b][1..] == [b] && [b][1..] == [];
    assert Sort([b], Le) == [b];
  }

  lemma ConcatTwo(a: string, b: string)
    ensures Concat([a, b]) == a + b
  {
    assert [a, b][..1] == [a] && [a][..0] == [];
    assert Concat([a]) == "" + a;
  }

  // ---- Skipping the reload is sound ----

  lemma SameUserOptions(a: seq<User>, b: seq<User>, flow: string)
    requires multiset(HashedAll(a)) == multiset(HashedAll(b))
    ensures multiset(VLESSUsers(a, flow)) == multiset(VLESSUsers(b, flow))
  {
    VLESSOfHashed(a, flow);
    VLESSOfHashed(b, flow);
    MapPermutation(FromHashed(flow), HashedAll(a), HashedAll(b));
  }

  function FromHashed(flow: string): Hashed -> VLESSUser {
    (h: Hashed) => VLESSUser(Identity.LimiterUserName(h.id), h.uuid, flow)
  }

  // The options of a user depend on what the hash covers only.
  lemma VLESSOfHashed(users: seq<User>, flow: string)
    ensures VLESSUsers(users, flow) == Map(FromHashed(flow), HashedAll(users))
  {
  }

  ghost predicate UsersOk(users: seq<User>) {
    forall h :: h in HashedAll(users) ==> UserOk(h)
  }

  // The routes parser goes by the JSON value, not by how it is written.
  ghost predicate RoutesByValue<A, R>(p: Parsers<A, R>, parse: JsonParser) {
    forall x, y :: parse(x).Some? && parse(x) == parse(y) ==> p.routes(x) == p.routes(y)
  }

  // When neither hash changed, the new state builds the same error or the same
  // options, up to the order of users and short IDs, also when the routes were
  // written again with their members in another order.
  lemma SkipIsSound<A, R>(p: Parsers<A, R>, parse: JsonParser, site: Settings, a: NodeConfig, b: NodeConfig,
                          au: seq<User>, bu: seq<User>, n: nat)
    requires HashUsers(au) == HashUsers(bu) && UsersOk(au) && UsersOk(bu)
    requires HashConfig(parse, Some(a)) == HashConfig(parse, Some(b))
    requires ConfigOk(a, n) && ConfigOk(b, n)
    requires RoutesComparable(parse, a, b) && (a.routes == b.routes || RoutesByValue(p, parse))
    ensures SameResult(BuildConfig(p, site, Some(a), au), BuildConfig(p, site, Some(b), bu))
  {
    hide Stream, HashUsers, ConfigOk, HashedAll, UserOk, Header, ShortIDList, RoutesComparable, SameResult, BuildConfig;
    HashIsOfSorted(au);
    HashIsOfSorted(bu);
    EqualUserHashes(au, Sort(au, ById), bu, Sort(bu, ById));
    EqualConfigHashes(parse, a, b, n);
    assert p.routes(a.routes) == p.routes(b.routes);
    SameUserOptions(au, bu, Flow(a));
    SameBuild(p, site, a, b, au, bu);
  }

  // What decides a build: the header, the routes, the user options, the short IDs.
  lemma SameBuild<A, R>(p: Parsers<A, R>, site: Settings, a: NodeConfig, b: NodeConfig, au: seq<User>, bu: seq<User>)
    requires Header(a) == Header(b) && p.routes(a.routes) == p.routes(b.routes)
    requires multiset(VLESSUsers(au, Flow(a))) == multiset(VLESSUsers(bu, Flow(a)))
    requires multiset(ShortIDList(a.tlsSettings)) == multiset(ShortIDList(b.tlsSettings))
    ensures SameResult(BuildConfig(p, site, Some(a), au), BuildConfig(p, site, Some(b), bu))
  {
    hide Reject, DestPort, ListenAddr, Flow, VLESSUsers, ShortIDList, TrimSpace, Header;
    HeaderDecides(a, b);
    SameChecks(a, b);
  }

  lemma SameChecks(a: NodeConfig, b: NodeConfig)
    requires Header(a) == Header(b)
    ensures Reject(a) == Reject(b) && Flow(a) == Flow(b)
  {
    hide TrimSpace, Lower, Header;
    HeaderDecides(a, b);
  }

  lemma HeaderDecides(a: NodeConfig, b: NodeConfig)
    requires Header(a) == Header(b)
    ensures a.protocol == b.protocol && a.listenIP == b.listenIP && a.serverPort == b.serverPort
    ensures a.network == b.network && a.flow == b.flow && a.tls == b.tls
    ensures var s, t := a.tlsSettings, b.tlsSettings;
      && s.serverPort == t.serverPort && s.serverName == t.serverName
      && s.publicKey == t.publicKey && s.privateKey == t.privateKey && s.allowInsecure == t.allowInsecure
  {
  }
}
