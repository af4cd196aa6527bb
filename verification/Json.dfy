// The canonical form of a parsed JSON value that the configuration hash reads.

module Json {
  import opened Sorting
  import opened Strings
  import opened Encoding
  import Identity

  // The IEEE 754 bits of a number.
  type Bits = n: int | 0 <= n < Identity.TWO64

  // A value as encoding/json parses it. The members of an object have no order.
  datatype Json =
    | JNull
    | JBool(b: bool)
    | JNum(bits: Bits)
    | JStr(text: string)
    | JArr(items: seq<Json>)
    | JObj(members: map<string, Json>)

  // ---- The stream of a value ----

  ghost function Encode(v: Json): string
    decreases v, 1, 0
  {
    match v
    case JNull => "null"
    case JBool(b) => if b then "true" else "false"
    case JNum(bits) => Be64(bits)
    case JStr(text) => text + ['\0']
    case JArr(items) => "[" + EncodeItems(v, |items|) + "]"
    case JObj(members) =>
      LeTotalPreorder();
      OrderedOf(members.Keys, Le);
      "{" + EncodeMembers(v, Ordered(members.Keys, Le)) + "}"
  }

  // The first n items.
  ghost function EncodeItems(v: Json, n: nat): string
    requires v.JArr? && n <= |v.items|
    decreases v, 0, n
  {
    if n == 0 then "" else EncodeItems(v, n - 1) + (Encode(v.items[n - 1]) + ",")
  }

  // The members under these keys, in this order.
  ghost function EncodeMembers(v: Json, keys: seq<string>): string
    requires v.JObj? && forall i :: 0 <= i < |keys| ==> keys[i] in v.members
    decreases v, 0, |keys|
  {
    if keys == [] then "" else
    var n := |keys| - 1;
    EncodeMembers(v, keys[..n]) + (keys[n] + ['\0'] + ":" + Encode(v.members[keys[n]]) + ",")
  }

  // Sorted without repetition, a set of keys is one list.
  lemma SortedKeysUnique(a: seq<string>, b: seq<string>, keys: set<string>)
    requires IsOrdered(a, keys, Le) && IsOrdered(b, keys, Le)
    ensures a == b
  {
    LeTotalPreorder();
    SameElementsPermutation(a, b);
    forall x, y | x in a && y in a && Le(x, y) && Le(y, x) ensures x == y { LeAntisymmetric(x, y); }
    SortedUnique(a, b, Le);
  }

  // The recursive writer: keys come out of the object in any order and are sorted.
  method HashGenericValue(h: string, v: Json) returns (out: string)
    ensures out == h + Encode(v)
    decreases v, 1
  {
    match v
    case JNull => out := h + "null";
    case JBool(b) => if b { out := h + "true"; } else { out := h + "false"; }
    case JNum(bits) => out := h + Be64(bits);
    case JStr(text) =>
      out := h + text;
      out := out + ['\0'];
    case JArr(items) => out := HashArray(h, v);
    case JObj(members) => out := HashObject(h, v);
  }

  method HashArray(h: string, v: Json) returns (out: string)
    requires v.JArr?
    ensures out == h + Encode(v)
    decreases v, 0
  {
    hide Encode;
    var items := v.items;
    ArrayTextAll(v);
    out := h + "[";
    for i := 0 to |items|
      invariant out == h + "[" + EncodeItems(v, i)
    {
      out := HashGenericValue(out, items[i]);
      out := out + ",";
      assert out == h + "[" + (EncodeItems(v, i) + (Encode(items[i]) + ","));
    }
    out := out + "]";
  }

  lemma ArrayTextAll(v: Json)
    requires v.JArr?
    ensures Encode(v) == "[" + EncodeItems(v, |v.items|) + "]"
  {
  }

  lemma ObjectText(v: Json, keys: seq<string>)
    requires v.JObj? && keys == Ordered(v.members.Keys, Le)
    requires forall i :: 0 <= i < |keys| ==> keys[i] in v.members
    ensures Encode(v) == "{" + EncodeMembers(v, keys) + "}"
    ensures EncodeMembers(v, keys[..0]) == ""
  {
  }

  method HashObject(h: string, v: Json) returns (out: string)
    requires v.JObj?
    ensures out == h + Encode(v)
    decreases v, 0
  {
    hide Encode, EncodeMembers;
    var keys := KeysInOrder(v.members.Keys);
    ObjectText(v, keys);
    out := h + "{";
    for i := 0 to |keys|
      invariant out == h + "{" + EncodeMembers(v, keys[..i])
    {
      var k := keys[i];
      out := out + k;
      out := out + ['\0'];
      out := out + ":";
      out := HashGenericValue(out, v.members[k]);
      out := out + ",";
      MembersGrow(v, keys, i);
    }
    assert keys[..|keys|] == keys;
    out := out + "}";
  }

  lemma MembersGrow(v: Json, keys: seq<string>, i: nat)
    requires v.JObj? && i < |keys| && forall j :: 0 <= j < |keys| ==> keys[j] in v.members
    ensures EncodeMembers(v, keys[..i + 1])
         == EncodeMembers(v, keys[..i]) + (keys[i] + ['\0'] + ":" + Encode(v.members[keys[i]]) + ",")
  {
    hide Encode;
    assert keys[..i + 1][..i] == keys[..i];
  }

  // Collect the keys, whichever comes first, and sort them.
  method KeysInOrder(all: set<string>) returns (keys: seq<string>)
    ensures keys == Ordered(all, Le)
    ensures forall i :: 0 <= i < |keys| ==> keys[i] in all
  {
    keys := [];
    var todo := all;
    while todo != {}
      invariant Distinct(keys) && todo <= all
      invariant forall k :: k in all <==> k in todo || k in keys
      invariant forall k :: k in keys ==> k !in todo
      decreases todo
    {
      var k :| k in todo;
      keys := keys + [k];
      todo := todo - {k};
    }
    LeTotalPreorder();
    SortIsSortedPermutation(keys, Le);
    PermutationKeepsDistinct(keys, Sort(keys, Le));
    keys := Sort(keys, Le);
    OrderedOf(all, Le);
    SortedKeysUnique(keys, Ordered(all, Le), all);
  }

  // ---- Member order ----

  // An object text lists its members; of a repeated key the last one counts.
  function Parsed(list: seq<(string, Json)>): map<string, Json> {
    if list == [] then map[] else var n := |list| - 1; Parsed(list[..n])[list[n].0 := list[n].1]
  }

  ghost predicate KeysOnce(list: seq<(string, Json)>) {
    forall i, j :: 0 <= i < j < |list| ==> list[i].0 != list[j].0
  }

  lemma {:induction false} ParsedAt(list: seq<(string, Json)>, k: string, v: Json)
    requires KeysOnce(list)
    ensures k in Parsed(list) && Parsed(list)[k] == v <==> (k, v) in list
    ensures k in Parsed(list) <==> exists i :: 0 <= i < |list| && list[i].0 == k
  {
    if list != [] {
      var n := |list| - 1;
      ParsedAt(list[..n], k, v);
      assert list == list[..n] + [list[n]];
    }
  }

  // Two texts that list the same members in different order hash alike.
  lemma MemberOrderDoesNotMatter(a: seq<(string, Json)>, b: seq<(string, Json)>)
    requires KeysOnce(a) && multiset(a) == multiset(b)
    ensures Encode(JObj(Parsed(a))) == Encode(JObj(Parsed(b)))
  {
    KeysOncePermuted(a, b);
    var p, q := Parsed(a), Parsed(b);
    forall k | k in p ensures k in q && q[k] == p[k] {
      ParsedAt(a, k, p[k]);
      assert (k, p[k]) in multiset(b);
      ParsedAt(b, k, p[k]);
    }
    forall k | k in q ensures k in p {
      ParsedAt(b, k, q[k]);
      assert (k, q[k]) in multiset(a);
      ParsedAt(a, k, q[k]);
    }
    assert p == q;
  }

  lemma KeysOncePermuted(a: seq<(string, Json)>, b: seq<(string, Json)>)
    requires KeysOnce(a) && multiset(a) == multiset(b)
    ensures KeysOnce(b)
  {
    PermutationKeepsDistinct(a, b);
    forall i, j | 0 <= i < j < |b| ensures b[i].0 != b[j].0 {
      assert b[i] != b[j] && b[i] in a && b[j] in a;
    }
  }

  // ---- Unique decodability ----

  ghost predicate Plain(v: Json) {
    match v
    case JStr(text) => NulFree(text)
    case JArr(items) => forall i :: 0 <= i < |items| ==> Plain(items[i])
    case JObj(members) => forall k :: k in members ==> NulFree(k) && Plain(members[k])
    case _ => true
  }

  // The same type everywhere: arrays of one length, objects with as many members,
  // the same shape under every key both have.
  ghost predicate SameShape(v: Json, w: Json) {
    match v
    case JNull => w.JNull?
    case JBool(_) => w.JBool?
    case JNum(_) => w.JNum?
    case JStr(_) => w.JStr?
    case JArr(items) =>
      w.JArr? && |items| == |w.items| && forall i :: 0 <= i < |items| ==> SameShape(items[i], w.items[i])
    case JObj(members) =>
      w.JObj? && |members| == |w.members|
      && forall k :: k in members && k in w.members ==> SameShape(members[k], w.members[k])
  }

  // The items from i on.
  ghost function ItemsFrom(v: Json, i: nat): string
    requires v.JArr? && i <= |v.items|
    decreases |v.items| - i
  {
    if i == |v.items| then "" else Encode(v.items[i]) + "," + ItemsFrom(v, i + 1)
  }

  lemma {:induction false} ItemsSplit(v: Json, i: nat)
    requires v.JArr? && i <= |v.items|
    ensures EncodeItems(v, |v.items|) == EncodeItems(v, i) + ItemsFrom(v, i)
    decreases |v.items| - i
  {
    hide Encode;
    if i < |v.items| {
      ItemsSplit(v, i + 1);
    }
  }

  ghost function MembersFrom(v: Json, keys: seq<string>): string
    requires v.JObj? && forall i :: 0 <= i < |keys| ==> keys[i] in v.members
  {
    if keys == [] then ""
    else keys[0] + ['\0'] + (":" + Encode(v.members[keys[0]]) + "," + MembersFrom(v, keys[1..]))
  }

  lemma {:induction false} MembersAppend(v: Json, keys: seq<string>, k: string)
    requires v.JObj? && k in v.members && forall i :: 0 <= i < |keys| ==> keys[i] in v.members
    ensures MembersFrom(v, keys + [k]) == MembersFrom(v, keys) + (k + ['\0'] + ":" + Encode(v.members[k]) + ",")
  {
    hide Encode;
    if keys == [] {
      assert ([] + [k])[1..] == [];
    } else {
      MembersAppend(v, keys[1..], k);
      assert (keys + [k])[1..] == keys[1..] + [k];
    }
  }

  lemma {:induction false} MembersSame(v: Json, keys: seq<string>)
    requires v.JObj? && forall i :: 0 <= i < |keys| ==> keys[i] in v.members
    ensures MembersFrom(v, keys) == EncodeMembers(v, keys)
  {
    hide Encode;
    if keys != [] {
      var n := |keys| - 1;
      MembersSame(v, keys[..n]);
      MembersAppend(v, keys[..n], keys[n]);
      assert keys == keys[..n] + [keys[n]];
    }
  }

  // The stream of a value determines it among values of its shape, and shows
  // where it ends, whatever follows.
  lemma {:induction false} UniquelyDecodable(v: Json, w: Json, r: string, s: string)
    requires SameShape(v, w) && Plain(v) && Plain(w)
    requires Encode(v) + r == Encode(w) + s
    ensures v == w && r == s
    decreases v, 1, 0
  {
    match v
    case JNull => SplitAt("null", "null", r, s);
    case JBool(b) => BoolDecodable(b, w.b, r, s);
    case JNum(bits) =>
      NumDecodable(bits, w.bits, r, s);
    case JStr(text) => NulTerminated(text, w.text, r, s);
    case JArr(items) => ArrayDecodable(v, w, r, s);
    case JObj(members) => ObjectDecodable(v, w, r, s);
  }

  lemma BoolDecodable(b: bool, c: bool, r: string, s: string)
    requires (if b then "true" else "false") + r == (if c then "true" else "false") + s
    ensures b == c && r == s
  {
    var x := (if b then "true" else "false") + r;
    assert b <==> x[0] == 't';
    assert c <==> x[0] == 't';
    SplitAt(if b then "true" else "false", if c then "true" else "false", r, s);
  }

  lemma NumDecodable(m: Bits, n: Bits, r: string, s: string)
    requires Be64(m) + r == Be64(n) + s
    ensures m == n && r == s
  {
    hide Be;
    SplitAt(Be64(m), Be64(n), r, s);
    BitsInjective(m, n);
  }

  lemma BitsInjective(m: Bits, n: Bits)
    requires Be64(m) == Be64(n)
    ensures m == n
  {
    hide Be, FromBe, Pow256;
    Pow256Eight();
    FromBeOfBe(m, 8);
    FromBeOfBe(n, 8);
  }

  lemma {:induction false} ArrayDecodable(v: Json, w: Json, r: string, s: string)
    requires v.JArr? && w.JArr? && SameShape(v, w) && Plain(v) && Plain(w)
    requires Encode(v) + r == Encode(w) + s
    ensures v == w && r == s
    decreases v, 0, |v.items| + 1
  {
    ArrayText(v);
    ArrayText(w);
    Unwrap("[", ItemsFrom(v, 0), ItemsFrom(w, 0), "]", r, s);
    ItemsDecodable(v, w, 0, "]" + r, "]" + s);
    SplitAt("]", "]", r, s);
    assert v.items == w.items;
  }

  lemma ArrayText(v: Json)
    requires v.JArr?
    ensures Encode(v) == "[" + ItemsFrom(v, 0) + "]"
  {
    ItemsSplit(v, 0);
    assert "" + ItemsFrom(v, 0) == ItemsFrom(v, 0);
  }

  // Take the opening bracket off two bracketed texts.
  lemma Unwrap(open: string, a: string, b: string, close: string, r: string, s: string)
    requires open + a + close + r == open + b + close + s
    ensures a + (close + r) == b + (close + s)
  {
    assert open + a + close + r == open + (a + (close + r));
    assert open + b + close + s == open + (b + (close + s));
    SplitAt(open, open, a + (close + r), b + (close + s));
  }

  lemma {:induction false} ItemsDecodable(v: Json, w: Json, i: nat, r: string, s: string)
    requires v.JArr? && w.JArr? && SameShape(v, w) && Plain(v) && Plain(w) && i <= |v.items|
    requires ItemsFrom(v, i) + r == ItemsFrom(w, i) + s
    ensures r == s && forall j :: i <= j < |v.items| ==> v.items[j] == w.items[j]
    decreases v, 0, |v.items| - i
  {
    hide Encode;
    if i == |v.items| {
      assert "" + r == r && "" + s == s;
    } else {
      var rv, rw := ItemsFrom(v, i + 1) + r, ItemsFrom(w, i + 1) + s;
      assert ItemsFrom(v, i) + r == Encode(v.items[i]) + ("," + rv);
      assert ItemsFrom(w, i) + s == Encode(w.items[i]) + ("," + rw);
      UniquelyDecodable(v.items[i], w.items[i], "," + rv, "," + rw);
      SplitAt(",", ",", rv, rw);
      ItemsDecodable(v, w, i + 1, r, s);
    }
  }

  lemma {:induction false} ObjectDecodable(v: Json, w: Json, r: string, s: string)
    requires v.JObj? && w.JObj? && SameShape(v, w) && Plain(v) && Plain(w)
    requires Encode(v) + r == Encode(w) + s
    ensures v == w && r == s
    decreases v, 0, |v.members| + 1
  {
    hide IsOrdered;
    var ks := ObjectKeys(v);
    var ls := ObjectKeys(w);
    Unwrap("{", MembersFrom(v, ks), MembersFrom(w, ls), "}", r, s);
    MembersDecodable(v, w, ks, ls, "}" + r, "}" + s);
    SplitAt("}", "}", r, s);
    assert v.members.Keys == w.members.Keys;
    assert v.members == w.members;
  }

  lemma ObjectKeys(v: Json) returns (keys: seq<string>)
    requires v.JObj?
    ensures |keys| == |v.members| && forall k :: k in v.members <==> k in keys
    ensures Encode(v) == "{" + MembersFrom(v, keys) + "}"
  {
    LeTotalPreorder();
    OrderedOf(v.members.Keys, Le);
    keys := Ordered(v.members.Keys, Le);
    MembersSame(v, keys);
    assert |v.members.Keys| == |v.members|;
  }

  lemma {:induction false} MembersDecodable(v: Json, w: Json, ks: seq<string>, ls: seq<string>, r: string, s: string)
    requires v.JObj? && w.JObj? && SameShape(v, w) && Plain(v) && Plain(w)
    requires |ks| == |ls| <= |v.members|
    requires forall i :: 0 <= i < |ks| ==> ks[i] in v.members && ls[i] in w.members
    requires MembersFrom(v, ks) + r == MembersFrom(w, ls) + s
    ensures ks == ls && r == s && forall i :: 0 <= i < |ks| ==> v.members[ks[i]] == w.members[ls[i]]
    decreases v, 0, |ks|
  {
    hide Encode, NulFree;
    if ks == [] {
      assert "" + r == r && "" + s == s;
    } else {
      var k, l := ks[0], ls[0];
      var rv, rw := MembersFrom(v, ks[1..]) + r, MembersFrom(w, ls[1..]) + s;
      MembersHead(v, ks, r);
      MembersHead(w, ls, s);
      NulTerminated(k, l, ":" + (Encode(v.members[k]) + ("," + rv)), ":" + (Encode(w.members[l]) + ("," + rw)));
      SplitAt(":", ":", Encode(v.members[k]) + ("," + rv), Encode(w.members[l]) + ("," + rw));
      UniquelyDecodable(v.members[k], w.members[l], "," + rv, "," + rw);
      SplitAt(",", ",", rv, rw);
      MembersDecodable(v, w, ks[1..], ls[1..], r, s);
      assert ks == [ks[0]] + ks[1..] && ls == [ls[0]] + ls[1..];
    }
  }

  lemma MembersHead(v: Json, keys: seq<string>, r: string)
    requires v.JObj? && keys != [] && forall i :: 0 <= i < |keys| ==> keys[i] in v.members
    ensures MembersFrom(v, keys) + r
         == keys[0] + ['\0'] + (":" + (Encode(v.members[keys[0]]) + ("," + (MembersFrom(v, keys[1..]) + r))))
  {
    hide Encode;
  }

  // Shape matters: a text of seven bytes and a number share a stream.
  lemma TextAndNumberCollide()
    ensures Encode(JStr("abcdefg")) == Encode(JNum(0x6162636465666700))
  {
    var n := 0x6162636465666700;
    assert Be(n / 0x1_0000_0000, 4) == "abcd" by {
      assert Be(n / 0x100_0000_0000, 3) == "abc" by {
        assert Be(n / 0x1_0000_0000_0000, 2) == "ab";
      }
    }
    assert Be(n / 0x100, 7) == "abcdefg" by {
      assert Be(n / 0x1_0000, 6) == "abcdef" by {
        assert Be(n / 0x100_0000, 5) == "abcde";
      }
    }
  }
}
