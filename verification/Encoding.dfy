// The byte streams fed to SHA-256 for change detection. A digest is taken as
// injective on streams, so digests are compared as streams.

module Encoding {
  import opened Sorting
  import opened Panel
  import opened Strings
  import Identity

  // A hash value: a fixed word, or the digest of a byte stream. The words "empty"
  // and "nil" are shorter than any digest text.
  datatype Hash = Word(text: string) | Digest(stream: string)

  // ---- Fixed-width integers ----

  function Pow256(w: nat): nat {
    if w == 0 then 1 else 256 * Pow256(w - 1)
  }

  // The low w bytes of n, most significant first.
  function Be(n: nat, w: nat): (s: string)
    ensures |s| == w
  {
    if w == 0 then "" else Be(n / 256, w - 1) + [(n % 256) as char]
  }

  function FromBe(s: string): nat {
    if s == "" then 0 else FromBe(s[..|s| - 1]) * 256 + s[|s| - 1] as nat
  }

  lemma {:induction false} FromBeOfBe(n: nat, w: nat)
    requires n < Pow256(w)
    ensures FromBe(Be(n, w)) == n
  {
    if w > 0 {
      FromBeOfBe(n / 256, w - 1);
      assert Be(n, w)[..w - 1] == Be(n / 256, w - 1);
    }
  }

  // binary.BigEndian.PutUint64(buf, uint64(n)): two's complement for negative n.
  function Be64(n: int): (s: string)
    ensures |s| == 8
  {
    Be(n % Identity.TWO64, 8)
  }

  lemma Be64Injective(m: int, n: int)
    requires Identity.IsInt64(m) && Identity.IsInt64(n) && Be64(m) == Be64(n)
    ensures m == n
  {
    hide Pow256, FromBe, Be;
    Pow256Eight();
    FromBeOfBe(m % Identity.TWO64, 8);
    FromBeOfBe(n % Identity.TWO64, 8);
  }

  lemma Pow256Eight()
    ensures Pow256(8) == Identity.TWO64
  {
  }

  // ---- The user list ----

  // What the hash covers of a user. The device limit is not covered.
  datatype Hashed = Hashed(id: int, speedLimit: int, uuid: string)

  function HashedOf(u: User): Hashed {
    Hashed(u.id, u.speedLimit, u.uuid)
  }

  function HashedAll(users: seq<User>): (h: seq<Hashed>)
    ensures |h| == |users| && forall i :: 0 <= i < |users| ==> h[i] == HashedOf(users[i])
  {
    Map(HashedOf, users)
  }

  function EncodeUser(h: Hashed): string {
    Be64(h.id) + Be64(h.speedLimit) + (h.uuid + "|")
  }

  function EncodeUsers(s: seq<Hashed>): string {
    if s == [] then "" else EncodeUsers(s[..|s| - 1]) + EncodeUser(s[|s| - 1])
  }

  predicate ById(a: User, b: User) {
    a.id <= b.id
  }

  predicate HashedById(a: Hashed, b: Hashed) {
    a.id <= b.id
  }

  function HashSorted(sorted: seq<User>): Hash {
    if sorted == [] then Word("empty") else Digest(EncodeUsers(HashedAll(sorted)))
  }

  // sort.Slice by ID; the model fixes the order in which equal IDs come out.
  function HashUsers(users: seq<User>): Hash {
    if users == [] then Word("empty") else HashSorted(Sort(users, ById))
  }

  // The hash function's own loop: fixed-width fields through one reused buffer.
  method HashUsersByLoop(users: seq<User>) returns (hash: Hash)
    ensures hash == HashUsers(users)
  {
    if |users| == 0 {
      return Word("empty");
    }
    var sortedUsers := Sort(users, ById);
    ghost var all := HashedAll(sortedUsers);
    var h := "";
    for i := 0 to |sortedUsers|
      invariant h == EncodeUsers(all[..i])
    {
      var user := sortedUsers[i];
      var buf := Be64(user.id);
      var entry := buf;
      buf := Be64(user.speedLimit);
      entry := entry + buf;
      h := h + (entry + (user.uuid + "|"));
      assert all[..i + 1][..i] == all[..i];
    }
    assert all[..|all|] == all;
    return Digest(h);
  }

  ghost predicate UserOk(h: Hashed) {
    Identity.IsInt64(h.id) && Identity.IsInt64(h.speedLimit) && '|' !in h.uuid
  }

  function EncodeFront(s: seq<Hashed>): string {
    if s == [] then "" else EncodeUser(s[0]) + EncodeFront(s[1..])
  }

  lemma {:induction false} EncodeFrontAppend(s: seq<Hashed>, x: Hashed)
    ensures EncodeFront(s + [x]) == EncodeFront(s) + EncodeUser(x)
  {
    hide EncodeUser;
    if s == [] {
      assert ([] + [x])[1..] == [];
    } else {
      EncodeFrontAppend(s[1..], x);
      assert (s + [x])[1..] == s[1..] + [x];
    }
  }

  lemma {:induction false} EncodeFrontSame(s: seq<Hashed>)
    ensures EncodeFront(s) == EncodeUsers(s)
  {
    hide EncodeUser;
    if s != [] {
      var n := |s| - 1;
      EncodeFrontSame(s[..n]);
      EncodeFrontAppend(s[..n], s[n]);
      assert s == s[..n] + [s[n]];
    }
  }

  // One record is read back off the front of any stream.
  lemma DecodeUser(g: Hashed, h: Hashed, r: string, s: string)
    requires UserOk(g) && UserOk(h) && EncodeUser(g) + r == EncodeUser(h) + s
    ensures g == h && r == s
  {
    hide Be64;
    var gr, hs := g.uuid + "|" + r, h.uuid + "|" + s;
    assert EncodeUser(g) + r == Be64(g.id) + (Be64(g.speedLimit) + gr);
    assert EncodeUser(h) + s == Be64(h.id) + (Be64(h.speedLimit) + hs);
    SplitAt(Be64(g.id), Be64(h.id), Be64(g.speedLimit) + gr, Be64(h.speedLimit) + hs);
    SplitAt(Be64(g.speedLimit), Be64(h.speedLimit), gr, hs);
    Be64Injective(g.id, h.id);
    Be64Injective(g.speedLimit, h.speedLimit);
    Terminated('|', g.uuid, h.uuid, r, s);
  }

  lemma {:induction false} DecodeUsers(a: seq<Hashed>, b: seq<Hashed>)
    requires forall h :: h in a ==> UserOk(h)
    requires forall h :: h in b ==> UserOk(h)
    requires EncodeFront(a) == EncodeFront(b)
    ensures a == b
  {
    hide EncodeUser, UserOk;
    if a == [] || b == [] {
      EncodedNonEmpty(a);
      EncodedNonEmpty(b);
    } else {
      assert a[0] in a && b[0] in b;
      DecodeUser(a[0], b[0], EncodeFront(a[1..]), EncodeFront(b[1..]));
      DecodeUsers(a[1..], b[1..]);
      assert a == [a[0]] + a[1..] && b == [b[0]] + b[1..];
    }
  }

  lemma EncodedNonEmpty(s: seq<Hashed>)
    ensures s != [] ==> EncodeFront(s) != ""
  {
  }

  lemma UsersTotalPreorder()
    ensures TotalPreorder(ById) && TotalPreorder(HashedById)
  {
  }

  ghost predicate DistinctIDs(users: seq<User>) {
    forall i, j :: 0 <= i < j < |users| ==> users[i].id != users[j].id
  }

  lemma SortedHashed(users: seq<User>)
    ensures Sorted(HashedAll(Sort(users, ById)), HashedById)
    ensures multiset(HashedAll(Sort(users, ById))) == multiset(HashedAll(users))
  {
    UsersTotalPreorder();
    SortIsSortedPermutation(users, ById);
    MapPermutation(HashedOf, Sort(users, ById), users);
    var s := Sort(users, ById);
    forall i, j | 0 <= i < j < |s| ensures HashedById(HashedAll(s)[i], HashedAll(s)[j]) {
      assert ById(s[i], s[j]);
    }
  }

  // What sort.Slice may leave: any permutation in order of ID.
  ghost predicate SortedOf(users: seq<User>, s: seq<User>) {
    multiset(s) == multiset(users) && Sorted(s, ById)
  }

  // Equal hashes mean the same users, as far as the hash covers them, in whatever
  // order either sort leaves records of one ID.
  lemma EqualUserHashes(a: seq<User>, sa: seq<User>, b: seq<User>, sb: seq<User>)
    requires SortedOf(a, sa) && SortedOf(b, sb) && HashSorted(sa) == HashSorted(sb)
    requires forall h :: h in HashedAll(a) ==> UserOk(h)
    requires forall h :: h in HashedAll(b) ==> UserOk(h)
    ensures multiset(HashedAll(a)) == multiset(HashedAll(b))
  {
    hide UserOk, HashedAll;
    CoveredAgain(a, sa);
    CoveredAgain(b, sb);
    if sa != [] && sb != [] {
      EncodeFrontSame(HashedAll(sa));
      EncodeFrontSame(HashedAll(sb));
      DecodeUsers(HashedAll(sa), HashedAll(sb));
    }
  }

  lemma CoveredAgain(users: seq<User>, s: seq<User>)
    requires multiset(s) == multiset(users) && forall h :: h in HashedAll(users) ==> UserOk(h)
    ensures multiset(HashedAll(s)) == multiset(HashedAll(users)) && forall h :: h in HashedAll(s) ==> UserOk(h)
  {
    hide UserOk;
    MapPermutation(HashedOf, s, users);
    forall h | h in HashedAll(s) ensures UserOk(h) {
      assert h in multiset(HashedAll(s)) && h in multiset(HashedAll(users));
    }
  }

  lemma HashIsOfSorted(users: seq<User>)
    ensures SortedOf(users, Sort(users, ById)) && HashUsers(users) == HashSorted(Sort(users, ById))
  {
    UsersTotalPreorder();
    SortIsSortedPermutation(users, ById);
  }

  lemma NoHashedTies(users: seq<User>, s: seq<Hashed>)
    requires DistinctIDs(users) && multiset(s) == multiset(HashedAll(users))
    ensures NoTies(s, HashedById)
  {
    hide HashedAll;
    forall x, y | x in s && y in s && HashedById(x, y) && HashedById(y, x) ensures x == y {
      assert x in multiset(s) && y in multiset(s);
      assert x in HashedAll(users) && y in HashedAll(users);
      var i :| 0 <= i < |users| && HashedAll(users)[i] == x;
      var j :| 0 <= j < |users| && HashedAll(users)[j] == y;
      assert users[i].id == users[j].id;
    }
  }

  // The hash finds a change exactly when the covered users differ: for lists
  // without repeated IDs and UUIDs without '|', in any order.
  lemma UserHashExact(a: seq<User>, b: seq<User>)
    requires DistinctIDs(a) && DistinctIDs(b)
    requires forall h :: h in HashedAll(a) ==> UserOk(h)
    requires forall h :: h in HashedAll(b) ==> UserOk(h)
    ensures HashUsers(a) == HashUsers(b) <==> multiset(HashedAll(a)) == multiset(HashedAll(b))
  {
    hide UserOk, EncodeUsers;
    if HashUsers(a) == HashUsers(b) {
      HashIsOfSorted(a);
      HashIsOfSorted(b);
      EqualUserHashes(a, Sort(a, ById), b, Sort(b, ById));
    }
    if multiset(HashedAll(a)) == multiset(HashedAll(b)) {
      SameUsersSameHash(a, b);
    }
  }

  lemma SameUsersSameHash(a: seq<User>, b: seq<User>)
    requires DistinctIDs(a) && multiset(HashedAll(a)) == multiset(HashedAll(b))
    ensures HashUsers(a) == HashUsers(b)
  {
    hide EncodeUsers;
    assert |multiset(HashedAll(a))| == |a| && |multiset(HashedAll(b))| == |b|;
    SortedHashed(a);
    SortedHashed(b);
    UsersTotalPreorder();
    NoHashedTies(a, HashedAll(Sort(a, ById)));
    SortedUnique(HashedAll(Sort(a, ById)), HashedAll(Sort(b, ById)), HashedById);
  }

  // The order of the list does not matter, whichever way the sort breaks ties.
  lemma OrderDoesNotMatter(users: seq<User>, sorted: seq<User>)
    requires DistinctIDs(users) && users != [] && multiset(sorted) == multiset(users) && Sorted(sorted, ById)
    ensures HashUsers(users) == Digest(EncodeUsers(HashedAll(sorted)))
  {
    hide EncodeUsers;
    SortedHashed(users);
    UsersTotalPreorder();
    MapPermutation(HashedOf, sorted, users);
    NoHashedTies(users, HashedAll(sorted));
    forall i, j | 0 <= i < j < |sorted| ensures HashedById(HashedAll(sorted)[i], HashedAll(sorted)[j]) {
      assert ById(sorted[i], sorted[j]);
    }
    SortedUnique(HashedAll(sorted), HashedAll(Sort(users, ById)), HashedById);
  }

  // A '|' in a UUID breaks it: one user can hash like two.
  lemma BarInUuidCollides(u: User, v: User)
    requires u.id < v.id
    ensures HashUsers([u.(uuid := u.uuid + "|" + EncodeUser(HashedOf(v))[..|EncodeUser(HashedOf(v))| - 1])])
        == HashUsers([u, v])
  {
    hide Be64;
    var ev := EncodeUser(HashedOf(v));
    var w := u.(uuid := u.uuid + "|" + ev[..|ev| - 1]);
    SortTwo(u, v);
    assert Sort([w], ById) == [w] by { assert Sort([w][1..], ById) == []; }
    var one, two := HashedAll([w]), HashedAll([u, v]);
    EncodeFrontSame(one);
    EncodeFrontSame(two);
    assert one[1..] == [] && EncodeFront(one) == EncodeUser(one[0]) + "";
    assert two[1..][1..] == [] && two[1..] == [HashedOf(v)];
    assert EncodeFront(two) == EncodeUser(two[0]) + (EncodeUser(HashedOf(v)) + "");
    assert ev == ev[..|ev| - 1] + "|";
    assert EncodeUser(one[0]) == Be64(u.id) + Be64(u.speedLimit) + (u.uuid + "|" + ev[..|ev| - 1] + "|");
    assert u.uuid + "|" + ev[..|ev| - 1] + "|" == (u.uuid + "|") + ev;
  }

  lemma SortTwo(u: User, v: User)
    requires u.id < v.id
    ensures Sort([u, v], ById) == [u, v]
  {
    assert [u, v][1..] == [v] && [v][1..] == [];
    assert Sort([v], ById) == [v];
  }
}
