// The byte totals of the traffic reporter, as values: merging, filtering,
// trimming, and the list written to the state file.

module TrafficSpec {
  import opened Sorting

  // Totals are unbounded naturals (int64 in the program).
  datatype TrafficData = TrafficData(uid: int, upload: nat, download: nat)

  datatype UserTraffic = UserTraffic(userID: int, upload: nat, download: nat)

  datatype Dir = Up | Down

  type Pending = map<int, TrafficData>

  function Bytes(d: TrafficData, dir: Dir): nat {
    if dir.Up? then d.upload else d.download
  }

  function At(m: Pending, uid: int, dir: Dir): nat {
    if uid in m then Bytes(m[uid], dir) else 0
  }

  // Total of one user in a collected list, which may mention the user repeatedly.
  function Total(list: seq<UserTraffic>, uid: int, dir: Dir): nat {
    if list == [] then 0
    else
      var last := list[|list| - 1];
      Total(list[..|list| - 1], uid, dir)
      + if last.userID != uid then 0 else if dir.Up? then last.upload else last.download
  }

  // Every entry sits under its own UID.
  ghost predicate Keyed(m: Pending) {
    forall u :: u in m ==> m[u].uid == u
  }

  function AddTo(m: Pending, t: UserTraffic): Pending {
    var up := if t.userID in m then m[t.userID].upload else 0;
    var down := if t.userID in m then m[t.userID].download else 0;
    m[t.userID := TrafficData(t.userID, up + t.upload, down + t.download)]
  }

  function Merge(m: Pending, list: seq<UserTraffic>): Pending {
    if list == [] then m else AddTo(Merge(m, list[..|list| - 1]), list[|list| - 1])
  }

  function NonZero(m: Pending): Pending {
    map u | u in m && !(m[u].upload == 0 && m[u].download == 0) :: m[u]
  }

  // What one report pushes.
  function Payload(m: Pending, list: seq<UserTraffic>): Pending {
    NonZero(Merge(m, list))
  }

  lemma {:induction false} MergeAt(m: Pending, list: seq<UserTraffic>, uid: int, dir: Dir)
    ensures At(Merge(m, list), uid, dir) == At(m, uid, dir) + Total(list, uid, dir)
  {
    if list != [] {
      MergeAt(m, list[..|list| - 1], uid, dir);
    }
  }

  lemma {:induction false} MergeKeyed(m: Pending, list: seq<UserTraffic>)
    requires Keyed(m)
    ensures Keyed(Merge(m, list))
  {
    if list != [] {
      MergeKeyed(m, list[..|list| - 1]);
    }
  }

  // A payload holds every pending and collected byte, user by user, under its own UID.
  lemma PayloadAt(m: Pending, list: seq<UserTraffic>, uid: int, dir: Dir)
    requires Keyed(m)
    ensures At(Payload(m, list), uid, dir) == At(m, uid, dir) + Total(list, uid, dir)
    ensures Keyed(Payload(m, list))
  {
    MergeAt(m, list, uid, dir);
    MergeKeyed(m, list);
  }

  // A user is in the payload exactly when it has bytes.
  lemma PayloadHolds(m: Pending, list: seq<UserTraffic>, uid: int)
    ensures uid in Payload(m, list) <==>
            At(m, uid, Up) + Total(list, uid, Up) > 0 || At(m, uid, Down) + Total(list, uid, Down) > 0
  {
    MergeAt(m, list, uid, Up);
    MergeAt(m, list, uid, Down);
    var all := Merge(m, list);
    assert uid in Payload(m, list) <==> At(all, uid, Up) > 0 || At(all, uid, Down) > 0;
  }

  function Above(keys: set<int>, uid: int): set<int> {
    set k | k in keys && k > uid
  }

  // The max largest UIDs with their totals (everything when it fits).
  function Trim(m: Pending, max: int): Pending {
    if max <= 0 then m else map u | u in m && |Above(m.Keys, u)| < max :: m[u]
  }

  predicate ByUid(a: TrafficData, b: TrafficData) {
    a.uid <= b.uid
  }

  ghost predicate StrictlyIncreasing(s: seq<int>) {
    forall i, j :: 0 <= i < j < |s| ==> s[i] < s[j]
  }

  // The greater keys of a sorted key list are the ones behind.
  lemma {:induction false} AboveInSorted(keys: set<int>, s: seq<int>, i: nat)
    requires StrictlyIncreasing(s) && i < |s|
    requires forall k :: k in keys <==> k in s
    ensures |Above(keys, s[i])| == |s| - 1 - i
    decreases |s| - i
  {
    if i == |s| - 1 {
      assert Above(keys, s[i]) == {};
    } else {
      AboveInSorted(keys, s, i + 1);
      assert s[i + 1] in s;
      forall k | k in Above(keys, s[i]) && k != s[i + 1] ensures k in Above(keys, s[i + 1]) {
        var j :| 0 <= j < |s| && s[j] == k;
        assert j > i + 1;
      }
      assert Above(keys, s[i]) == Above(keys, s[i + 1]) + {s[i + 1]};
    }
  }

  lemma AboveShrinks(keys: set<int>, u: int, v: int)
    requires u <= v
    ensures |Above(keys, v)| <= |Above(keys, u)|
  {
    SubsetSize(Above(keys, v), Above(keys, u));
  }

  // No UID is dropped while a smaller one is kept.
  lemma TrimKeepsLargest(m: Pending, max: int, kept: int, dropped: int)
    requires kept in Trim(m, max) && dropped in m && dropped !in Trim(m, max)
    ensures dropped < kept && Trim(m, max)[kept] == m[kept]
  {
    if kept <= dropped {
      AboveShrinks(m.Keys, kept, dropped);
    }
  }

  predicate IntLe(a: int, b: int) {
    a <= b
  }

  // Trimming keeps min(|m|, max) users, all of them when they fit.
  lemma TrimSize(m: Pending, max: int)
    requires max > 0
    ensures |Trim(m, max)| == if |m| <= max then |m| else max
    ensures |m| <= max ==> Trim(m, max) == m
  {
    hide Trim, IsOrdered, Distinct;
    OrderedOf(m.Keys, IntLe);
    var s := Ordered(m.Keys, IntLe);
    var n := if |s| <= max then 0 else |s| - max;
    TrimOfSorted(m, max, s);
    assert forall u :: u in Trim(m, max).Keys <==> u in s[n..];
    SuffixDistinct(m.Keys, s, n);
    DistinctSize(s[n..], Trim(m, max).Keys);
    if n == 0 {
      assert s[n..] == s;
      TrimOfAll(m, max, s);
    }
  }

  lemma SuffixDistinct(keys: set<int>, s: seq<int>, n: nat)
    requires IsOrdered(s, keys, IntLe) && n <= |s|
    ensures Distinct(s[n..])
  {
  }

  lemma TrimOfAll(m: Pending, max: int, s: seq<int>)
    requires IsOrdered(s, m.Keys, IntLe)
    requires forall u :: u in Trim(m, max) <==> u in s
    ensures Trim(m, max) == m
  {
  }

  // In increasing order of UID, trimming drops a prefix.
  lemma TrimOfSorted(m: Pending, max: int, s: seq<int>)
    requires max > 0 && IsOrdered(s, m.Keys, IntLe)
    ensures var n := if |s| <= max then 0 else |s| - max;
            forall u :: u in Trim(m, max) <==> u in s[n..]
  {
    var n := if |s| <= max then 0 else |s| - max;
    forall u ensures u in Trim(m, max) <==> u in s[n..] {
      if u in m.Keys {
        var i :| 0 <= i < |s| && s[i] == u;
        AboveInSorted(m.Keys, s, i);
      }
    }
  }

}
