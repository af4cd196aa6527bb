// The traffic reporter: merging, retrying, trimming and the state file.

module Traffic {
  import opened Options
  import opened Sorting
  import opened TrafficSpec

  // A state file as its reader finds it. The JSON text is taken as its value.
  datatype FileState = Missing | Unreadable | Corrupt | Saved(items: seq<TrafficData>)

  // What the operating system answers during one Report.
  datatype Disk = Disk(mkdirOk: bool, writeOk: bool, renameOk: bool, removeOk: bool)

  // s lists the entries of m in increasing order of UID.
  ghost predicate Lists(s: seq<TrafficData>, m: Pending) {
    && (forall i, j :: 0 <= i < j < |s| ==> s[i].uid < s[j].uid)
    && (forall d :: d in s <==> d.uid in m && m[d.uid] == d)
  }

  // The map a list denotes: a later item replaces an earlier one.
  function FromItems(items: seq<TrafficData>): (m: Pending)
    ensures Keyed(m)
  {
    if items == [] then map[]
    else FromItems(items[..|items| - 1])[items[|items| - 1].uid := items[|items| - 1]]
  }

  lemma {:induction false} FromItemsAt(items: seq<TrafficData>, u: int)
    requires forall i, j :: 0 <= i < j < |items| ==> items[i].uid != items[j].uid
    ensures u in FromItems(items) <==> exists d :: d in items && d.uid == u
    ensures forall d :: d in items && d.uid == u ==> u in FromItems(items) && FromItems(items)[u] == d
  {
    if items == [] {
    } else {
      var last := items[|items| - 1];
      var rest := items[..|items| - 1];
      assert items == rest + [last];
      FromItemsAt(rest, u);
    }
  }

  // Reading back a written list restores every entry under its own UID.
  lemma ListRoundTrip(s: seq<TrafficData>, m: Pending)
    requires Lists(s, m) && Keyed(m)
    ensures FromItems(s) == m
  {
    forall u ensures u in FromItems(s) <==> u in m
             ensures u in m ==> u in FromItems(s) && FromItems(s)[u] == m[u]
    {
      FromItemsAt(s, u);
      if u in m {
        assert m[u] in s && m[u].uid == u;
      }
    }
  }

  // The entries of a map, sorted by UID as sort.Slice does.
  method SortByUid(items: seq<TrafficData>, ghost m: Pending) returns (s: seq<TrafficData>)
    requires Distinct(items) && Keyed(m) && forall d :: d in items <==> d.uid in m && m[d.uid] == d
    ensures Lists(s, m)
  {
    s := Sort(items, ByUid);
    SortIsSortedPermutation(items, ByUid);
    PermutationKeepsDistinct(items, s);
    forall i, j | 0 <= i < j < |s| ensures s[i].uid < s[j].uid {
      assert ByUid(s[i], s[j]) && s[i] != s[j];
      assert s[i] in items && s[j] in items;
    }
  }

  lemma AnElement<T>(s: set<T>) returns (x: T)
    requires s != {}
    ensures x in s
  {
    x :| x in s;
  }

  // Ranging over a map visits each entry once, in some order; entries without
  // bytes are skipped on demand.
  method Entries(m: Pending, skipEmpty: bool) returns (items: seq<TrafficData>)
    requires Keyed(m)
    ensures Distinct(items)
    ensures var kept := if skipEmpty then NonZero(m) else m;
      forall d :: d in items <==> d.uid in kept && kept[d.uid] == d
  {
    items := [];
    ghost var kept := if skipEmpty then NonZero(m) else m;
    var todo: set<int> := m.Keys;
    while todo != {}
      invariant todo <= m.Keys && Distinct(items)
      invariant forall d :: d in items <==> d.uid in kept && d.uid !in todo && kept[d.uid] == d
      decreases todo
    {
      ghost var any := AnElement(todo);
      var uid :| uid in todo;
      todo := todo - {uid};
      if !skipEmpty || !(m[uid].upload == 0 && m[uid].download == 0) {
        items := items + [m[uid]];
      }
    }
  }

  method SortedUids(m: Pending) returns (keys: seq<int>)
    ensures IsOrdered(keys, m.Keys, IntLe)
  {
    keys := [];
    var todo: set<int> := m.Keys;
    while todo != {}
      invariant todo <= m.Keys && Distinct(keys)
      invariant forall k :: k in keys <==> k in m && k !in todo
      decreases todo
    {
      ghost var any := AnElement(todo);
      var uid :| uid in todo;
      todo := todo - {uid};
      keys := keys + [uid];
    }
    SortIsSortedPermutation(keys, IntLe);
    PermutationKeepsDistinct(keys, Sort(keys, IntLe));
    keys := Sort(keys, IntLe);
  }

  method Without(m: Pending, keys: seq<int>) returns (r: Pending)
    ensures r == m - (set k | k in keys)
  {
    r := m;
    for i := 0 to |keys|
      invariant r == m - (set k | k in keys[..i])
    {
      r := r - {keys[i]};
      assert keys[..i + 1] == keys[..i] + [keys[i]];
    }
    assert keys[..|keys|] == keys;
  }

  class TrafficReporter {
    var pending: Pending
    const stateFile: string
    const maxPendingUsers: int
    var file: FileState
    var backedUp: bool    // a corrupt file was moved aside

    ghost predicate Valid()
      reads this
    {
      Keyed(pending) && maxPendingUsers > 0 && |pending| <= maxPendingUsers
    }

    // NewTrafficReporterWithLimit: restores what the state file holds.
    constructor (stateFile: string, maxPendingUsers: int, file: FileState, backupOk: bool)
      ensures Valid()
      ensures this.stateFile == stateFile
      ensures this.maxPendingUsers == if maxPendingUsers <= 0 then 10000 else maxPendingUsers
      ensures pending
           == if stateFile != "" && file.Saved? then Trim(FromItems(file.items), this.maxPendingUsers) else map[]
      ensures this.file == if stateFile != "" && file.Corrupt? && backupOk then Missing else file
    {
      this.stateFile := stateFile;
      this.maxPendingUsers := if maxPendingUsers <= 0 then 10000 else maxPendingUsers;
      this.pending := map[];
      this.file := file;
      this.backedUp := false;
      new;
      LoadPending(backupOk);
    }

    method LoadPending(backupOk: bool)
      requires Valid() && pending == map[]
      modifies this
      ensures Valid()
      ensures pending
           == if stateFile != "" && old(file).Saved? then Trim(FromItems(old(file).items), maxPendingUsers) else map[]
      ensures file == if stateFile != "" && old(file).Corrupt? && backupOk then Missing else old(file)
    {
      if stateFile == "" {
        return;
      }
      match file
      case Missing =>
      case Unreadable =>
      case Corrupt =>
        if backupOk {
          file := Missing;
          backedUp := true;
        }
      case Saved(items) =>
        BufferPending(items);
    }

    // The payload of one report: pending and fresh bytes merged per user, users
    // without bytes left out, in increasing order of UID.
    method BuildPushPayload(trafficList: seq<UserTraffic>) returns (pushData: seq<TrafficData>, bufferedUsers: nat)
      requires Keyed(pending)
      ensures Lists(pushData, Payload(pending, trafficList))
      ensures Keyed(Payload(pending, trafficList))
      ensures bufferedUsers == |pending|
    {
      var merged := pending;
      bufferedUsers := |pending|;
      for i := 0 to |trafficList|
        invariant merged == Merge(pending, trafficList[..i])
      {
        var traffic := trafficList[i];
        var data := if traffic.userID in merged then merged[traffic.userID] else TrafficData(0, 0, 0);
        data := data.(uid := traffic.userID, upload := data.upload + traffic.upload,
                      download := data.download + traffic.download);
        merged := merged[traffic.userID := data];
        assert trafficList[..i + 1][..i] == trafficList[..i];
      }
      assert trafficList[..|trafficList|] == trafficList;
      MergeKeyed(pending, trafficList);
      var items := Entries(merged, true);
      pushData := SortByUid(items, NonZero(merged));
    }

    method BufferPending(data: seq<TrafficData>)
      requires maxPendingUsers > 0
      modifies this`pending
      ensures pending == Trim(FromItems(data), maxPendingUsers) && Valid()
    {
      pending := map[];
      for i := 0 to |data|
        invariant pending == FromItems(data[..i])
      {
        pending := pending[data[i].uid := data[i]];
        assert data[..i + 1][..i] == data[..i];
      }
      assert data[..|data|] == data;
      TrimPending();
      TrimSize(FromItems(data), maxPendingUsers);
    }

    // Over the limit, the entries with the smallest UIDs are deleted.
    method TrimPending()
      modifies this`pending
      ensures pending == Trim(old(pending), maxPendingUsers)
    {
      if maxPendingUsers <= 0 || |pending| <= maxPendingUsers {
        if maxPendingUsers > 0 {
          TrimSize(pending, maxPendingUsers);
        }
        return;
      }
      var keys := SortedUids(pending);
      TrimOfSorted(pending, maxPendingUsers, keys);
      assert |keys| == |pending| by {
        DistinctSize(keys, pending.Keys);
      }
      var n := |keys| - maxPendingUsers;
      pending := Without(pending, keys[..n]);
    }

    // Writing goes through a temporary file, which nothing ever reads.
    method PersistPending(disk: Disk) returns (ok: bool)
      requires Keyed(pending)
      modifies this`file
      ensures ok <==> stateFile == "" || (disk.mkdirOk && disk.writeOk && disk.renameOk)
      ensures stateFile == "" || !ok ==> file == old(file)
      ensures stateFile != "" && ok ==> file.Saved? && Lists(file.items, pending)
    {
      if stateFile == "" {
        return true;
      }
      var items := Entries(pending, false);
      var payload := SortByUid(items, pending);
      if !disk.mkdirOk || !disk.writeOk || !disk.renameOk {
        return false;
      }
      file := Saved(payload);
      return true;
    }

    method ClearPersistedPending(disk: Disk) returns (ok: bool)
      modifies this`file
      ensures file == if stateFile != "" && disk.removeOk then Missing else old(file)
      ensures ok <==> stateFile == "" || old(file).Missing? || disk.removeOk
    {
      if stateFile == "" {
        return true;
      }
      if file.Missing? {
        return true;
      }
      if disk.removeOk {
        file := Missing;
      }
      return disk.removeOk;
    }

    // One report: pushed is what the panel was sent, if anything was.
    method Report(collected: seq<UserTraffic>, pushOk: bool, disk: Disk) returns (pushed: Option<seq<TrafficData>>)
      requires Valid()
      modifies this
      ensures Valid()
      ensures var data := Payload(old(pending), collected);
        if data == map[] then pushed == None && pending == old(pending) && file == old(file)
        else pushed.Some? && Lists(pushed.value, data)
      ensures var data := Payload(old(pending), collected);
        data != map[] && pushOk ==>
          pending == map[] && file == if stateFile != "" && disk.removeOk then Missing else old(file)
      ensures var data := Payload(old(pending), collected);
        data != map[] && !pushOk ==>
          && pending == Trim(data, maxPendingUsers)
          && (if stateFile != "" && disk.mkdirOk && disk.writeOk && disk.renameOk
              then file.Saved? && Lists(file.items, pending) else file == old(file))
    {
      var pushData, bufferedUsers := BuildPushPayload(collected);
      ghost var data := Payload(pending, collected);
      ListRoundTrip(pushData, data);
      if |pushData| == 0 {
        assert data == FromItems([]) == map[];
        return None;
      }
      assert pushData[0] in pushData && pushData[0].uid in data;
      pushed := Some(pushData);
      if !pushOk {
        BufferPending(pushData);
        var persisted := PersistPending(disk);
        return;
      }
      pending := map[];
      var cleared := ClearPersistedPending(disk);
    }
  }

  // Persisting and restoring gives the same pending map when it fits, and
  // otherwise the entries with the largest UIDs.
  lemma PersistRestore(m: Pending, written: seq<TrafficData>, max: int)
    requires Keyed(m) && Lists(written, m) && max > 0
    ensures Trim(FromItems(written), max) == Trim(m, max)
    ensures |m| <= max ==> Trim(FromItems(written), max) == m
  {
    ListRoundTrip(written, m);
    TrimSize(m, max);
  }

  // Whatever the outcome of a report, each user's bytes are pushed, kept for the
  // next report, or dropped with a UID below every kept one.
  lemma ReportKeepsBytes(m: Pending, list: seq<UserTraffic>, max: int, uid: int, dir: Dir)
    requires Keyed(m) && max > 0
    ensures At(Payload(m, list), uid, dir) == At(m, uid, dir) + Total(list, uid, dir)
    ensures var kept := Trim(Payload(m, list), max);
      At(kept, uid, dir) == At(m, uid, dir) + Total(list, uid, dir)
      || (At(kept, uid, dir) == 0 && |kept| == max && forall k :: k in kept ==> uid < k)
  {
    PayloadAt(m, list, uid, dir);
    var data := Payload(m, list);
    TrimSize(data, max);
    if uid in data && uid !in Trim(data, max) {
      forall k | k in Trim(data, max) ensures uid < k {
        TrimKeepsLargest(data, max, k, uid);
      }
    }
  }
}
