// The traffic counters of one engine and the connections that feed them, as the
// objects the program updates in place. Their interleavings are in Ledger.

module Stats {
  import opened Options
  import opened TrafficSpec
  import opened Sorting
  import Identity
  import L = Ledger
  import T = LedgerTheorems

  type Counters = map<string, L.Amount>

  // What the collector reports for one name, if anything.
  function Reported(m: Counters, name: string): Option<UserTraffic> {
    if name !in m || Identity.ParseUserID(name).None? || m[name] == L.NONE then None
    else Some(UserTraffic(Identity.ParseUserID(name).value, m[name].up, m[name].down))
  }

  // What was counted under a user's name is reported under its ID, upload as upload
  // and download as download, with what was there before.
  lemma CreditIsReported(m: Counters, uid: int, a: L.Amount)
    requires uid > 0 && Identity.IsInt64(uid) && a != L.NONE
    ensures var name := Identity.LimiterUserName(uid);
      var was := if name in m then m[name] else L.NONE;
      Reported(T.Credit(m, name, a), name) == Some(UserTraffic(uid, was.up + a.up, was.down + a.down))
  {
    Identity.UserNameRoundTrip(uid);
  }

  class StatsTracker {
    var userTraffic: Counters

    constructor ()
      ensures userTraffic == map[]
    {
      userTraffic := map[];
    }

    method AddTraffic(userName: string, upload: int, download: int)
      modifies this
      ensures userTraffic == if userName == "" then old(userTraffic)
                             else T.Credit(old(userTraffic), userName,
                                           L.Amount(if upload > 0 then upload else 0,
                                                     if download > 0 then download else 0))
    {
      if userName == "" {
        return;
      }
      if userName !in userTraffic {
        userTraffic := userTraffic[userName := L.NONE];
      }
      var r := userTraffic[userName];
      if upload > 0 {
        r := r.(up := r.up + upload);
      }
      if download > 0 {
        r := r.(down := r.down + download);
      }
      userTraffic := userTraffic[userName := r];
    }

    // One entry per parsable name with bytes, in some order; those names are reset.
    method CollectTraffic() returns (result: seq<UserTraffic>, ghost names: seq<string>)
      modifies this
      ensures Distinct(names) && |names| == |result|
      ensures forall n :: n in names <==> Reported(old(userTraffic), n).Some?
      ensures forall i :: 0 <= i < |names| ==> Reported(old(userTraffic), names[i]) == Some(result[i])
      ensures userTraffic == map n | n in old(userTraffic) ::
                if Identity.ParseUserID(n).None? then old(userTraffic)[n] else L.NONE
    {
      result, names := [], [];
      var todo := userTraffic.Keys;
      while todo != {}
        invariant todo <= userTraffic.Keys == old(userTraffic).Keys
        invariant forall n :: n in todo ==> userTraffic[n] == old(userTraffic)[n]
        invariant forall n :: n in userTraffic && n !in todo ==>
                    userTraffic[n] == if Identity.ParseUserID(n).None? then old(userTraffic)[n] else L.NONE
        invariant Distinct(names) && |names| == |result|
        invariant forall n :: n in names <==> n !in todo && Reported(old(userTraffic), n).Some?
        invariant forall i :: 0 <= i < |names| ==> Reported(old(userTraffic), names[i]) == Some(result[i])
        decreases todo
      {
        var name :| name in todo;
        todo := todo - {name};
        var userID := Identity.ParseUserID(name);
        if userID.Some? {
          var record := userTraffic[name];
          userTraffic := userTraffic[name := L.NONE];
          if record.up != 0 || record.down != 0 {
            result := result + [UserTraffic(userID.value, record.up, record.down)];
            names := names + [name];
          }
        }
      }
    }
  }

  ghost predicate OthersKept(m: Counters, m': Counters, user: string) {
    m - {user} == m' - {user}
  }

  // A connection with its byte buffers (trackedConn; trackedPacketConn differs in
  // counting packets of length zero too, which adds nothing).
  class TrackedConn {
    const user: string
    const stats: StatsTracker
    var uploadBuf: nat
    var downloadBuf: nat
    var closed: bool

    // Connections are wrapped only after the limiter's check, which denies empty names.
    constructor (user: string, stats: StatsTracker)
      requires user != ""
      ensures this.user == user && this.stats == stats && uploadBuf == 0 && downloadBuf == 0 && !closed
    {
      this.user, this.stats := user, stats;
      uploadBuf, downloadBuf, closed := 0, 0, false;
    }

    // All bytes of this connection's user this connection and the counters hold.
    function Held(): (a: L.Amount)
      reads this, stats
    {
      var r := if user in stats.userTraffic then stats.userTraffic[user] else L.NONE;
      L.Amount(uploadBuf + r.up, downloadBuf + r.down)
    }

    method Read(n: nat)
      requires user != ""
      modifies this, stats
      ensures Held() == L.Amount(old(Held()).up + n, old(Held()).down)
      ensures n > 0 ==> uploadBuf < L.THRESHOLD
      ensures n > 0 && old(uploadBuf) + n >= L.THRESHOLD ==> uploadBuf == 0
      ensures downloadBuf == old(downloadBuf) && closed == old(closed)
      ensures n == 0 || old(uploadBuf) + n < L.THRESHOLD ==> stats.userTraffic == old(stats.userTraffic)
      ensures OthersKept(old(stats.userTraffic), stats.userTraffic, user)
    {
      if n > 0 {
        uploadBuf := uploadBuf + n;
        if uploadBuf >= L.THRESHOLD {
          var toUpload := uploadBuf;
          uploadBuf := 0;
          stats.AddTraffic(user, toUpload, 0);
        }
      }
    }

    method Write(n: nat)
      requires user != ""
      modifies this, stats
      ensures Held() == L.Amount(old(Held()).up, old(Held()).down + n)
      ensures n > 0 ==> downloadBuf < L.THRESHOLD
      ensures n > 0 && old(downloadBuf) + n >= L.THRESHOLD ==> downloadBuf == 0
      ensures uploadBuf == old(uploadBuf) && closed == old(closed)
      ensures n == 0 || old(downloadBuf) + n < L.THRESHOLD ==> stats.userTraffic == old(stats.userTraffic)
      ensures OthersKept(old(stats.userTraffic), stats.userTraffic, user)
    {
      if n > 0 {
        downloadBuf := downloadBuf + n;
        if downloadBuf >= L.THRESHOLD {
          var toDownload := downloadBuf;
          downloadBuf := 0;
          stats.AddTraffic(user, 0, toDownload);
        }
      }
    }

    // Only the first Close settles the buffers.
    method Close()
      requires user != ""
      modifies this, stats
      ensures closed && Held() == old(Held())
      ensures !old(closed) ==> uploadBuf == 0 && downloadBuf == 0
      ensures old(closed) ==> uploadBuf == old(uploadBuf) && downloadBuf == old(downloadBuf)
                              && stats.userTraffic == old(stats.userTraffic)
      ensures OthersKept(old(stats.userTraffic), stats.userTraffic, user)
    {
      if closed {
        return;
      }
      closed := true;
      var toUpload, toDownload := uploadBuf, downloadBuf;
      uploadBuf, downloadBuf := 0, 0;
      if toUpload > 0 || toDownload > 0 {
        stats.AddTraffic(user, toUpload, toDownload);
      }
    }
  }
}
