// UserSpeedBucket under concurrency: it reads the limit and the bucket under the
// read lock, and creates a missing bucket under the write lock, so an update of
// the user list can fall in between. When stored buckets run at the current limit.

module Buckets {
  import opened Panel
  import S = LimiterSpec
  import L = Limiter
  import Identity

  // A caller that found a limit but no bucket, and remembers the limit.
  datatype Caller = Idle | Missed(name: string, limit: int)

  // given: the buckets handed out for each name since the last update.
  datatype State = State(limits: map<string, int>, buckets: map<string, L.Bucket>, next: nat,
                         callers: seq<Caller>, given: map<string, set<L.Bucket>>)

  datatype Event =
    | Spawn
    | Read(caller: nat, name: string)
    | Install(caller: nat)
    | Update(users: seq<User>)

  const START := State(map[], map[], 0, [], map[])

  function Given(s: State, name: string): set<L.Bucket> {
    if name in s.given then s.given[name] else {}
  }

  function Give(s: State, name: string, b: L.Bucket): State {
    s.(given := s.given[name := Given(s, name) + {b}])
  }

  function LimitOf(s: State, name: string): int {
    L.LimitOf(s.limits, name)
  }

  // The limits of a list; of a repeated ID the last record counts.
  function Limits(users: seq<User>): map<string, int> {
    map name | name in S.UserTable(users) :: S.UserTable(users)[name].speedLimit
  }

  function Next(s: State, e: Event): State {
    match e
    case Spawn => s.(callers := s.callers + [Idle])
    case Read(c, name) =>
      if c >= |s.callers| || !s.callers[c].Idle? || LimitOf(s, name) <= 0 then s
      else if name in s.buckets then Give(s, name, s.buckets[name])
      else s.(callers := s.callers[c := Missed(name, LimitOf(s, name))])
    case Install(c) =>
      if c >= |s.callers| || s.callers[c].Idle? then s
      else
        var name := s.callers[c].name;
        var s' := s.(callers := s.callers[c := Idle]);
        if name in s.buckets then Give(s', name, s.buckets[name])
        else
          var b := L.Bucket(s.next, L.SpeedLimitBytesPerSecond(s.callers[c].limit));
          Give(s'.(buckets := s.buckets[name := b], next := s.next + 1), name, b)
    case Update(users) =>
      s.(limits := Limits(users), given := map[],
         buckets := map n | n in s.buckets && L.Carries(users, n, LimitOf(s, n)) :: s.buckets[n])
  }

  function Run(s: State, run: seq<Event>): State
    decreases run
  {
    if run == [] then s else Run(Next(s, run[0]), run[1..])
  }

  // Everything handed out since the last update is the stored bucket; identities
  // are never reused; a caller that missed has a positive limit in mind.
  ghost predicate Inv(s: State) {
    && (forall n, b :: n in s.given && b in s.given[n] ==> n in s.buckets && s.buckets[n] == b)
    && (forall n :: n in s.buckets ==> s.buckets[n].object_ < s.next && s.buckets[n].bytesPerSecond > 0.0)
    && (forall c :: 0 <= c < |s.callers| && s.callers[c].Missed? ==> s.callers[c].limit > 0)
    && (forall m, n :: m in s.buckets && n in s.buckets && s.buckets[m].object_ == s.buckets[n].object_ ==> m == n)
  }

  lemma NextInv(s: State, e: Event)
    requires Inv(s)
    ensures Inv(Next(s, e))
  {
    hide L.Carries, Limits;
  }

  lemma {:induction false} RunInv(s: State, run: seq<Event>)
    requires Inv(s)
    ensures Inv(Run(s, run))
    decreases run
  {
    if run != [] {
      NextInv(s, run[0]);
      RunInv(Next(s, run[0]), run[1..]);
    }
  }

  // However callers interleave, everyone who gets a bucket for one name between
  // two updates gets the same one, and different names get different ones.
  lemma OneBucketPerName(run: seq<Event>, m: string, n: string, a: L.Bucket, b: L.Bucket)
    requires a in Given(Run(START, run), m) && b in Given(Run(START, run), n)
    ensures m == n ==> a == b
    ensures m != n ==> a.object_ != b.object_
  {
    RunInv(START, run);
  }

  // A caller nobody interrupts gets a bucket exactly when its user has a limit: the
  // stored one if there is one, else a new one at that limit.
  lemma BucketAlone(s: State, c: nat, name: string)
    requires Inv(s) && c < |s.callers| && s.callers[c].Idle?
    ensures var s' := Next(Next(s, Read(c, name)), Install(c));
      && s'.callers == s.callers && s'.limits == s.limits
      && (LimitOf(s, name) <= 0 ==> s' == s)
      && (LimitOf(s, name) > 0 ==>
            && name in s'.buckets && Given(s', name) == {s'.buckets[name]}
            && s'.buckets == s.buckets[name := s'.buckets[name]]
            && (name in s.buckets ==> s'.buckets == s.buckets)
            && (name !in s.buckets ==>
                  s'.buckets[name].bytesPerSecond == L.SpeedLimitBytesPerSecond(LimitOf(s, name))))
  {
    hide L.SpeedLimitBytesPerSecond;
  }

  // An update that lists a user with the limit it has leaves its bucket alone; a user
  // that is no longer listed loses it.
  lemma UpdateKeeps(s: State, users: seq<User>, name: string)
    requires name in s.buckets
    ensures (exists i :: 0 <= i < |users| && users[i].speedLimit == LimitOf(s, name) > 0
                         && Identity.LimiterUserName(users[i].id) == name) ==>
              var s' := Next(s, Update(users)); name in s'.buckets && s'.buckets[name] == s.buckets[name]
    ensures (forall i :: 0 <= i < |users| ==> Identity.LimiterUserName(users[i].id) != name) ==>
              name !in Next(s, Update(users)).buckets
  {
    hide Identity.LimiterUserName, Limits;
  }

  // ---- Which stored buckets run at the current limit ----

  ghost predicate RateOk(s: State, name: string) {
    name in s.buckets ==> s.buckets[name].bytesPerSecond == L.SpeedLimitBytesPerSecond(LimitOf(s, name))
  }

  ghost predicate RatesOk(s: State) {
    forall name :: RateOk(s, name)
  }

  // The two events that may leave a bucket off the current limit, and when they do
  // not: a caller installs a bucket at the limit it read, and that limit is still
  // current; an update keeps a bucket because a record carries the old limit, and
  // the last record of that ID carries it too.
  ghost predicate Harmless(s: State, e: Event) {
    match e
    case Install(c) =>
      c < |s.callers| && s.callers[c].Missed? && s.callers[c].name !in s.buckets ==>
        LimitOf(s, s.callers[c].name) == s.callers[c].limit
    case Update(users) =>
      forall n :: n in s.buckets && L.Carries(users, n, LimitOf(s, n)) ==> L.LimitOf(Limits(users), n) == LimitOf(s, n)
    case _ => true
  }

  lemma UpdateRatesIff(s: State, users: seq<User>)
    requires Inv(s) && RatesOk(s)
    ensures RatesOk(Next(s, Update(users))) <==> Harmless(s, Update(users))
  {
    hide L.Carries, Limits, L.SpeedLimitBytesPerSecond;
    var s' := Next(s, Update(users));
    forall n | n in s.buckets && L.Carries(users, n, LimitOf(s, n))
      ensures RateOk(s', n) <==> L.LimitOf(Limits(users), n) == LimitOf(s, n)
    {
      assert RateOk(s, n);
      L.PositiveRate(LimitOf(s, n));
      L.RatesDiffer(LimitOf(s, n), LimitOf(s', n));
    }
  }

  lemma InstallRatesIff(s: State, c: nat)
    requires Inv(s) && RatesOk(s)
    ensures RatesOk(Next(s, Install(c))) <==> Harmless(s, Install(c))
  {
    hide L.SpeedLimitBytesPerSecond;
    var s' := Next(s, Install(c));
    if c < |s.callers| && s.callers[c].Missed? && s.callers[c].name !in s.buckets {
      var name := s.callers[c].name;
      L.RatesDiffer(s.callers[c].limit, LimitOf(s, name));
      assert RateOk(s', name) <==> LimitOf(s, name) == s.callers[c].limit;
      forall n | n != name ensures RateOk(s', n) {
        assert RateOk(s, n);
      }
    } else {
      forall n ensures RateOk(s', n) {
        assert RateOk(s, n);
      }
    }
  }

  lemma EventRatesIff(s: State, e: Event)
    requires Inv(s) && RatesOk(s)
    ensures RatesOk(Next(s, e)) <==> Harmless(s, e)
  {
    hide L.Carries, Limits, L.SpeedLimitBytesPerSecond;
    match e
    case Install(c) => InstallRatesIff(s, c);
    case Update(users) => UpdateRatesIff(s, users);
    case Spawn => assert forall n :: RateOk(s, n) ==> RateOk(Next(s, e), n);
    case Read(c, name) => assert forall n :: RateOk(s, n) ==> RateOk(Next(s, e), n);
  }

  ghost predicate AlwaysRatesOk(s: State, run: seq<Event>)
    decreases run
  {
    RatesOk(s) && (run == [] || AlwaysRatesOk(Next(s, run[0]), run[1..]))
  }

  ghost predicate AllHarmless(s: State, run: seq<Event>)
    decreases run
  {
    run == [] || (Harmless(s, run[0]) && AllHarmless(Next(s, run[0]), run[1..]))
  }

  // Over every run: stored buckets run at the current limit all along exactly when
  // every event is harmless where it happens.
  lemma {:induction false} RatesFollowIff(s: State, run: seq<Event>)
    requires Inv(s) && RatesOk(s)
    ensures AlwaysRatesOk(s, run) <==> AllHarmless(s, run)
    decreases run
  {
    hide Inv, RatesOk, Harmless, Next;
    if run != [] {
      NextInv(s, run[0]);
      EventRatesIff(s, run[0]);
      if RatesOk(Next(s, run[0])) {
        RatesFollowIff(Next(s, run[0]), run[1..]);
      }
    }
  }

  // A caller's bucket has the current rate exactly when the limit it read before has
  // not changed.
  lemma InstalledRate(s: State, c: nat)
    requires Inv(s) && c < |s.callers| && s.callers[c].Missed? && s.callers[c].name !in s.buckets
    ensures RateOk(Next(s, Install(c)), s.callers[c].name) <==> LimitOf(s, s.callers[c].name) == s.callers[c].limit
  {
    hide L.SpeedLimitBytesPerSecond;
    L.RatesDiffer(s.callers[c].limit, LimitOf(s, s.callers[c].name));
  }

  // ---- The same as conditions on the events alone ----

  // No update changes a limit some caller has read and not used yet.
  ghost predicate LeavesCallers(s: State, users: seq<User>) {
    forall c :: 0 <= c < |s.callers| && s.callers[c].Missed? ==>
      L.LimitOf(Limits(users), s.callers[c].name) == s.callers[c].limit
  }

  ghost predicate Calm(s: State, run: seq<Event>)
    decreases run
  {
    run == [] ||
    (&& (run[0].Update? ==> L.Settled(run[0].users) && LeavesCallers(s, run[0].users))
     && Calm(Next(s, run[0]), run[1..]))
  }

  ghost predicate CallersCurrent(s: State) {
    forall c :: 0 <= c < |s.callers| && s.callers[c].Missed? ==> LimitOf(s, s.callers[c].name) == s.callers[c].limit
  }

  lemma CalmStep(s: State, e: Event)
    requires Inv(s) && RatesOk(s) && CallersCurrent(s)
    requires e.Update? ==> L.Settled(e.users) && LeavesCallers(s, e.users)
    ensures RatesOk(Next(s, e)) && CallersCurrent(Next(s, e))
  {
    hide L.Carries, Limits, L.SpeedLimitBytesPerSecond, L.Settled;
    EventRatesIff(s, e);
    if e.Update? {
      forall n | n in s.buckets && L.Carries(e.users, n, LimitOf(s, n))
        ensures L.LimitOf(Limits(e.users), n) == LimitOf(s, n)
      {
        assert RateOk(s, n);
        L.PositiveRate(LimitOf(s, n));
        SettledAt(e.users, n, LimitOf(s, n));
      }
    }
  }

  lemma SettledAt(users: seq<User>, name: string, limit: int)
    requires L.Settled(users) && limit > 0 && L.Carries(users, name, limit)
    ensures L.LimitOf(Limits(users), name) == limit
  {
    hide L.Carries;
  }

  // Lists whose records of one ID agree on positive limits, and updates that leave
  // alone the limits callers are about to use, keep every stored bucket at the
  // current limit.
  lemma {:induction false} CalmRatesOk(s: State, run: seq<Event>)
    requires Inv(s) && RatesOk(s) && CallersCurrent(s) && Calm(s, run)
    ensures RatesOk(Run(s, run))
    decreases run
  {
    hide Inv, RatesOk, CallersCurrent, LeavesCallers, L.Settled, Next;
    if run != [] {
      NextInv(s, run[0]);
      CalmStep(s, run[0]);
      CalmRatesOk(Next(s, run[0]), run[1..]);
    }
  }

  lemma CalmFromStart(run: seq<Event>, name: string)
    requires Calm(START, run)
    ensures RateOk(Run(START, run), name)
  {
    CalmRatesOk(START, run);
  }

  // ---- Runs that break it ----

  lemma Unroll(s: State, e: Event, rest: seq<Event>)
    ensures Run(s, [e] + rest) == Run(Next(s, e), rest)
  {
  }

  lemma Done(s: State)
    ensures Run(s, []) == s
  {
  }

  lemma OneLimit(user: User)
    ensures Limits([user]) == map[Identity.LimiterUserName(user.id) := user.speedLimit]
  {
    hide Identity.LimiterUserName;
    assert [user][..0] == [];
    assert S.UserTable([user]) == map[Identity.LimiterUserName(user.id) := user];
  }

  // One caller that has read this user's limit and found no bucket.
  function Reading(user: User, rest: seq<Event>): seq<Event> {
    [Spawn] + ([Update([user])] + ([Read(0, Identity.LimiterUserName(user.id))] + rest))
  }

  lemma ReadingRuns(user: User, rest: seq<Event>)
    requires user.speedLimit > 0
    ensures var name := Identity.LimiterUserName(user.id);
      Run(START, Reading(user, rest))
      == Run(State(map[name := user.speedLimit], map[], 0, [Missed(name, user.speedLimit)], map[]), rest)
  {
    hide Run, Identity.LimiterUserName, Limits;
    var name := Identity.LimiterUserName(user.id);
    Unroll(START, Spawn, [Update([user])] + ([Read(0, name)] + rest));
    var s1 := Next(START, Spawn);
    assert s1.callers == [Idle];
    OneLimit(user);
    Unroll(s1, Update([user]), [Read(0, name)] + rest);
    var s2 := Next(s1, Update([user]));
    assert s2.buckets == map[];
    Unroll(s2, Read(0, name), rest);
    assert Next(s2, Read(0, name)).callers == [Missed(name, user.speedLimit)];
  }

  // A stale bucket is real, and is what later callers get: a caller reads the
  // limit, an update changes it, the caller makes the bucket.
  lemma StaleBucketIsHandedOut(user: User, after: int)
    requires user.speedLimit > 0 && after > 0 && user.speedLimit != after
    ensures var name := Identity.LimiterUserName(user.id);
      var rest := [Install(0)] + ([Read(0, name)] + []);
      var s := Run(START, Reading(user, [Update([user.(speedLimit := after)])] + rest));
      && LimitOf(s, name) == after && !RateOk(s, name)
      && Given(s, name) == {L.Bucket(0, L.SpeedLimitBytesPerSecond(user.speedLimit))}
  {
    hide Run, L.SpeedLimitBytesPerSecond, Identity.LimiterUserName, Limits;
    var name := Identity.LimiterUserName(user.id);
    var later := user.(speedLimit := after);
    ReadingRuns(user, [Update([later])] + ([Install(0)] + ([Read(0, name)] + [])));
    var s3 := State(map[name := user.speedLimit], map[], 0, [Missed(name, user.speedLimit)], map[]);
    OneLimit(later);
    Unroll(s3, Update([later]), [Install(0)] + ([Read(0, name)] + []));
    var s4 := Next(s3, Update([later]));
    assert s4 == State(map[name := after], map[], 0, [Missed(name, user.speedLimit)], map[]);
    Unroll(s4, Install(0), [Read(0, name)] + []);
    var s5 := Next(s4, Install(0));
    Unroll(s5, Read(0, name), []);
    Done(Next(s5, Read(0, name)));
    L.RatesDiffer(user.speedLimit, after);
  }

  // A caller that reads a limit makes the bucket at once.
  function Making(user: User, rest: seq<Event>): seq<Event> {
    Reading(user, [Install(0)] + rest)
  }

  lemma MakingRuns(user: User, rest: seq<Event>)
    requires user.speedLimit > 0
    ensures var name := Identity.LimiterUserName(user.id);
      var b := L.Bucket(0, L.SpeedLimitBytesPerSecond(user.speedLimit));
      Run(START, Making(user, rest))
      == Run(State(map[name := user.speedLimit], map[name := b], 1, [Idle], map[name := {b}]), rest)
  {
    hide Run, Identity.LimiterUserName, L.SpeedLimitBytesPerSecond;
    var name := Identity.LimiterUserName(user.id);
    ReadingRuns(user, [Install(0)] + rest);
    var s := State(map[name := user.speedLimit], map[], 0, [Missed(name, user.speedLimit)], map[]);
    Unroll(s, Install(0), rest);
    var b := L.Bucket(0, L.SpeedLimitBytesPerSecond(user.speedLimit));
    assert s.callers[0 := Idle] == [Idle] && {} + {b} == {b};
    assert Next(s, Install(0)) == State(map[name := user.speedLimit], map[name := b], 1, [Idle], map[name := {b}]);
  }

  // A list that repeats an ID with another limit keeps the old bucket, and so does
  // every later list with the new limit: callers go on at the old rate.
  lemma RepeatedIDKeepsOldBucket(user: User, after: int)
    requires user.speedLimit > 0 && after > 0 && user.speedLimit != after
    ensures var name, later := Identity.LimiterUserName(user.id), user.(speedLimit := after);
      var s := Run(START, Making(user, [Update([user] + [later])] + ([Update([later])] + ([Read(0, name)] + []))));
      && LimitOf(s, name) == after && !RateOk(s, name)
      && Given(s, name) == {L.Bucket(0, L.SpeedLimitBytesPerSecond(user.speedLimit))}
  {
    hide Run, L.SpeedLimitBytesPerSecond, Identity.LimiterUserName, Limits, L.Carries;
    var name, later := Identity.LimiterUserName(user.id), user.(speedLimit := after);
    var b := L.Bucket(0, L.SpeedLimitBytesPerSecond(user.speedLimit));
    MakingRuns(user, [Update([user] + [later])] + ([Update([later])] + ([Read(0, name)] + [])));
    var s := State(map[name := user.speedLimit], map[name := b], 1, [Idle], map[name := {b}]);
    RepeatedLimit(user, later);
    Unroll(s, Update([user] + [later]), [Update([later])] + ([Read(0, name)] + []));
    var s1 := Next(s, Update([user] + [later]));
    assert s1 == State(map[name := after], map[name := b], 1, [Idle], map[]);
    OneLimit(later);
    OneCarries(later);
    Unroll(s1, Update([later]), [Read(0, name)] + []);
    var s2 := Next(s1, Update([later]));
    assert s2 == State(map[name := after], map[name := b], 1, [Idle], map[]);
    Unroll(s2, Read(0, name), []);
    Done(Next(s2, Read(0, name)));
    L.RatesDiffer(user.speedLimit, after);
  }

  lemma OneCarries(user: User)
    ensures L.Carries([user], Identity.LimiterUserName(user.id), user.speedLimit)
  {
    hide Identity.LimiterUserName;
    assert user in [user];
  }

  lemma RepeatedLimit(user: User, later: User)
    requires user.id == later.id
    ensures Limits([user] + [later]) == map[Identity.LimiterUserName(user.id) := later.speedLimit]
    ensures L.Carries([user] + [later], Identity.LimiterUserName(user.id), user.speedLimit)
  {
    hide Identity.LimiterUserName;
    var both := [user] + [later];
    assert both[..1] == [user] && [user][..0] == [];
    assert S.UserTable([user]) == map[Identity.LimiterUserName(user.id) := user];
    assert S.UserTable(both) == map[Identity.LimiterUserName(user.id) := later];
    assert user in both;
  }

  // Settled lists are exactly the lists that never break it: for any other list
  // there is a run that leads to current rates, which that list ends.
  lemma OnlySettledListsAreSafe(users: seq<User>, name: string, limit: int) returns (run: seq<Event>)
    requires !L.Settled(users) && limit > 0 && L.Carries(users, name, limit) && L.LimitOf(Limits(users), name) != limit
    ensures RatesOk(Run(START, run)) && !RatesOk(Next(Run(START, run), Update(users)))
  {
    hide Run, L.SpeedLimitBytesPerSecond, Identity.LimiterUserName, Limits;
    var u :| u in users && Identity.LimiterUserName(u.id) == name && u.speedLimit == limit;
    run := Making(u, []);
    MakingRuns(u, []);
    var b := L.Bucket(0, L.SpeedLimitBytesPerSecond(limit));
    var s := State(map[name := limit], map[name := b], 1, [Idle], map[name := {b}]);
    Done(s);
    L.RatesDiffer(limit, L.LimitOf(Limits(users), name));
    assert !RateOk(Next(s, Update(users)), name);
  }

  // An update keeps rates current from every reachable state exactly when its list
  // is settled.
  lemma UpdateSafeIffSettled(users: seq<User>)
    ensures L.Settled(users) <==>
      forall run :: RatesOk(Run(START, run)) ==> RatesOk(Next(Run(START, run), Update(users)))
  {
    hide Run, L.Settled, L.Carries, RatesOk, Limits;
    if L.Settled(users) {
      forall run | RatesOk(Run(START, run)) ensures RatesOk(Next(Run(START, run), Update(users))) {
        RunInv(START, run);
        SettledUpdate(Run(START, run), users);
      }
    } else {
      var name, limit := Unsettled(users);
      var run := OnlySettledListsAreSafe(users, name, limit);
    }
  }

  lemma SettledUpdate(s: State, users: seq<User>)
    requires Inv(s) && RatesOk(s) && L.Settled(users)
    ensures RatesOk(Next(s, Update(users)))
  {
    hide L.Carries, Limits, L.SpeedLimitBytesPerSecond, L.Settled;
    UpdateRatesIff(s, users);
    forall n | n in s.buckets && L.Carries(users, n, LimitOf(s, n))
      ensures L.LimitOf(Limits(users), n) == LimitOf(s, n)
    {
      assert RateOk(s, n);
      L.PositiveRate(LimitOf(s, n));
      SettledAt(users, n, LimitOf(s, n));
    }
  }

  lemma Unsettled(users: seq<User>) returns (name: string, limit: int)
    requires !L.Settled(users)
    ensures limit > 0 && L.Carries(users, name, limit) && L.LimitOf(Limits(users), name) != limit
  {
    hide L.Carries;
    name, limit :| limit > 0 && L.Carries(users, name, limit)
                   && !(name in S.UserTable(users) && S.UserTable(users)[name].speedLimit == limit);
  }
}
