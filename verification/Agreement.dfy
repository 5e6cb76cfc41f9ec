/**
 * What the protocol of Freshness means for a key: exactly when it enforces its
 * owner's current limits, and which owner holds the other half.
 */
module Agreement {
  import opened Options
  import opened KeyProvider
  import opened Quota
  import opened Database
  import opened Profiles
  import opened Freshness
  import Gateway
  import LiteLLM
  import MissingKeys

  // ----- Owners -----

  ghost predicate RowOwned(w: World, key: int)
    requires key in w.db.keys
  {
    var k := w.db.keys[key];
    && k.userId in w.db.users
    && (k.ref in w.pushed ==> w.pushed[k.ref].owner == OwnerIdOf(w, k.userId))
    && (k.ref in w.backups ==> w.backups[k.ref].1.owner == OwnerIdOf(w, k.userId))
  }

  ghost predicate WorkerOwned(w: World, key: int)
    requires key in w.workers
  {
    var k := w.workers[key];
    && (key in w.db.keys ==> w.db.keys[key].userId in w.db.users && k.sub == w.db.users[w.db.keys[key].userId].sub)
    && (k.push.Loaded? || k.push.Landed? ==> k.push.reading.owner == OwnerId(w.prefix, k.sub))
  }

  ghost predicate RequestOwned(w: World, q: int)
    requires q in w.requests
  {
    var r := w.requests[q];
    && r.user in w.db.users
    && (r.Ready? || r.Created? ==> r.reading.owner == OwnerIdOf(w, r.user))
    && (r.Created? && r.ref in w.pushed ==> w.pushed[r.ref].owner == OwnerIdOf(w, r.user))
    && (r.Created? && r.ref in w.backups ==> w.backups[r.ref].1.owner == OwnerIdOf(w, r.user))
  }

  /** Every reading that reached a key names the gateway user of the person in its row. */
  ghost predicate Owned(w: World) {
    && (forall key :: key in w.db.keys ==> RowOwned(w, key))
    && (forall key :: key in w.workers ==> WorkerOwned(w, key))
    && (forall q :: q in w.requests ==> RequestOwned(w, q))
    && (forall ref :: ref in w.pushed ==> ref in w.used)
  }

  /** Rows only go or change otherwise than in their key or their user; people keep their subject. */
  ghost predicate PeopleStay(a: Db, b: Db) {
    && (forall k :: k in b.keys ==> k in a.keys && b.keys[k].ref == a.keys[k].ref && b.keys[k].userId == a.keys[k].userId)
    && (forall u :: u in a.users ==> u in b.users && b.users[u].sub == a.users[u].sub)
  }

  lemma AdminKeepsPeople(db: Db, op: AdminOp)
    ensures PeopleStay(db, Apply(db, op))
  {
    MissingKeys.AdminOpKeepsKeys(db, op);
    UsersKeepSubjects(db, op);
  }

  lemma UsersKeepSubjects(db: Db, op: AdminOp)
    ensures forall u :: u in db.users ==> u in Apply(db, op).users && Apply(db, op).users[u].sub == db.users[u].sub
  {
  }

  lemma OwnedLater(w: World, v: World)
    requires Owned(w) && PeopleStay(w.db, v.db) && v.prefix == w.prefix && v.pushed == w.pushed && v.backups == w.backups
    requires v.used == w.used && v.requests == w.requests
    requires forall key :: key in v.workers ==> key in w.workers && v.workers[key] == w.workers[key]
    ensures Owned(v)
  {
    forall key | key in v.db.keys ensures RowOwned(v, key) {
      assert RowOwned(w, key);
    }
    forall key | key in v.workers ensures WorkerOwned(v, key) {
      assert WorkerOwned(w, key);
    }
    forall q | q in v.requests ensures RequestOwned(v, q) {
      assert RequestOwned(w, q);
    }
  }

  predicate LocalEvent(e: Event) {
    e.Target? || e.ReadRow? || e.ReadWindows? || e.Open? || e.OpenWindows? || e.Abandon?
  }

  lemma RowEventKeepsPeople(w: World, e: Event)
    requires Enabled(w, e) && (e.Resync? || e.Extend? || e.DropRow? || e.Notice? || e.Fail? || e.Record?)
    ensures PeopleStay(w.db, Next(w, e).db)
  {
  }

  lemma CheckKeepsPeople(db: Db, key: int, owner: int, answer: MissingKeys.Answer, grace: int, asked: Time, now: Time)
    ensures PeopleStay(db, MissingKeys.Checked(db, key, owner, answer, grace, asked, now))
  {
  }

  lemma TableEventOwned(w: World, e: Event)
    requires Owned(w) && Enabled(w, e) && (e.Resync? || e.Extend? || e.DropRow? || e.Notice? || e.Fail? || e.Record?)
    ensures Owned(Next(w, e))
  {
    RowEventKeepsPeople(w, e);
    OwnedLater(w, Next(w, e));
  }

  lemma OtherEventOwned(w: World, e: Event)
    requires Owned(w) && Enabled(w, e) && (e.Admin? || e.Check? || e.GiveUp? || e.Delete?)
    ensures Owned(Next(w, e))
  {
    if e.Admin? {
      AdminKeepsPeople(w.db, e.op);
    } else if e.Check? {
      CheckKeepsPeople(w.db, e.key, e.user, e.answer, e.grace, e.asked, e.now);
    }
    OwnedLater(w, Next(w, e));
  }

  lemma LocalWorkerOwned(w: World, e: Event, key: int)
    requires Owned(w) && Enabled(w, e) && LocalEvent(e) && key in Next(w, e).workers
    ensures WorkerOwned(Next(w, e), key)
  {
    assert key in w.workers ==> WorkerOwned(w, key);
  }

  lemma LocalRequestOwned(w: World, e: Event, q: int)
    requires Owned(w) && Enabled(w, e) && LocalEvent(e) && q in Next(w, e).requests
    ensures RequestOwned(Next(w, e), q)
  {
    assert q in w.requests ==> RequestOwned(w, q);
  }

  lemma LocalEventOwned(w: World, e: Event)
    requires Owned(w) && Enabled(w, e) && LocalEvent(e)
    ensures Owned(Next(w, e))
  {
    var v := Next(w, e);
    forall key | key in v.db.keys ensures RowOwned(v, key) {
      assert RowOwned(w, key);
    }
    forall key | key in v.workers ensures WorkerOwned(v, key) {
      LocalWorkerOwned(w, e, key);
    }
    forall q | q in v.requests ensures RequestOwned(v, q) {
      LocalRequestOwned(w, e, q);
    }
  }

  /** A push reaches the key of one row, which is its worker's. */
  lemma PushOwned(w: World, e: Event)
    requires Owned(w) && Inv(w) && e.PushLimits? && Enabled(w, e)
    ensures Owned(Next(w, e))
  {
    var v := Next(w, e);
    assert WorkerFits(w, e.key) && WorkerOwned(w, e.key);
    assert KeyFits(w, w.workers[e.key].ref);
    forall key | key in v.db.keys ensures RowOwned(v, key) {
      assert RowOwned(w, key) && TableFits(w, key);
    }
    forall key | key in v.workers ensures WorkerOwned(v, key) {
      assert WorkerOwned(w, key);
    }
    forall q | q in v.requests ensures RequestOwned(v, q) {
      assert RequestOwned(w, q) && RequestFits(w, q);
    }
  }

  lemma CreateKeyOwned(w: World, e: Event)
    requires Owned(w) && Inv(w) && e.CreateKey? && Enabled(w, e)
    ensures Owned(Next(w, e))
  {
    var v := Next(w, e);
    assert RequestOwned(w, e.request);
    assert e.ref in w.backups ==> BackupFits(w, e.ref);
    forall key | key in v.db.keys ensures RowOwned(v, key) {
      assert RowOwned(w, key) && TableFits(w, key);
    }
    forall key | key in v.workers ensures WorkerOwned(v, key) {
      assert WorkerOwned(w, key);
    }
    forall q | q in v.requests ensures RequestOwned(v, q) {
      assert RequestOwned(w, q) && RequestFits(w, q);
    }
  }

  lemma StoreKeyOwned(w: World, e: Event)
    requires Owned(w) && Inv(w) && e.StoreKey? && Enabled(w, e)
    ensures Owned(Next(w, e))
  {
    var v := Next(w, e);
    assert RequestOwned(w, e.request);
    forall key | key in v.db.keys ensures RowOwned(v, key) {
      assert key in w.db.keys ==> RowOwned(w, key);
    }
    forall key | key in v.workers ensures WorkerOwned(v, key) {
      assert WorkerOwned(w, key) && WorkerFits(w, key);
    }
    forall q | q in v.requests ensures RequestOwned(v, q) {
      assert RequestOwned(w, q);
    }
  }

  lemma BackupOwned(w: World, e: Event)
    requires Owned(w) && Inv(w) && (e.Backup? || e.Restore?) && Enabled(w, e)
    ensures Owned(Next(w, e))
  {
    var v := Next(w, e);
    if e.Restore? {
      assert BackupFits(w, e.ref);
    }
    forall key | key in v.db.keys ensures RowOwned(v, key) {
      assert RowOwned(w, key);
    }
    forall key | key in v.workers ensures WorkerOwned(v, key) {
      assert WorkerOwned(w, key);
    }
    forall q | q in v.requests ensures RequestOwned(v, q) {
      assert RequestOwned(w, q);
    }
  }

  lemma OwnedKept(w: World, e: Event)
    requires Owned(w) && Inv(w) && Enabled(w, e)
    ensures Owned(Next(w, e))
  {
    if LocalEvent(e) {
      LocalEventOwned(w, e);
    } else if e.PushLimits? {
      PushOwned(w, e);
    } else if e.CreateKey? {
      CreateKeyOwned(w, e);
    } else if e.StoreKey? {
      StoreKeyOwned(w, e);
    } else if e.Backup? || e.Restore? {
      BackupOwned(w, e);
    } else if e.Admin? || e.Check? || e.GiveUp? || e.Delete? {
      OtherEventOwned(w, e);
    } else {
      TableEventOwned(w, e);
    }
  }

  /** In every reachable state the readings that reached a key name its owner. */
  lemma {:induction false} OwnersOfRuns(w: World, trace: seq<Event>)
    requires Owned(w) && Inv(w) && IsRun(w, trace)
    ensures Owned(After(w, trace))
    decreases |trace|
  {
    if trace != [] {
      StepKeeps(w, trace[0]);
      OwnedKept(w, trace[0]);
      OwnersOfRuns(Next(w, trace[0]), trace[1..]);
    }
  }

  // ----- When a key agrees -----

  /** Two limits leave the same on a key whose owner, if there is one, holds the widest window. */
  ghost predicate SameOnKey(owner: string, a: Limits, b: Limits) {
    && a.models == b.models && a.tpm == b.tpm && a.rpm == b.rpm
    && multiset(EffectiveWindows(LiteLLM.KeyHalf(owner, a).quotas)) == multiset(EffectiveWindows(LiteLLM.KeyHalf(owner, b).quotas))
  }

  /** The key enforces what the limits leave on it, and is bound to the owner who holds the rest. */
  ghost predicate Carries(k: Gateway.Key, owner: string, l: Limits) {
    && (owner != "" ==> k.owner == owner)
    && k.models == l.models && k.tpm == l.tpm && k.rpm == l.rpm
    && multiset(LiteLLM.Plains(LiteLLM.KeyWindows(k))) == multiset(EffectiveWindows(LiteLLM.KeyHalf(owner, l).quotas))
  }

  /** The key of a row exists in the gateway, and its row is not marked. */
  predicate IsLive(w: World, key: int) {
    key in w.db.keys && w.db.keys[key].missingSince.None? && w.db.keys[key].ref in w.keys
  }

  /** Windows as the profile form lets them be: distinct periods it knows. */
  ghost predicate FormWindows(db: Db, p: int) {
    var ws := EffectiveWindows(WindowsOf(db, p));
    DistinctPeriods(ws) && forall x :: x in ws ==> ValidPeriod(x.period)
  }

  /**
   * Exactly when a key carries some limits: if and only if the push that last
   * landed on it left the same there, whether or not it was recorded.
   */
  lemma CarriesExactly(w: World, trace: seq<Event>, key: int, l: Limits)
    requires Init(w) && IsRun(w, trace)
    requires var v := After(w, trace); key in v.db.keys && v.db.keys[key].ref in v.keys
    ensures var v := After(w, trace);
            var k := v.db.keys[key];
            && k.userId in v.db.users && k.ref in v.pushed && v.pushed[k.ref].owner == OwnerIdOf(v, k.userId)
            && (Carries(v.keys[k.ref], OwnerIdOf(v, k.userId), l) <==>
                SameOnKey(OwnerIdOf(v, k.userId), v.pushed[k.ref].limits, l))
  {
    RunKeeps(w, trace);
    OwnersOfRuns(w, trace);
    var v := After(w, trace);
    var ref := v.db.keys[key].ref;
    assert RowOwned(v, key) && KeyFits(v, ref);
    assert Enforces(v.keys[ref], v.pushed[ref].owner, v.pushed[ref].limits);
  }

  /** Limits equal up to the order of their windows leave the same on a key, if the windows are the form's. */
  lemma SameLimitsOnKey(owner: string, a: Limits, b: Limits)
    requires SameLimits(a, b)
    requires DistinctPeriods(EffectiveWindows(b.quotas)) && forall x :: x in EffectiveWindows(b.quotas) ==> ValidPeriod(x.period)
    ensures SameOnKey(owner, a, b)
  {
    var x, y := EffectiveWindows(b.quotas), EffectiveWindows(a.quotas);
    EffectiveWindowsOrderFree(a.quotas, b.quotas);
    DistinctValidRanks(x);
    SplitOrderFree(x, y);
    EffectiveWindowsOrderFree(LiteLLM.KeyHalf(owner, a).quotas, LiteLLM.KeyHalf(owner, b).quotas);
  }

  /** What a push that read the profile at its current revision leaves on the key is current, recorded or not. */
  lemma LandedCurrentCarries(w: World, trace: seq<Event>, key: int, p: int)
    requires Init(w) && IsRun(w, trace)
    requires var v := After(w, trace);
             && key in v.db.keys && v.db.keys[key].ref in v.keys && p in v.db.profiles && FormWindows(v.db, p)
             && v.db.keys[key].ref in v.pushed && v.pushed[v.db.keys[key].ref].profile == p
             && v.pushed[v.db.keys[key].ref].rev == v.db.profiles[p].limitsRev
    ensures var v := After(w, trace);
            var k := v.db.keys[key];
            k.userId in v.db.users && Carries(v.keys[k.ref], OwnerIdOf(v, k.userId), LimitsOf(v.db, p))
  {
    RunKeeps(w, trace);
    var v := After(w, trace);
    var k := v.db.keys[key];
    assert KeyFits(v, k.ref);
    CarriesExactly(w, trace, key, LimitsOf(v.db, p));
    SameLimitsOnKey(OwnerIdOf(v, k.userId), v.pushed[k.ref].limits, LimitsOf(v.db, p));
  }

  /** The key's row says it was last pushed from profile p at its current revision. */
  ghost predicate NamesCurrent(w: World, key: int, p: int) {
    && IsLive(w, key) && p in w.db.profiles
    && w.db.keys[key].syncedProfile == Some(p) && w.db.keys[key].syncedRev == Some(w.db.profiles[p].limitsRev)
  }

  /**
   * Freshness token, exactly: in every reachable state, a key whose row names the
   * current revision of p carries p's limits if and only if the push that last
   * landed left the same there; and it did if every push of the key is recorded.
   */
  lemma FreshnessToken(w: World, trace: seq<Event>, key: int, p: int)
    requires Init(w) && IsRun(w, trace) && NamesCurrent(After(w, trace), key, p) && FormWindows(After(w, trace).db, p)
    ensures var v := After(w, trace);
            var k := v.db.keys[key];
            && k.userId in v.db.users && k.ref in v.pushed
            && (Carries(v.keys[k.ref], OwnerIdOf(v, k.userId), LimitsOf(v.db, p)) <==>
                SameOnKey(OwnerIdOf(v, k.userId), v.pushed[k.ref].limits, LimitsOf(v.db, p)))
            && (k.ref !in v.unrecorded ==> Carries(v.keys[k.ref], OwnerIdOf(v, k.userId), LimitsOf(v.db, p)))
  {
    RunKeeps(w, trace);
    var v := After(w, trace);
    var k := v.db.keys[key];
    assert TableFits(v, key);
    CarriesExactly(w, trace, key, LimitsOf(v.db, p));
    if k.ref !in v.unrecorded {
      LandedCurrentCarries(w, trace, key, p);
    }
  }

  /** Whatever windows a profile has, a key with no unrecorded push enforces limits equal to them up to order. */
  lemma FreshUpToOrder(w: World, trace: seq<Event>, key: int, p: int)
    requires Init(w) && IsRun(w, trace) && NamesCurrent(After(w, trace), key, p)
    requires After(w, trace).db.keys[key].ref !in After(w, trace).unrecorded
    ensures var v := After(w, trace);
            var k := v.db.keys[key];
            && k.userId in v.db.users
            && exists l :: SameLimits(l, LimitsOf(v.db, p)) && Enforces(v.keys[k.ref], OwnerIdOf(v, k.userId), l)
  {
    RunKeeps(w, trace);
    OwnersOfRuns(w, trace);
    var v := After(w, trace);
    var ref := v.db.keys[key].ref;
    assert TableFits(v, key) && KeyFits(v, ref) && RowOwned(v, key);
    assert Enforces(v.keys[ref], v.pushed[ref].owner, v.pushed[ref].limits);
  }

  /** The profile the key's owner goes by, for a key that is neither expired nor pending. */
  ghost predicate Settled(w: World, key: int, p: int, now: Time) {
    && IsLive(w, key) && w.db.keys[key].userId in w.db.users && w.db.keys[key].expiresAt > now && !Pending(w.db, key, now)
    && EffectiveProfile(w.db, w.db.users[w.db.keys[key].userId]) == Some(p)
  }

  lemma SettledNamesCurrent(w: World, key: int, p: int, now: Time)
    requires Settled(w, key, p, now)
    ensures NamesCurrent(w, key, p)
  {
  }

  /**
   * Not pending means the gateway agrees, exactly: if and only if the push that
   * last landed left on the key what its owner's profile calls for. That is so
   * whenever no push of the key went unrecorded.
   */
  lemma NotPendingAgrees(w: World, trace: seq<Event>, key: int, p: int, now: Time)
    requires Init(w) && IsRun(w, trace) && Settled(After(w, trace), key, p, now) && FormWindows(After(w, trace).db, p)
    ensures var v := After(w, trace);
            var k := v.db.keys[key];
            && k.ref in v.pushed && p in v.db.profiles
            && (Carries(v.keys[k.ref], OwnerIdOf(v, k.userId), LimitsOf(v.db, p)) <==>
                SameOnKey(OwnerIdOf(v, k.userId), v.pushed[k.ref].limits, LimitsOf(v.db, p)))
            && (k.ref !in v.unrecorded ==> Carries(v.keys[k.ref], OwnerIdOf(v, k.userId), LimitsOf(v.db, p)))
  {
    SettledNamesCurrent(After(w, trace), key, p, now);
    FreshnessToken(w, trace, key, p);
  }

  // ----- Moving the owner back -----

  /** The key is up to date as far as the tables know, but does not carry its owner's limits. */
  ghost predicate Disagrees(w: World, key: int, now: Time) {
    && IsLive(w, key) && w.db.keys[key].userId in w.db.users
    && var user := w.db.keys[key].userId;
    var p := EffectiveProfile(w.db, w.db.users[user]);
    && p.Some? && p.value in w.db.profiles && Settled(w, key, p.value, now)
    && !Carries(w.keys[w.db.keys[key].ref], OwnerIdOf(w, user), LimitsOf(w.db, p.value))
  }

  /** An assignment without a deadline. */
  function MoveTo(user: int, p: int): Event {
    Admin(Assign(user, Some(p), None, None, false))
  }

  /**
   * From every reachable state: moving the owner to the profile a row still names
   * at its current revision makes the key agree by the tables, and it disagrees in
   * the gateway if and only if the push that last landed left something else.
   */
  lemma MovingBackDisagrees(w: World, trace: seq<Event>, key: int, p: int, now: Time)
    requires Init(w) && IsRun(w, trace) && NamesCurrent(After(w, trace), key, p)
    requires var v := After(w, trace);
             var k := v.db.keys[key];
             && k.expiresAt > now && k.userId in v.db.users
             && k.syncedName == Some(v.db.users[k.userId].name) && k.syncedEmail == Some(v.db.users[k.userId].email)
    ensures var v := After(w, trace);
            var k := v.db.keys[key];
            var e := MoveTo(k.userId, p);
            && k.ref in v.pushed && Enabled(v, e) && Settled(Next(v, e), key, p, now)
            && (Disagrees(Next(v, e), key, now) <==> !SameOnKey(OwnerIdOf(v, k.userId), v.pushed[k.ref].limits, LimitsOf(v.db, p)))
  {
    var v := After(w, trace);
    var k := v.db.keys[key];
    var r := Next(v, MoveTo(k.userId, p));
    CarriesExactly(w, trace, key, LimitsOf(v.db, p));
    assert r.db.users[k.userId].profileId == Some(p) && r.db.users[k.userId].sub == v.db.users[k.userId].sub;
    assert r.db.keys == v.db.keys && r.db.profiles == v.db.profiles && r.db.quotas == v.db.quotas;
    assert LimitsOf(r.db, p) == LimitsOf(v.db, p);
  }
}
