/**
 * The limit sync as a protocol: sync workers, key requests and admins act on
 * the tables and on the gateway one atomic step at a time, in any order.
 *
 * A key row remembers the profile and revision it was last pushed from. Here is
 * what every step of every actor keeps, so that the revision works as a
 * freshness token; what that comes to for a key is in Agreement.
 */
module Freshness {
  import opened Options
  import opened KeyProvider
  import opened Database
  import opened Profiles
  import Gateway
  import LiteLLM
  import RoundTrip
  import MissingKeys

  /** Limits as somebody read them: the revision first, the windows in a later step. */
  datatype Reading = Reading(owner: string, profile: int, rev: int, limits: Limits)

  /** How far a sync worker is with its key. */
  datatype Push =
    | Targeted(profileId: Option<int>)
    | RowRead(profile: int, row: Profile)
    | Loaded(reading: Reading)
    | Landed(reading: Reading)
    | Lost // it landed, but the answer said nothing of the kind

  datatype Worker = Worker(ref: Ref, sub: string, name: string, email: string, push: Push)

  /** How far a GenerateKey request is. */
  datatype Request =
    | ProfileRead(user: int, profile: int, row: Profile)
    | Ready(user: int, reading: Reading)
    | Created(user: int, reading: Reading, ref: Ref)

  /**
   * pushed, unrecorded, rowOf and used are history: the reading that last
   * reached each key, the keys whose last push is not in their row, the row
   * each ref was stored in, and every ref given out. prefix is the portal's
   * setting that names the people of this portal in the gateway.
   */
  datatype World = World(
    prefix: string, db: Db, keys: map<Ref, Gateway.Key>, backups: map<Ref, (Gateway.Key, Reading)>,
    workers: map<int, Worker>, requests: map<int, Request>,
    pushed: map<Ref, Reading>, unrecorded: set<Ref>, rowOf: map<Ref, int>, used: set<Ref>)

  datatype Event =
    // admins, logins, the expiry job, other key handlers
    | Admin(op: AdminOp)
    | Resync
    | Extend(key: int, until: Time)
    | DropRow(key: int)
    | Notice(key: int, user: int, now: Time)
    // the gateway, and whoever deletes keys there
    | Delete(ref: Ref)
    | Backup(ref: Ref)
    | Restore(ref: Ref)
    // the sync
    | Check(key: int, user: int, answer: MissingKeys.Answer, grace: int, asked: Time, now: Time)
    | Target(key: int, now: Time)
    | ReadRow(key: int)
    | ReadWindows(key: int, windows: seq<QuotaWindow>)
    | PushLimits(key: int, reported: bool)
    | Record(key: int)
    | GiveUp(key: int)
    | Fail(key: int, reason: string, now: Time)
    // key requests
    | Open(request: int, user: int, profile: int)
    | OpenWindows(request: int, windows: seq<QuotaWindow>)
    | CreateKey(request: int, ref: Ref, alias: string, reported: bool)
    | StoreKey(request: int, expiresAt: Time, name: string, email: string)
    | Abandon(request: int)

  function OwnerIdOf(w: World, user: int): string
    requires user in w.db.users
  {
    OwnerId(w.prefix, w.db.users[user].sub)
  }

  function Pushing(w: World, key: int): Option<Push> {
    if key in w.workers then Some(w.workers[key].push) else None
  }

  /** The row that holds the ref, if there is one, is marked missing. */
  predicate RowMarked(w: World, ref: Ref) {
    ref in w.rowOf && (w.rowOf[ref] in w.db.keys ==> w.db.keys[w.rowOf[ref]].missingSince.Some?)
  }

  ghost predicate Enabled(w: World, e: Event) {
    match e
    case Backup(ref) => ref in w.keys
    // Nothing puts limits on a key behind the portal's back, except that a key
    // the portal found missing may come back as it was at some earlier time.
    case Restore(ref) => ref in w.backups && RowMarked(w, ref)
    // A run checks the marked keys before its workers start.
    case Check(_, _, _, _, _, _) => w.workers == map[]
    case Target(key, now) => key !in w.workers && Pending(w.db, key, now)
    case ReadRow(key) =>
      && Pushing(w, key).Some? && w.workers[key].push.Targeted?
      && w.workers[key].push.profileId.Some? && w.workers[key].push.profileId.value in w.db.profiles
    case ReadWindows(key, windows) =>
      Pushing(w, key).Some? && w.workers[key].push.RowRead?
      && multiset(windows) == multiset(WindowsOf(w.db, w.workers[key].push.profile))
    case PushLimits(key, _) => Pushing(w, key).Some? && w.workers[key].push.Loaded? && w.workers[key].ref in w.keys
    case Record(key) => Pushing(w, key).Some? && w.workers[key].push.Landed?
    case GiveUp(key) => key in w.workers
    case Fail(key, _, _) => key in w.workers
    case Open(request, user, profile) => request !in w.requests && user in w.db.users && profile in w.db.profiles
    case OpenWindows(request, windows) =>
      request in w.requests && w.requests[request].ProfileRead? && w.requests[request].user in w.db.users
      && multiset(windows) == multiset(WindowsOf(w.db, w.requests[request].profile))
    case CreateKey(request, ref, _, _) => request in w.requests && w.requests[request].Ready? && ref !in w.used
    case StoreKey(request, _, _, _) =>
      request in w.requests && w.requests[request].Created? && w.requests[request].user in w.db.users
    case Abandon(request) => request in w.requests
    case _ => true
  }

  function TargetProfile(db: Db, key: int): Option<int>
    requires Stale(db, key)
  {
    EffectiveProfile(db, db.users[db.keys[key].userId])
  }

  function Updated(k: Gateway.Key, r: Reading): Gateway.Key {
    Gateway.PatchKey(k, LiteLLM.UpdatePayload(r.owner, LiteLLM.KeyHalf(r.owner, r.limits)))
  }

  function Issued(alias: string, r: Reading): Gateway.Key {
    Gateway.PatchKey(Gateway.BlankKey(alias), LiteLLM.CreatePayload(r.owner, LiteLLM.KeyHalf(r.owner, r.limits)))
  }

  function SetPush(w: World, key: int, push: Push): World
    requires key in w.workers
  {
    w.(workers := w.workers[key := w.workers[key].(push := push)])
  }

  ghost function Next(w: World, e: Event): World
    requires Enabled(w, e)
  {
    match e
    case Admin(op) => w.(db := Apply(w.db, op))
    case Resync => w.(db := MarkAllLimitsPending(w.db))
    case Extend(key, until) => w.(db := UpdateAPIKeyExpiry(w.db, key, until))
    case DropRow(key) => w.(db := DeleteAPIKey(w.db, key))
    case Notice(key, user, now) => w.(db := MarkKeyMissing(w.db, key, user, now))
    case Delete(ref) => w.(keys := w.keys - {ref})
    case Backup(ref) =>
      if ref in w.pushed then w.(backups := w.backups[ref := (w.keys[ref], w.pushed[ref])]) else w
    case Restore(ref) =>
      w.(keys := w.keys[ref := w.backups[ref].0], pushed := w.pushed[ref := w.backups[ref].1])
    case Check(key, user, answer, grace, asked, now) => w.(db := MissingKeys.Checked(w.db, key, user, answer, grace, asked, now))
    case Target(key, now) =>
      var k := w.db.keys[key];
      var u := w.db.users[k.userId];
      w.(workers := w.workers[key := Worker(k.ref, u.sub, u.name, u.email, Targeted(TargetProfile(w.db, key)))])
    case ReadRow(key) =>
      var p := w.workers[key].push.profileId.value;
      SetPush(w, key, RowRead(p, w.db.profiles[p]))
    case ReadWindows(key, windows) =>
      var push := w.workers[key].push;
      SetPush(w, key, Loaded(Reading(OwnerId(w.prefix, w.workers[key].sub), push.profile, push.row.limitsRev, RowLimits(push.row, windows))))
    case PushLimits(key, reported) =>
      var ref, r := w.workers[key].ref, w.workers[key].push.reading;
      w.(keys := w.keys[ref := Updated(w.keys[ref], r)], pushed := w.pushed[ref := r], unrecorded := w.unrecorded + {ref},
         workers := w.workers[key := w.workers[key].(push := if reported then Landed(r) else Lost)])
    case Record(key) =>
      var k := w.workers[key];
      var r := k.push.reading;
      w.(db := MarkLimitsSynced(w.db, key, r.profile, r.rev, k.name, k.email),
         unrecorded := w.unrecorded - {k.ref}, workers := w.workers - {key})
    case GiveUp(key) => w.(workers := w.workers - {key})
    case Fail(key, reason, now) => w.(db := MarkLimitSyncFailed(w.db, key, reason, now), workers := w.workers - {key})
    case Open(request, user, profile) =>
      w.(requests := w.requests[request := ProfileRead(user, profile, w.db.profiles[profile])])
    case OpenWindows(request, windows) =>
      var q := w.requests[request];
      w.(requests := w.requests[request :=
           Ready(q.user, Reading(OwnerIdOf(w, q.user), q.profile, q.row.limitsRev, RowLimits(q.row, windows)))])
    case CreateKey(request, ref, alias, reported) =>
      var q := w.requests[request];
      w.(keys := w.keys[ref := Issued(alias, q.reading)], pushed := w.pushed[ref := q.reading], used := w.used + {ref},
         requests := if reported then w.requests[request := Created(q.user, q.reading, ref)] else w.requests - {request})
    case StoreKey(request, expiresAt, name, email) =>
      var q := w.requests[request];
      var row := NewKeyRow(q.user, q.ref, expiresAt, q.reading.profile, q.reading.rev, name, email);
      w.(db := ReplaceAPIKey(w.db, row).value, rowOf := w.rowOf[q.ref := w.db.lastKey + 1], requests := w.requests - {request})
    case Abandon(request) => w.(requests := w.requests - {request})
  }

  ghost predicate Init(w: World) {
    && ProfileIds(w.db) && w.db.keys == map[]
    && w.keys == map[] && w.backups == map[] && w.workers == map[] && w.requests == map[]
    && w.pushed == map[] && w.unrecorded == {} && w.rowOf == map[] && w.used == {}
  }

  /** trace is a run: every event is enabled when its turn comes. */
  ghost predicate IsRun(w: World, trace: seq<Event>)
    decreases |trace|
  {
    trace == [] || (Enabled(w, trace[0]) && IsRun(Next(w, trace[0]), trace[1..]))
  }

  ghost function After(w: World, trace: seq<Event>): World
    requires IsRun(w, trace)
    decreases |trace|
  {
    if trace == [] then w else After(Next(w, trace[0]), trace[1..])
  }

  // ----- The invariant -----

  /** A profile row read earlier: if its revision is still current, so are its fields. */
  ghost predicate RowFits(db: Db, profile: int, row: Profile) {
    && profile <= db.lastProfile
    && (profile in db.profiles ==>
          var cur := db.profiles[profile];
          && row.limitsRev <= cur.limitsRev
          && (row.limitsRev == cur.limitsRev ==> row.models == cur.models && row.tpm == cur.tpm && row.rpm == cur.rpm))
  }

  /** Limits read earlier: if their revision is still current, so are they, up to window order. */
  ghost predicate Fits(db: Db, r: Reading) {
    && r.profile <= db.lastProfile
    && (r.profile in db.profiles ==>
          && r.rev <= db.profiles[r.profile].limitsRev
          && (r.rev == db.profiles[r.profile].limitsRev ==> SameLimits(r.limits, LimitsOf(db, r.profile))))
  }

  /** The key enforces its half of the limits, and is bound to the owner of the other half. */
  predicate Enforces(k: Gateway.Key, owner: string, l: Limits) {
    && (owner != "" ==> k.owner == owner)
    && k.models == l.models && k.tpm == l.tpm && k.rpm == l.rpm
    && LiteLLM.Plains(LiteLLM.KeyWindows(k)) == EffectiveWindows(LiteLLM.KeyHalf(owner, l).quotas)
  }

  ghost predicate KeyFits(w: World, ref: Ref)
    requires ref in w.keys
  {
    && ref in w.used && ref in w.pushed
    && Fits(w.db, w.pushed[ref])
  }

  ghost predicate BackupFits(w: World, ref: Ref)
    requires ref in w.backups
  {
    && ref in w.used
    && Fits(w.db, w.backups[ref].1)
  }

  /** A row that is not marked and has no unrecorded push names the reading its key last received. */
  ghost predicate TableFits(w: World, key: int)
    requires key in w.db.keys
  {
    var k := w.db.keys[key];
    && k.ref in w.rowOf && w.rowOf[k.ref] == key
    && (k.missingSince.None? && k.ref in w.keys && k.ref in w.pushed && k.ref !in w.unrecorded
        && k.syncedProfile.Some? && k.syncedRev.Some?
        ==> k.syncedProfile.value == w.pushed[k.ref].profile && k.syncedRev.value == w.pushed[k.ref].rev)
  }

  ghost predicate WorkerFits(w: World, key: int)
    requires key in w.workers
  {
    var k := w.workers[key];
    && k.ref in w.rowOf && w.rowOf[k.ref] == key
    && (key in w.db.keys ==> w.db.keys[key].ref == k.ref)
    && match k.push
       case Targeted(p) => true
       case Lost => true
       case RowRead(p, row) => RowFits(w.db, p, row)
       case Loaded(r) => Fits(w.db, r)
       case Landed(r) =>
         Fits(w.db, r) && (key in w.db.keys && w.db.keys[key].missingSince.None? && k.ref in w.keys
                           ==> k.ref in w.pushed && w.pushed[k.ref] == r)
  }

  ghost predicate RequestFits(w: World, request: int)
    requires request in w.requests
  {
    match w.requests[request]
    case ProfileRead(_, p, row) => RowFits(w.db, p, row)
    case Ready(_, r) => Fits(w.db, r)
    case Created(_, r, ref) =>
      && Fits(w.db, r) && ref in w.used && ref !in w.rowOf && ref !in w.unrecorded
      && (ref in w.keys ==> ref in w.pushed && w.pushed[ref] == r)
      && forall q :: q in w.requests && q != request && w.requests[q].Created? ==> w.requests[q].ref != ref
  }

  ghost predicate Inv(w: World) {
    && ProfileIds(w.db)
    && (forall ref :: ref in w.rowOf ==> ref in w.used && w.rowOf[ref] <= w.db.lastKey)
    && w.unrecorded <= w.rowOf.Keys
    && (forall ref :: ref in w.keys ==> KeyFits(w, ref))
    && (forall ref :: ref in w.backups ==> BackupFits(w, ref))
    && (forall key :: key in w.db.keys ==> TableFits(w, key))
    && (forall key :: key in w.workers ==> WorkerFits(w, key))
    && (forall q :: q in w.requests ==> RequestFits(w, q))
  }

  /** Each key, and each backup of one, enforces the limits it last received. */
  ghost predicate Enforced(w: World) {
    && (forall ref :: ref in w.keys && ref in w.pushed ==> Enforces(w.keys[ref], w.pushed[ref].owner, w.pushed[ref].limits))
    && (forall ref :: ref in w.backups ==> Enforces(w.backups[ref].0, w.backups[ref].1.owner, w.backups[ref].1.limits))
  }

  lemma EnforcedKept(w: World, e: Event)
    requires Enforced(w) && Enabled(w, e)
    ensures Enforced(Next(w, e))
  {
    if e.PushLimits? {
      PushEnforces(w, e);
    } else if e.CreateKey? {
      CreateEnforces(w, e);
    }
  }

  lemma PushEnforces(w: World, e: Event)
    requires Enforced(w) && e.PushLimits? && Enabled(w, e)
    ensures Enforced(Next(w, e))
  {
    var k := w.workers[e.key];
    UpdatedEnforces(w.keys[k.ref], k.push.reading);
    ReceivedEnforces(w, k.ref, Updated(w.keys[k.ref], k.push.reading), k.push.reading);
  }

  lemma CreateEnforces(w: World, e: Event)
    requires Enforced(w) && e.CreateKey? && Enabled(w, e)
    ensures Enforced(Next(w, e))
  {
    var r := w.requests[e.request].reading;
    IssuedEnforces(e.alias, r);
    ReceivedEnforces(w, e.ref, Issued(e.alias, r), r);
  }

  lemma ReceivedEnforces(w: World, ref: Ref, k: Gateway.Key, r: Reading)
    requires Enforced(w) && Enforces(k, r.owner, r.limits)
    ensures Enforced(w.(keys := w.keys[ref := k], pushed := w.pushed[ref := r]))
  {
  }

  lemma UpdatedEnforces(k: Gateway.Key, r: Reading)
    ensures Enforces(Updated(k, r), r.owner, r.limits)
  {
    RoundTrip.KeyWindowsWritten(k, r.owner, LiteLLM.KeyHalf(r.owner, r.limits));
  }

  lemma IssuedEnforces(alias: string, r: Reading)
    ensures Enforces(Issued(alias, r), r.owner, r.limits)
  {
    RoundTrip.KeyWindowsCreated(alias, r.owner, LiteLLM.KeyHalf(r.owner, r.limits));
  }

  // ----- Steps on the tables alone -----

  /** Rows only go, get marked, or forget what they were pushed with. */
  ghost predicate Quieter(a: Db, b: Db) {
    && a.lastKey == b.lastKey
    && forall k :: k in b.keys ==>
        && k in a.keys && a.keys[k].ref == b.keys[k].ref
        && (b.keys[k].missingSince.None? ==> a.keys[k].missingSince.None?)
        && (b.keys[k].syncedProfile.Some? && b.keys[k].syncedRev.Some?
            ==> b.keys[k].syncedProfile == a.keys[k].syncedProfile && b.keys[k].syncedRev == a.keys[k].syncedRev)
  }

  lemma FitsLater(a: Db, b: Db, r: Reading)
    requires Evolves(a, b) && Fits(a, r)
    ensures Fits(b, r)
  {
  }

  lemma RowFitsLater(a: Db, b: Db, profile: int, row: Profile)
    requires Evolves(a, b) && RowFits(a, profile, row)
    ensures RowFits(b, profile, row)
  {
  }

  lemma WorkerFitsLater(w: World, db: Db, key: int)
    requires Evolves(w.db, db) && Quieter(w.db, db) && key in w.workers && WorkerFits(w, key)
    ensures WorkerFits(w.(db := db), key)
  {
    match w.workers[key].push
    case Targeted(_) =>
    case Lost =>
    case RowRead(p, row) => RowFitsLater(w.db, db, p, row);
    case Loaded(r) => FitsLater(w.db, db, r);
    case Landed(r) => FitsLater(w.db, db, r);
  }

  lemma RequestFitsLater(w: World, db: Db, q: int)
    requires Evolves(w.db, db) && q in w.requests && RequestFits(w, q)
    ensures RequestFits(w.(db := db), q)
  {
    match w.requests[q]
    case ProfileRead(_, p, row) => RowFitsLater(w.db, db, p, row);
    case Ready(_, r) => FitsLater(w.db, db, r);
    case Created(_, r, _) => FitsLater(w.db, db, r);
  }

  lemma TableStepKeeps(w: World, db: Db)
    requires Inv(w) && Evolves(w.db, db) && ProfileIds(db) && Quieter(w.db, db)
    ensures Inv(w.(db := db))
  {
    var v := w.(db := db);
    forall ref | ref in v.keys ensures KeyFits(v, ref) {
      assert KeyFits(w, ref);
      FitsLater(w.db, db, w.pushed[ref]);
    }
    forall ref | ref in v.backups ensures BackupFits(v, ref) {
      assert BackupFits(w, ref);
      FitsLater(w.db, db, w.backups[ref].1);
    }
    forall key | key in v.db.keys ensures TableFits(v, key) {
      assert TableFits(w, key);
    }
    forall key | key in v.workers ensures WorkerFits(v, key) {
      WorkerFitsLater(w, db, key);
    }
    forall q | q in v.requests ensures RequestFits(v, q) {
      RequestFitsLater(w, db, q);
    }
  }

  predicate TableEvent(e: Event) {
    e.Admin? || e.Resync? || e.Extend? || e.DropRow? || e.Notice?
  }

  lemma TableEventKeeps(w: World, e: Event)
    requires Inv(w) && TableEvent(e)
    ensures Inv(Next(w, e))
  {
    var db := Next(w, e).db;
    if e.Admin? {
      OpEvolves(w.db, e.op);
      MissingKeys.AdminOpKeepsKeys(w.db, e.op);
    } else {
      SameProfilesEvolve(w.db, db);
    }
    TableStepKeeps(w, db);
  }

  /** A key found again forgets its revision, so nothing is claimed of it until it is pushed. */
  lemma FoundKeeps(w: World, db: Db, key: int)
    requires Inv(w) && w.workers == map[] && key in w.db.keys
    requires db.profiles == w.db.profiles && db.quotas == w.db.quotas
    requires db.lastProfile == w.db.lastProfile && db.lastKey == w.db.lastKey
    requires db.keys == w.db.keys[key := w.db.keys[key].(missingSince := None, syncedRev := None)]
    ensures Inv(w.(db := db))
  {
    var v := w.(db := db);
    SameProfilesEvolve(w.db, db);
    forall ref | ref in v.keys ensures KeyFits(v, ref) {
      assert KeyFits(w, ref);
      FitsLater(w.db, db, w.pushed[ref]);
    }
    forall ref | ref in v.backups ensures BackupFits(v, ref) {
      assert BackupFits(w, ref);
      FitsLater(w.db, db, w.backups[ref].1);
    }
    forall k | k in v.db.keys ensures TableFits(v, k) {
      assert TableFits(w, k);
    }
    forall q | q in v.requests ensures RequestFits(v, q) {
      RequestFitsLater(w, db, q);
    }
  }

  lemma CheckKeeps(w: World, e: Event)
    requires Inv(w) && e.Check? && Enabled(w, e)
    ensures Inv(Next(w, e))
  {
    var db := Next(w, e).db;
    if e.answer == MissingKeys.Has && e.key in w.db.keys && w.db.keys[e.key].missingSince.Some? {
      FoundKeeps(w, db, e.key);
    } else {
      SameProfilesEvolve(w.db, db);
      TableStepKeeps(w, db);
    }
  }

  // ----- Steps of one worker or one request -----

  lemma WorkerStepKeeps(w: World, workers: map<int, Worker>)
    requires Inv(w)
    requires forall key :: key in workers ==>
               (key in w.workers && workers[key] == w.workers[key]) || WorkerFits(w.(workers := workers), key)
    ensures Inv(w.(workers := workers))
  {
    var v := w.(workers := workers);
    forall key | key in v.workers ensures WorkerFits(v, key) {
      if key in w.workers && workers[key] == w.workers[key] {
        assert WorkerFits(w, key);
      }
    }
    assert forall ref :: ref in v.keys ==> KeyFits(w, ref) ==> KeyFits(v, ref);
    assert forall ref :: ref in v.backups ==> BackupFits(w, ref) ==> BackupFits(v, ref);
    assert forall key :: key in v.db.keys ==> TableFits(w, key) ==> TableFits(v, key);
    assert forall q :: q in v.requests ==> RequestFits(w, q) ==> RequestFits(v, q);
  }

  lemma FailKeeps(w: World, e: Event)
    requires Inv(w) && e.Fail? && Enabled(w, e)
    ensures Inv(Next(w, e))
  {
    var db := MarkLimitSyncFailed(w.db, e.key, e.reason, e.now);
    SameProfilesEvolve(w.db, db);
    TableStepKeeps(w, db);
    WorkerStepKeeps(w.(db := db), w.workers - {e.key});
  }

  predicate WorkerEvent(e: Event) {
    e.Target? || e.ReadRow? || e.ReadWindows? || e.GiveUp?
  }

  lemma WorkerEventKeeps(w: World, e: Event)
    requires Inv(w) && WorkerEvent(e) && Enabled(w, e)
    ensures Inv(Next(w, e))
  {
    var v := Next(w, e);
    if e.key in w.workers {
      assert WorkerFits(w, e.key);
    }
    if e.Target? {
      assert TableFits(w, e.key);
    }
    WorkerStepKeeps(w, v.workers);
  }

  predicate RequestEvent(e: Event) {
    e.Open? || e.OpenWindows? || e.Abandon?
  }

  lemma MovedRequestFits(w: World, e: Event, q: int)
    requires Inv(w) && RequestEvent(e) && Enabled(w, e) && q in Next(w, e).requests
    ensures RequestFits(Next(w, e), q)
  {
    assert q in w.requests ==> RequestFits(w, q);
  }

  lemma RequestEventKeeps(w: World, e: Event)
    requires Inv(w) && RequestEvent(e) && Enabled(w, e)
    ensures Inv(Next(w, e))
  {
    var v := Next(w, e);
    forall q | q in v.requests ensures RequestFits(v, q) {
      MovedRequestFits(w, e, q);
    }
    assert v == w.(requests := v.requests);
    RequestsReplaced(w, v.requests);
  }

  // ----- Steps that reach the gateway -----

  /** Refs tell rows apart, so a push concerns one row, one worker and no request. */
  lemma PushKeeps(w: World, e: Event)
    requires Inv(w) && e.PushLimits? && Enabled(w, e)
    ensures Inv(Next(w, e))
  {
    var v := Next(w, e);
    var ref, r := w.workers[e.key].ref, w.workers[e.key].push.reading;
    assert WorkerFits(w, e.key);
    forall k | k in v.keys ensures KeyFits(v, k) {
      assert KeyFits(w, k);
    }
    forall k | k in v.backups ensures BackupFits(v, k) {
      assert BackupFits(w, k);
    }
    forall k | k in v.db.keys ensures TableFits(v, k) {
      assert TableFits(w, k);
    }
    forall k | k in v.workers ensures WorkerFits(v, k) {
      assert WorkerFits(w, k);
    }
    forall q | q in v.requests ensures RequestFits(v, q) {
      assert RequestFits(w, q);
    }
  }

  /** Keys and backups do not mind a step that leaves the gateway and the profiles alone. */
  lemma GatewaySideStays(w: World, v: World)
    requires Inv(w) && v.keys == w.keys && v.backups == w.backups && v.pushed == w.pushed && v.used == w.used
    requires v.db.profiles == w.db.profiles && v.db.quotas == w.db.quotas && v.db.lastProfile == w.db.lastProfile
    ensures forall k :: k in v.keys ==> KeyFits(v, k)
    ensures forall k :: k in v.backups ==> BackupFits(v, k)
  {
    forall k | k in v.keys ensures KeyFits(v, k) {
      assert KeyFits(w, k);
    }
    forall k | k in v.backups ensures BackupFits(v, k) {
      assert BackupFits(w, k);
    }
  }

  lemma RecordedRowFits(w: World, e: Event, k: int)
    requires Inv(w) && e.Record? && Enabled(w, e) && k in Next(w, e).db.keys
    ensures TableFits(Next(w, e), k)
  {
    assert WorkerFits(w, e.key) && TableFits(w, k);
  }

  lemma WorkerFitsAfterRecord(w: World, e: Event, k: int)
    requires Inv(w) && e.Record? && Enabled(w, e) && k in Next(w, e).workers
    ensures WorkerFits(Next(w, e), k)
  {
    assert WorkerFits(w, k);
  }

  lemma RecordKeeps(w: World, e: Event)
    requires Inv(w) && e.Record? && Enabled(w, e)
    ensures Inv(Next(w, e))
  {
    var v := Next(w, e);
    GatewaySideStays(w, v);
    forall k | k in v.db.keys ensures TableFits(v, k) {
      RecordedRowFits(w, e, k);
    }
    forall k | k in v.workers ensures WorkerFits(v, k) {
      WorkerFitsAfterRecord(w, e, k);
    }
    forall q | q in v.requests ensures RequestFits(v, q) {
      assert RequestFits(w, q);
    }
  }

  /** A ref never given out before is in no row, no worker and no other request. */
  lemma NewKeyKeeps(w: World, ref: Ref, k: Gateway.Key, r: Reading)
    requires Inv(w) && ref !in w.used && Fits(w.db, r)
    ensures Inv(w.(keys := w.keys[ref := k], pushed := w.pushed[ref := r], used := w.used + {ref}))
  {
    var v := w.(keys := w.keys[ref := k], pushed := w.pushed[ref := r], used := w.used + {ref});
    forall k | k in v.keys ensures KeyFits(v, k) {
      assert k in w.keys ==> KeyFits(w, k);
    }
    forall k | k in v.backups ensures BackupFits(v, k) {
      assert BackupFits(w, k);
    }
    forall k | k in v.db.keys ensures TableFits(v, k) {
      assert TableFits(w, k);
    }
    forall k | k in v.workers ensures WorkerFits(v, k) {
      assert WorkerFits(w, k);
    }
    forall q | q in v.requests ensures RequestFits(v, q) {
      assert RequestFits(w, q);
    }
  }

  lemma CreatedRequestFits(w: World, e: Event, q: int)
    requires Inv(w) && e.CreateKey? && Enabled(w, e) && q in Next(w, e).requests
    ensures RequestFits(Next(w, e), q)
  {
    assert RequestFits(w, e.request) && (q in w.requests ==> RequestFits(w, q));
    forall p | p in w.requests && w.requests[p].Created? ensures w.requests[p].ref != e.ref {
      assert RequestFits(w, p);
    }
  }

  lemma CreateKeyKeeps(w: World, e: Event)
    requires Inv(w) && e.CreateKey? && Enabled(w, e)
    ensures Inv(Next(w, e))
  {
    var v := Next(w, e);
    var r := w.requests[e.request].reading;
    assert RequestFits(w, e.request);
    NewKeyKeeps(w, e.ref, Issued(e.alias, r), r);
    var w1 := w.(keys := v.keys, pushed := v.pushed, used := v.used);
    forall q | q in v.requests ensures RequestFits(v, q) {
      CreatedRequestFits(w, e, q);
    }
    assert v == w1.(requests := v.requests);
    RequestsReplaced(w1, v.requests);
  }

  lemma RequestsReplaced(w: World, requests: map<int, Request>)
    requires Inv(w) && forall q :: q in requests ==> RequestFits(w.(requests := requests), q)
    ensures Inv(w.(requests := requests))
  {
    var v := w.(requests := requests);
    assert forall ref :: ref in v.keys ==> KeyFits(w, ref) ==> KeyFits(v, ref);
    assert forall ref :: ref in v.backups ==> BackupFits(w, ref) ==> BackupFits(v, ref);
    assert forall key :: key in v.db.keys ==> TableFits(w, key) ==> TableFits(v, key);
    assert forall key :: key in v.workers ==> WorkerFits(w, key) ==> WorkerFits(v, key);
  }

  lemma StoredRowFits(w: World, e: Event, k: int)
    requires Inv(w) && e.StoreKey? && Enabled(w, e) && k in Next(w, e).db.keys
    ensures TableFits(Next(w, e), k)
  {
    assert RequestFits(w, e.request);
    if k != Next(w, e).db.lastKey {
      assert TableFits(w, k);
    }
  }

  lemma WorkerFitsAfterStore(w: World, e: Event, k: int)
    requires Inv(w) && e.StoreKey? && Enabled(w, e) && k in Next(w, e).workers
    ensures WorkerFits(Next(w, e), k)
  {
    assert RequestFits(w, e.request) && WorkerFits(w, k);
  }

  lemma RequestFitsAfterStore(w: World, e: Event, q: int)
    requires Inv(w) && e.StoreKey? && Enabled(w, e) && q in Next(w, e).requests
    ensures RequestFits(Next(w, e), q)
  {
    assert RequestFits(w, e.request) && RequestFits(w, q);
  }

  lemma StoreKeyKeeps(w: World, e: Event)
    requires Inv(w) && e.StoreKey? && Enabled(w, e)
    ensures Inv(Next(w, e))
  {
    var v := Next(w, e);
    assert RequestFits(w, e.request);
    GatewaySideStays(w, v);
    forall k | k in v.db.keys ensures TableFits(v, k) {
      StoredRowFits(w, e, k);
    }
    forall k | k in v.workers ensures WorkerFits(v, k) {
      WorkerFitsAfterStore(w, e, k);
    }
    forall q | q in v.requests ensures RequestFits(v, q) {
      RequestFitsAfterStore(w, e, q);
    }
  }

  lemma DeleteKeeps(w: World, ref: Ref)
    requires Inv(w)
    ensures Inv(w.(keys := w.keys - {ref}))
  {
    var v := w.(keys := w.keys - {ref});
    assert forall k :: k in v.keys ==> KeyFits(w, k) ==> KeyFits(v, k);
    assert forall k :: k in v.backups ==> BackupFits(w, k) ==> BackupFits(v, k);
    assert forall k :: k in v.db.keys ==> TableFits(w, k) ==> TableFits(v, k);
    assert forall k :: k in v.workers ==> WorkerFits(w, k) ==> WorkerFits(v, k);
    assert forall q :: q in v.requests ==> RequestFits(w, q) ==> RequestFits(v, q);
  }

  lemma BackupKeeps(w: World, ref: Ref)
    requires Inv(w) && ref in w.keys && ref in w.pushed
    ensures Inv(w.(backups := w.backups[ref := (w.keys[ref], w.pushed[ref])]))
  {
    var v := w.(backups := w.backups[ref := (w.keys[ref], w.pushed[ref])]);
    assert KeyFits(w, ref);
    assert forall k :: k in v.keys ==> KeyFits(w, k) ==> KeyFits(v, k);
    assert forall k :: k in w.backups ==> BackupFits(w, k) ==> k == ref || BackupFits(v, k);
    assert forall k :: k in v.db.keys ==> TableFits(w, k) ==> TableFits(v, k);
    assert forall k :: k in v.workers ==> WorkerFits(w, k) ==> WorkerFits(v, k);
    assert forall q :: q in v.requests ==> RequestFits(w, q) ==> RequestFits(v, q);
  }

  lemma RestoreKeeps(w: World, ref: Ref)
    requires Inv(w) && ref in w.backups && RowMarked(w, ref)
    ensures Inv(w.(keys := w.keys[ref := w.backups[ref].0], pushed := w.pushed[ref := w.backups[ref].1]))
  {
    var v := w.(keys := w.keys[ref := w.backups[ref].0], pushed := w.pushed[ref := w.backups[ref].1]);
    assert BackupFits(w, ref);
    forall k | k in v.keys ensures KeyFits(v, k) {
      assert k in w.keys ==> KeyFits(w, k);
    }
    assert forall k :: k in v.backups ==> BackupFits(w, k) ==> BackupFits(v, k);
    forall k | k in v.db.keys ensures TableFits(v, k) {
      assert TableFits(w, k);
    }
    forall k | k in v.workers ensures WorkerFits(v, k) {
      assert WorkerFits(w, k);
    }
    forall q | q in v.requests ensures RequestFits(v, q) {
      assert RequestFits(w, q);
    }
  }

  /** Every step of every actor keeps the invariant, ... */
  lemma StepKeeps(w: World, e: Event)
    requires Inv(w) && Enabled(w, e)
    ensures Inv(Next(w, e))
  {
    if TableEvent(e) {
      TableEventKeeps(w, e);
    } else if WorkerEvent(e) {
      WorkerEventKeeps(w, e);
    } else if RequestEvent(e) {
      RequestEventKeeps(w, e);
    } else {
      match e
      case Delete(ref) => DeleteKeeps(w, ref);
      case Backup(ref) =>
        assert KeyFits(w, ref);
        BackupKeeps(w, ref);
      case Restore(ref) => RestoreKeeps(w, ref);
      case Check(_, _, _, _, _, _) => CheckKeeps(w, e);
      case PushLimits(_, _) => PushKeeps(w, e);
      case Record(_) => RecordKeeps(w, e);
      case Fail(_, _, _) => FailKeeps(w, e);
      case CreateKey(_, _, _, _) => CreateKeyKeeps(w, e);
      case StoreKey(_, _, _, _) => StoreKeyKeeps(w, e);
    }
  }

  /** ... so every run does. */
  lemma {:induction false} RunKeeps(w: World, trace: seq<Event>)
    requires Inv(w) && Enforced(w) && IsRun(w, trace)
    ensures Inv(After(w, trace)) && Enforced(After(w, trace))
    decreases |trace|
  {
    if trace != [] {
      StepKeeps(w, trace[0]);
      EnforcedKept(w, trace[0]);
      RunKeeps(Next(w, trace[0]), trace[1..]);
    }
  }

  // ----- Runs -----

  ghost predicate Goes(w: World, e: Event, v: World) {
    Enabled(w, e) && Next(w, e) == v
  }

  /** Some run leads from w to v. */
  ghost predicate Reaches(w: World, v: World) {
    exists trace :: IsRun(w, trace) && After(w, trace) == v
  }

  lemma Prepend(w: World, e: Event, u: World, v: World)
    requires Goes(w, e, u) && Reaches(u, v)
    ensures Reaches(w, v)
  {
    var rest :| IsRun(u, rest) && After(u, rest) == v;
    assert ([e] + rest)[1..] == rest;
    assert IsRun(w, [e] + rest) && After(w, [e] + rest) == v;
  }

  lemma Stays(w: World)
    ensures Reaches(w, w)
  {
    assert IsRun(w, []) && After(w, []) == w;
  }

  lemma {:induction false} RunsCompose(w: World, a: seq<Event>, b: seq<Event>)
    requires IsRun(w, a) && IsRun(After(w, a), b)
    ensures IsRun(w, a + b) && After(w, a + b) == After(After(w, a), b)
    decreases |a|
  {
    if a == [] {
      assert a + b == b;
    } else {
      RunsCompose(Next(w, a[0]), a[1..], b);
      assert (a + b)[1..] == a[1..] + b;
    }
  }
}
