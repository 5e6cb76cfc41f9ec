/**
 * The store's methods (internal/database), statement by statement. Each is
 * proved to do to the tables what Database says of its transaction, and to
 * leave them alone when it fails.
 */
module Stores {
  import opened Options
  import opened KeyProvider
  import opened Quota
  import opened Database

  /** A Go map read: zero for a key that is not there. */
  function Count(counts: map<QuotaWindow, int>, w: QuotaWindow): int {
    if w in counts then counts[w] else 0
  }

  ghost predicate Counts(counts: map<QuotaWindow, int>, m: multiset<QuotaWindow>) {
    forall w :: Count(counts, w) == m[w]
  }

  lemma TakeOne(m: multiset<QuotaWindow>, s: seq<QuotaWindow>, j: nat)
    requires j < |s|
    ensures multiset(s[..j + 1]) == multiset(s[..j]) + multiset{s[j]}
    ensures m[s[j]] < multiset(s[..j + 1])[s[j]] ==> !(multiset(s) <= m)
  {
    assert s[..j + 1] == s[..j] + [s[j]];
    assert s == s[..j + 1] + s[j + 1..];
  }

  /** Counts the windows of a down by those of b: the same multiset, whatever the order. */
  method SameQuotaWindows(a: seq<QuotaWindow>, b: seq<QuotaWindow>) returns (same: bool)
    ensures same <==> multiset(a) == multiset(b)
  {
    if |a| != |b| {
      assert |multiset(a)| != |multiset(b)|;
      return false;
    }
    var counts: map<QuotaWindow, int> := map[];
    for i := 0 to |a|
      invariant Counts(counts, multiset(a[..i]))
    {
      TakeOne(multiset(a), a, i);
      counts := counts[a[i] := Count(counts, a[i]) + 1];
    }
    assert a[..|a|] == a;
    same := CountDown(counts, multiset(a), b);
    if same {
      SubMultisetOfSameSize(multiset(b), multiset(a));
    }
  }

  method CountDown(start: map<QuotaWindow, int>, ghost m: multiset<QuotaWindow>, b: seq<QuotaWindow>) returns (within: bool)
    requires Counts(start, m)
    ensures within <==> multiset(b) <= m
  {
    var counts := start;
    for j := 0 to |b|
      invariant multiset(b[..j]) <= m && Counts(counts, m - multiset(b[..j]))
    {
      TakeOne(m, b, j);
      if Count(counts, b[j]) == 0 {
        return false;
      }
      counts := counts[b[j] := Count(counts, b[j]) - 1];
      assert m - multiset(b[..j + 1]) == (m - multiset(b[..j])) - multiset{b[j]};
    }
    assert b[..|b|] == b;
    return true;
  }

  lemma SubMultisetOfSameSize<T>(x: multiset<T>, y: multiset<T>)
    requires x <= y && |x| == |y|
    ensures x == y
  {
    assert y == x + (y - x);
    assert |y| == |x| + |y - x|;
  }

  /** A key whose limits are to be pushed, with what the push needs. */
  datatype SyncTarget = SyncTarget(
    key: int, ref: Ref, userId: int, sub: string, email: string, name: string,
    syncedName: Option<string>, profileId: Option<int>)

  function TargetOf(db: Db, key: int): SyncTarget
    requires Stale(db, key)
  {
    var k := db.keys[key];
    var u := db.users[k.userId];
    SyncTarget(key, k.ref, k.userId, u.sub, u.email, u.name, k.syncedName, EffectiveProfile(db, u))
  }

  predicate NotFailedSince(k: KeyRow, since: Time) {
    k.syncFailedAt.Some? ==> k.syncFailedAt.value < since
  }

  function Eligible(db: Db, now: Time, since: Time): set<int> {
    set k | k in db.keys && Pending(db, k, now) && NotFailedSince(db.keys[k], since)
  }

  /** Keys that never failed come first, then the longest ago; the id breaks ties. */
  predicate Sooner(db: Db, a: int, b: int)
    requires a in db.keys && b in db.keys
  {
    var fa, fb := db.keys[a].syncFailedAt, db.keys[b].syncFailedAt;
    || (fa.None? && fb.Some?)
    || (fa.Some? && fb.Some? && fa.value < fb.value)
    || (fa == fb && a <= b)
  }

  /** rows is what the query answers: the first limit eligible keys, in order. */
  ghost predicate IsBatch(db: Db, now: Time, since: Time, limit: nat, rows: seq<SyncTarget>) {
    var eligible := Eligible(db, now, since);
    && (forall i :: 0 <= i < |rows| ==> rows[i].key in eligible && rows[i] == TargetOf(db, rows[i].key))
    && (forall i, j :: 0 <= i < j < |rows| ==> rows[i].key != rows[j].key && Sooner(db, rows[i].key, rows[j].key))
    && (|rows| < limit ==> forall k :: k in eligible ==> exists i :: 0 <= i < |rows| && rows[i].key == k)
    && (forall i, k :: 0 <= i < |rows| && k in eligible && (forall j :: 0 <= j < |rows| ==> rows[j].key != k)
                       ==> Sooner(db, rows[i].key, k))
    && |rows| <= limit
  }

  // ----- The same query by its columns -----

  /** The columns of an answer are those of the key's row and its owner's. */
  ghost predicate HasColumns(t: SyncTarget, k: KeyRow, u: User) {
    && t.ref == k.ref && t.userId == k.userId && t.syncedName == k.syncedName
    && t.sub == u.sub && t.email == u.email && t.name == u.name
  }

  /** p is the owner's own profile or, for an owner without one, the default with the lowest id. */
  ghost predicate GoesBy(db: Db, u: User, p: Option<int>) {
    if u.profileId.Some? then p == u.profileId
    else
      && (p.Some? ==> 1 <= p.value <= db.lastProfile && p.value in db.profiles && db.profiles[p.value].isDefault)
      && forall d :: 1 <= d <= db.lastProfile && d in db.profiles && db.profiles[d].isDefault ==> p.Some? && p.value <= d
  }

  /** The key is neither expired nor marked, and what it was last pushed with is not what its owner goes by now. */
  ghost predicate NeedsPush(db: Db, k: KeyRow, u: User, p: Option<int>, now: Time) {
    && k.expiresAt > now && k.missingSince == None
    && (|| p.None? || p.value !in db.profiles
        || k.syncedProfile != p || k.syncedRev != Some(db.profiles[p.value].limitsRev)
        || k.syncedName != Some(u.name) || k.syncedEmail != Some(u.email))
  }

  /** The key at id is one the query is about. */
  ghost predicate Wanted(db: Db, id: int, p: Option<int>, now: Time, since: Time) {
    && id in db.keys && db.keys[id].userId in db.users
    && GoesBy(db, db.users[db.keys[id].userId], p)
    && NeedsPush(db, db.keys[id], db.users[db.keys[id].userId], p, now)
    && (db.keys[id].syncFailedAt.None? || db.keys[id].syncFailedAt.value < since)
  }

  /** No failure before any failure, an earlier one before a later one, then by id. */
  ghost predicate Ahead(db: Db, a: int, b: int)
    requires a in db.keys && b in db.keys
  {
    match (db.keys[a].syncFailedAt, db.keys[b].syncFailedAt)
    case (None, None) => a < b
    case (None, Some(_)) => true
    case (Some(_), None) => false
    case (Some(x), Some(y)) => x < y || (x == y && a < b)
  }

  ghost predicate Answers(db: Db, now: Time, since: Time, limit: nat, rows: seq<SyncTarget>) {
    && |rows| <= limit
    && (forall i :: 0 <= i < |rows| ==>
          Wanted(db, rows[i].key, rows[i].profileId, now, since)
          && HasColumns(rows[i], db.keys[rows[i].key], db.users[db.keys[rows[i].key].userId]))
    && (forall i, j :: 0 <= i < j < |rows| ==> Ahead(db, rows[i].key, rows[j].key))
    && (forall k, p :: Wanted(db, k, p, now, since) && (forall i :: 0 <= i < |rows| ==> rows[i].key != k) ==>
          |rows| == limit && forall i :: 0 <= i < |rows| ==> Ahead(db, rows[i].key, k))
  }

  lemma GoesByOne(db: Db, u: User, p: Option<int>)
    ensures GoesBy(db, u, p) <==> p == EffectiveProfile(db, u)
  {
  }

  lemma WantedIsEligible(db: Db, k: int, p: Option<int>, now: Time, since: Time)
    ensures Wanted(db, k, p, now, since) ==> k in Eligible(db, now, since)
    ensures k in Eligible(db, now, since) ==> Wanted(db, k, EffectiveProfile(db, db.users[db.keys[k].userId]), now, since)
  {
    if k in db.keys && db.keys[k].userId in db.users {
      GoesByOne(db, db.users[db.keys[k].userId], p);
      GoesByOne(db, db.users[db.keys[k].userId], EffectiveProfile(db, db.users[db.keys[k].userId]));
    }
  }

  /** What the query answers, column by column. */
  lemma BatchAnswers(db: Db, now: Time, since: Time, limit: nat, rows: seq<SyncTarget>)
    requires IsBatch(db, now, since, limit, rows)
    ensures Answers(db, now, since, limit, rows)
  {
    forall i | 0 <= i < |rows|
      ensures Wanted(db, rows[i].key, rows[i].profileId, now, since)
              && HasColumns(rows[i], db.keys[rows[i].key], db.users[db.keys[rows[i].key].userId])
    {
      WantedIsEligible(db, rows[i].key, rows[i].profileId, now, since);
    }
    forall k, p | Wanted(db, k, p, now, since) && (forall i :: 0 <= i < |rows| ==> rows[i].key != k)
      ensures |rows| == limit && forall i :: 0 <= i < |rows| ==> Ahead(db, rows[i].key, k)
    {
      WantedIsEligible(db, k, p, now, since);
    }
  }

  /** A marked key, with its owner. */
  datatype MissingKey = MissingKey(key: int, ref: Ref, since: Time, userId: int)

  function MarkedKeys(db: Db): set<int> {
    set k | k in db.keys && db.keys[k].missingSince.Some? && db.keys[k].userId in db.users
  }

  function MissingOf(db: Db, key: int): MissingKey
    requires key in MarkedKeys(db)
  {
    MissingKey(key, db.keys[key].ref, db.keys[key].missingSince.value, db.keys[key].userId)
  }

  predicate MarkedSooner(db: Db, a: int, b: int)
    requires a in MarkedKeys(db) && b in MarkedKeys(db)
  {
    var sa, sb := db.keys[a].missingSince.value, db.keys[b].missingSince.value;
    sa < sb || (sa == sb && a <= b)
  }

  ghost predicate AreMarked(db: Db, rows: seq<MissingKey>) {
    && (forall i :: 0 <= i < |rows| ==> rows[i].key in MarkedKeys(db) && rows[i] == MissingOf(db, rows[i].key))
    && (forall i, j :: 0 <= i < j < |rows| ==> rows[i].key != rows[j].key && MarkedSooner(db, rows[i].key, rows[j].key))
  }

  /** The listing by its columns: each marked key of an owner that exists, once, the oldest marker first. */
  ghost predicate ListsMarked(db: Db, rows: seq<MissingKey>) {
    && (forall i :: 0 <= i < |rows| ==>
          && rows[i].key in db.keys
          && var k := db.keys[rows[i].key];
          k.missingSince == Some(rows[i].since) && k.ref == rows[i].ref && k.userId == rows[i].userId && k.userId in db.users)
    && (forall i, j :: 0 <= i < j < |rows| ==>
          rows[i].since < rows[j].since || (rows[i].since == rows[j].since && rows[i].key < rows[j].key))
    && (forall k :: k in db.keys && db.keys[k].missingSince.Some? && db.keys[k].userId in db.users ==>
          exists i :: 0 <= i < |rows| && rows[i].key == k)
  }

  lemma MarkedAreListed(db: Db, rows: seq<MissingKey>)
    requires AreMarked(db, rows) && forall k :: k in MarkedKeys(db) ==> exists i :: 0 <= i < |rows| && rows[i].key == k
    ensures ListsMarked(db, rows)
  {
    forall k | k in db.keys && db.keys[k].missingSince.Some? && db.keys[k].userId in db.users
      ensures exists i :: 0 <= i < |rows| && rows[i].key == k
    {
      assert k in MarkedKeys(db);
    }
  }

  /** rows are the windows that limit something, each as often as it is listed. */
  ghost predicate Binds(windows: seq<QuotaWindow>, rows: seq<QuotaWindow>) {
    forall w :: multiset(rows)[w] == if w.budget > 0.0 && w.period != "" then multiset(windows)[w] else 0
  }

  /** Two windows that limit something have the same period. */
  ghost predicate RepeatsPeriod(windows: seq<QuotaWindow>) {
    exists i, j :: 0 <= i < j < |windows| && windows[i].period == windows[j].period != ""
                   && windows[i].budget > 0.0 && windows[j].budget > 0.0
  }

  lemma RowsBind(windows: seq<QuotaWindow>)
    ensures Binds(windows, EffectiveWindows(windows))
    ensures !DistinctPeriods(EffectiveWindows(windows)) ==> RepeatsPeriod(windows)
  {
    forall w ensures multiset(EffectiveWindows(windows))[w] == if w.budget > 0.0 && w.period != "" then multiset(windows)[w] else 0 {
      EffectiveWindowsMultiset(windows, w);
    }
    if !DistinctPeriods(EffectiveWindows(windows)) {
      RepeatedPeriod(windows);
    }
  }

  /** The rows stored for a profile. */
  ghost predicate StoredFor(db: Db, id: int, rows: seq<QuotaWindow>) {
    rows == if id in db.quotas then db.quotas[id] else []
  }

  /**
   * Saving windows stores those that limit something, however they are listed, and
   * raises the revision exactly if that changes what was stored; it is refused
   * only for a repeated period.
   */
  lemma WindowsStored(db: Db, id: int, windows: seq<QuotaWindow>, was: seq<QuotaWindow>, now: seq<QuotaWindow>)
    requires id in db.profiles && StoredFor(db, id, was)
    ensures Database.SetProfileQuotas(db, id, windows).Err? ==> RepeatsPeriod(windows)
    ensures Database.SetProfileQuotas(db, id, windows).Ok? && StoredFor(Database.SetProfileQuotas(db, id, windows).value, id, now) ==>
              && Binds(windows, now)
              && RevisionRaised(db, Database.SetProfileQuotas(db, id, windows).value, id, if multiset(was) == multiset(now) then 0 else 1)
  {
    RowsBind(windows);
    assert was == WindowsOf(db, id);
    if multiset(was) == multiset(EffectiveWindows(windows)) {
      assert RevisionRaised(db, db, id, 0);
    }
  }

  /** Nothing changes but the windows of a profile, and its revision by that much. */
  ghost predicate RevisionRaised(a: Db, b: Db, id: int, step: int) {
    && b.profiles.Keys == a.profiles.Keys
    && (forall p :: p in a.profiles ==>
          b.profiles[p] == if p == id then a.profiles[p].(limitsRev := a.profiles[p].limitsRev + step) else a.profiles[p])
    && (forall p :: p != id ==> (p in b.quotas <==> p in a.quotas) && (p in a.quotas ==> b.quotas[p] == a.quotas[p]))
    && b.users == a.users && b.keys == a.keys && b.lastProfile == a.lastProfile
  }

  lemma {:induction false} RepeatedPeriod(windows: seq<QuotaWindow>)
    requires !DistinctPeriods(EffectiveWindows(windows))
    ensures RepeatsPeriod(windows)
    decreases |windows|
  {
    var n := |windows| - 1;
    var init, last := EffectiveWindows(windows[..n]), windows[n];
    if DistinctPeriods(init) {
      var i :| 0 <= i < |init| && init[i].period == last.period;
      assert init[i] in windows[..n] && Effective(init[i]);
      var j :| 0 <= j < n && windows[j] == init[i];
      assert windows[j].period == windows[n].period;
    } else {
      RepeatedPeriod(windows[..n]);
      var i, j :| 0 <= i < j < n && windows[..n][i].period == windows[..n][j].period != ""
                  && windows[..n][i].budget > 0.0 && windows[..n][j].budget > 0.0;
      assert windows[i] == windows[..n][i] && windows[j] == windows[..n][j];
    }
  }

  /** The row saved, at that revision, and the others demoted if it is the default. */
  ghost predicate RowSaved(was: map<int, Profile>, now: map<int, Profile>, id: int, p: Profile, rev: int) {
    && now.Keys == was.Keys + {id}
    && var row := now[id];
    row.name == p.name && row.description == p.description && row.models == p.models && row.tpm == p.tpm && row.rpm == p.rpm
    && row.keyDurationDays == p.keyDurationDays && row.isDefault == p.isDefault && row.limitsRev == rev
    && forall k :: k in was && k != id ==> now[k] == was[k].(isDefault := was[k].isDefault && !p.isDefault)
  }

  lemma SavedRow(was: map<int, Profile>, id: int, p: Profile, rev: int)
    ensures RowSaved(was, (if p.isDefault then Demoted(was, id) else was)[id := p.(limitsRev := rev)], id, p, rev)
    ensures forall name :: NameTaken(if p.isDefault then Demoted(was, id) else was, name, id) <==> NameTaken(was, name, id)
  {
    var others := if p.isDefault then Demoted(was, id) else was;
    assert forall k :: k in was ==> k in others && others[k].name == was[k].name;
  }

  /** The windows of the other profiles stay. */
  ghost predicate OtherWindowsStay(a: Db, b: Db, id: int) {
    forall p :: p != id ==> (p in b.quotas <==> p in a.quotas) && (p in a.quotas ==> b.quotas[p] == a.quotas[p])
  }

  lemma RowThenRevision(was: map<int, Profile>, a: Db, b: Db, id: int, p: Profile, rev: int, step: int)
    requires RowSaved(was, a.profiles, id, p, rev) && RevisionRaised(a, b, id, step)
    ensures RowSaved(was, b.profiles, id, p, rev + step)
  {
  }

  /** A profile that is created has the row and the windows asked for, under a new id. */
  lemma ProfileCreated(db: Db, p: Profile, windows: seq<QuotaWindow>, now: seq<QuotaWindow>)
    requires 0 !in db.profiles && db.lastProfile + 1 !in db.profiles && db.lastProfile + 1 !in db.quotas
    requires Database.CreateProfile(db, p, windows).Ok?
    requires StoredFor(Database.CreateProfile(db, p, windows).value, db.lastProfile + 1, now)
    ensures var r, id := Database.CreateProfile(db, p, windows).value, db.lastProfile + 1;
            && RowSaved(db.profiles, r.profiles, id, p, (if p.limitsRev == 0 then 1 else p.limitsRev) + if now == [] then 0 else 1)
            && Binds(windows, now) && OtherWindowsStay(db, r, id) && r.lastProfile == id
            && r.users == db.users && r.keys == db.keys
  {
    var id, rev, row := db.lastProfile + 1, if p.limitsRev == 0 then 1 else p.limitsRev, Database.CreateProfileRow(db, p).value;
    assert Demoted(db.profiles, 0) == Demoted(db.profiles, id);
    SavedRow(db.profiles, id, p, rev);
    assert RowSaved(db.profiles, row.profiles, id, p, rev);
    assert StoredFor(row, id, []);
    WindowsStored(row, id, windows, [], now);
    assert multiset(now) == multiset([]) <==> now == [] by {
      assert |multiset(now)| == |now|;
    }
    RowThenRevision(db.profiles, row, Database.CreateProfile(db, p, windows).value, id, p, rev, if now == [] then 0 else 1);
  }

  /** A profile that is saved has the row and the windows asked for, and is raised once for each that changes. */
  lemma ProfileUpdated(db: Db, id: int, p: Profile, windows: seq<QuotaWindow>, was: seq<QuotaWindow>, now: seq<QuotaWindow>)
    requires id in db.profiles && StoredFor(db, id, was) && Database.UpdateProfile(db, id, p, windows).Ok?
    requires StoredFor(Database.UpdateProfile(db, id, p, windows).value, id, now)
    ensures var r, cur := Database.UpdateProfile(db, id, p, windows).value, db.profiles[id];
            && RowSaved(db.profiles, r.profiles, id, p,
                        cur.limitsRev + (if cur.models == p.models && cur.tpm == p.tpm && cur.rpm == p.rpm then 0 else 1)
                        + if multiset(was) == multiset(now) then 0 else 1)
            && Binds(windows, now) && OtherWindowsStay(db, r, id) && r.lastProfile == db.lastProfile
            && r.users == db.users && r.keys == db.keys
  {
    var cur, row := db.profiles[id], Database.UpdateProfileRow(db, id, p).value;
    var rev := cur.limitsRev + if cur.models == p.models && cur.tpm == p.tpm && cur.rpm == p.rpm then 0 else 1;
    SavedRow(db.profiles, id, p, rev);
    assert RowSaved(db.profiles, row.profiles, id, p, rev);
    WindowsStored(row, id, windows, was, now);
    RowThenRevision(db.profiles, row, Database.UpdateProfile(db, id, p, windows).value, id, p, rev,
                    if multiset(was) == multiset(now) then 0 else 1);
  }

  class Store {
    var profiles: map<int, Profile>
    var quotas: map<int, seq<QuotaWindow>>
    var users: map<int, User>
    var keys: map<int, KeyRow>
    var audit: seq<KeyAudit>
    var lastProfile: int
    var lastUser: int
    var lastKey: int

    function Tables(): Db
      reads this
    {
      Db(profiles, quotas, users, keys, audit, lastProfile, lastUser, lastKey)
    }

    constructor (db: Db)
      ensures Tables() == db
    {
      profiles, quotas, users, keys := db.profiles, db.quotas, db.users, db.keys;
      audit, lastProfile, lastUser, lastKey := db.audit, db.lastProfile, db.lastUser, db.lastKey;
    }

    /** Undoes what a transaction did to the profile tables. */
    method Rollback(to: Db)
      modifies this`profiles, this`quotas, this`lastProfile
      ensures profiles == to.profiles && quotas == to.quotas && lastProfile == to.lastProfile
    {
      profiles, quotas, lastProfile := to.profiles, to.quotas, to.lastProfile;
    }

    // ----- Profiles -----

    method SeedDefaultProfile() returns (r: Result<(), DbError>)
      modifies this
      ensures r.Ok? <==> Database.SeedDefaultProfile(old(Tables())).Ok?
      ensures r.Ok? ==> Tables() == Database.SeedDefaultProfile(old(Tables())).value
      ensures r.Err? ==> r.error == NoDefault && Tables() == old(Tables())
      ensures r.Ok? && (exists id :: id in old(profiles) && old(profiles)[id].isDefault) ==> Tables() == old(Tables())
      ensures r.Ok? && old(profiles) == map[] ==>
                && profiles.Keys == {old(lastProfile) + 1} && lastProfile == old(lastProfile) + 1
                && var p := profiles[lastProfile];
                p.name == "default" && p.description == "Default profile — no rate or budget limits."
                && p.models == [] && p.tpm == None && p.rpm == None && p.keyDurationDays == 0 && p.isDefault && p.limitsRev == 1
      ensures r.Ok? && old(profiles) != map[] && !(exists id :: id in old(profiles) && old(profiles)[id].isDefault) ==>
                && profiles.Keys == old(profiles).Keys && lastProfile == old(lastProfile)
                && forall id :: id in profiles ==>
                     profiles[id] == old(profiles)[id].(isDefault := old(profiles)[id].name == "default")
      ensures quotas == old(quotas) && users == old(users) && keys == old(keys) && audit == old(audit)
    {
      if exists id :: id in profiles && profiles[id].isDefault {
        return Ok(());
      }
      if profiles == map[] {
        lastProfile := lastProfile + 1;
        profiles := map[lastProfile := Profile(
          "default", "Default profile — no rate or budget limits.", [], None, None, 0, true, 1)];
        return Ok(());
      }
      assert profiles.Keys != {};
      if !exists id :: id in profiles && profiles[id].name == "default" {
        return Err(NoDefault);
      }
      profiles := map id | id in profiles ::
        if profiles[id].name == "default" then profiles[id].(isDefault := true) else profiles[id];
      return Ok(());
    }

    method EffectiveRows(windows: seq<QuotaWindow>) returns (rows: seq<QuotaWindow>)
      ensures rows == EffectiveWindows(windows)
    {
      rows := [];
      for i := 0 to |windows|
        invariant rows == EffectiveWindows(windows[..i])
      {
        assert windows[..i + 1][..i] == windows[..i];
        if windows[i].budget <= 0.0 || windows[i].period == "" {
          continue;
        }
        rows := rows + [windows[i]];
      }
      assert windows[..|windows|] == windows;
    }

    /** Fails on the first row whose period the profile already has. */
    method InsertQuotas(id: int, rows: seq<QuotaWindow>) returns (ok: bool)
      requires id !in quotas
      modifies this`quotas
      ensures ok <==> DistinctPeriods(rows)
      ensures ok ==> quotas == old(quotas)[id := rows]
    {
      var stored: seq<QuotaWindow> := [];
      for i := 0 to |rows|
        invariant stored == rows[..i] && DistinctPeriods(stored) && quotas == old(quotas)
      {
        if exists j :: 0 <= j < |stored| && stored[j].period == rows[i].period {
          return false;
        }
        stored := stored + [rows[i]];
      }
      assert stored == rows;
      quotas := quotas[id := stored];
      return true;
    }

    method SetProfileQuotas(id: int, windows: seq<QuotaWindow>) returns (r: Result<(), DbError>)
      requires id in profiles
      modifies this`profiles, this`quotas
      ensures r.Ok? <==> Database.SetProfileQuotas(old(Tables()), id, windows).Ok?
      ensures r.Ok? ==> Tables() == Database.SetProfileQuotas(old(Tables()), id, windows).value
      ensures r.Err? ==> r == Err(Constraint)
    {
      var rows := EffectiveRows(windows);
      var same := SameQuotaWindows(WindowsOf(Tables(), id), rows);
      if same {
        return Ok(());
      }
      quotas := quotas - {id};
      var inserted := InsertQuotas(id, rows);
      if !inserted {
        return Err(Constraint);
      }
      profiles := profiles[id := profiles[id].(limitsRev := profiles[id].limitsRev + 1)];
      return Ok(());
    }

    /** Read before the save, whose caller logs them. */
    method DemotedDefaults(keep: int, isDefault: bool) returns (names: seq<string>)
      ensures names == Database.DemotedNames(Tables(), keep, isDefault)
    {
      names := [];
      if !isDefault {
        return;
      }
      var id := 1;
      while id <= lastProfile
        invariant names == DefaultNames(profiles, keep, 1, id) && (id <= lastProfile + 1 || id == 1)
        decreases lastProfile - id
      {
        if id != keep && id in profiles && profiles[id].isDefault {
          names := names + [profiles[id].name];
        }
        id := id + 1;
      }
    }

    /** Inserts the row; the windows are still to come. */
    method CreateProfileRow(p: Profile) returns (ok: bool)
      modifies this`profiles, this`lastProfile
      ensures ok <==> Database.CreateProfileRow(old(Tables()), p).Ok?
      ensures ok ==> Database.CreateProfileRow(old(Tables()), p) == Ok(Tables()) && lastProfile == old(lastProfile) + 1
      ensures old(lastProfile) + 1 !in old(profiles) ==> (ok <==> forall k :: k in old(profiles) ==> old(profiles)[k].name != p.name)
      ensures ok && 0 !in old(profiles) && lastProfile !in old(profiles) ==>
                RowSaved(old(profiles), profiles, lastProfile, p, if p.limitsRev == 0 then 1 else p.limitsRev)
    {
      var rev := p.limitsRev;
      if rev == 0 {
        rev := 1;
      }
      if p.isDefault {
        profiles := Demoted(profiles, 0);
        assert forall k :: k in old(profiles) ==> k in profiles && profiles[k].name == old(profiles)[k].name;
      }
      if exists id :: id in profiles && profiles[id].name == p.name {
        return false;
      }
      lastProfile := lastProfile + 1;
      profiles := profiles[lastProfile := p.(limitsRev := rev)];
      assert forall k :: k in old(profiles) && !p.isDefault ==> old(profiles)[k].(isDefault := old(profiles)[k].isDefault) == old(profiles)[k];
      return true;
    }

    method CreateProfile(p: Profile, windows: seq<QuotaWindow>) returns (r: Result<(int, seq<string>), DbError>)
      modifies this
      ensures r.Ok? <==> Database.CreateProfile(old(Tables()), p, windows).Ok?
      ensures r.Ok? ==>
                && Tables() == Database.CreateProfile(old(Tables()), p, windows).value
                && r.value == (old(lastProfile) + 1, DemotedNames(old(Tables()), 0, p.isDefault))
      ensures r.Err? ==> r == Err(Constraint) && Tables() == old(Tables())
    {
      var before := Tables();
      var demoted := DemotedDefaults(0, p.isDefault);
      var created := CreateProfileRow(p);
      if !created {
        Rollback(before);
        return Err(Constraint);
      }
      var id := lastProfile;
      var saved := SetProfileQuotas(id, windows);
      if saved.Err? {
        Rollback(before);
        return Err(saved.error);
      }
      return Ok((id, demoted));
    }

    /** Saves the row over the current one; the windows are still to come. */
    method UpdateProfileRow(id: int, p: Profile) returns (r: Result<Profile, DbError>)
      modifies this`profiles
      ensures r.Ok? ==> Database.UpdateProfileRow(old(Tables()), id, p) == Ok(Tables()) && id in old(profiles) && r.value == old(profiles)[id]
      ensures r.Err? ==> Database.UpdateProfileRow(old(Tables()), id, p) == Err(r.error)
      ensures r == Err(NoRows) <==> id !in old(profiles)
      ensures r == Err(DefaultProfile) <==> id in old(profiles) && old(profiles)[id].isDefault && !p.isDefault
      ensures r.Ok? ==> forall k :: k in old(profiles) && k != id ==> old(profiles)[k].name != p.name
      ensures r == Err(Constraint) ==> exists k :: k in old(profiles) && k != id && old(profiles)[k].name == p.name
      ensures r.Err? ==> r.error in {NoRows, DefaultProfile, Constraint}
      ensures r.Ok? ==>
                RowSaved(old(profiles), profiles, id, p,
                         if r.value.models == p.models && r.value.tpm == p.tpm && r.value.rpm == p.rpm then r.value.limitsRev
                         else r.value.limitsRev + 1)
    {
      if id !in profiles {
        return Err(NoRows);
      }
      var current := profiles[id];
      if current.isDefault && !p.isDefault {
        return Err(DefaultProfile);
      }
      var rev := current.limitsRev;
      if current.models != p.models || current.tpm != p.tpm || current.rpm != p.rpm {
        rev := rev + 1;
      }
      SavedRow(profiles, id, p, rev);
      if p.isDefault {
        profiles := Demoted(profiles, id);
      }
      assert NameTaken(profiles, p.name, id) <==> NameTaken(old(profiles), p.name, id);
      if exists other :: other in profiles && other != id && profiles[other].name == p.name {
        return Err(Constraint);
      }
      profiles := profiles[id := p.(limitsRev := rev)];
      return Ok(current);
    }

    /** Returns the profile as it was before, with its windows, and the names of the profiles it demoted. */
    method UpdateProfile(id: int, p: Profile, windows: seq<QuotaWindow>)
      returns (r: Result<(Profile, seq<QuotaWindow>, seq<string>), DbError>)
      modifies this
      ensures r.Ok? <==> Database.UpdateProfile(old(Tables()), id, p, windows).Ok?
      ensures r.Ok? ==>
                Tables() == Database.UpdateProfile(old(Tables()), id, p, windows).value
                && id in old(profiles) && r.value == (old(profiles)[id], WindowsOf(old(Tables()), id), DemotedNames(old(Tables()), id, p.isDefault))
      ensures r.Err? ==> r.error == Database.UpdateProfile(old(Tables()), id, p, windows).error && Tables() == old(Tables())
    {
      var before := Tables();
      var demoted := DemotedDefaults(id, p.isDefault);
      var current := UpdateProfileRow(id, p);
      if current.Err? {
        Rollback(before);
        return Err(current.error);
      }
      var saved := SetProfileQuotas(id, windows);
      if saved.Err? {
        Rollback(before);
        return Err(saved.error);
      }
      return Ok((current.value, WindowsOf(before, id), demoted));
    }

    method DeleteProfile(id: int) returns (r: Result<(), DbError>)
      modifies this
      ensures r.Ok? ==> Database.DeleteProfile(old(Tables()), id) == Ok(Tables())
      ensures r.Err? ==> Database.DeleteProfile(old(Tables()), id) == Err(r.error) && Tables() == old(Tables())
      ensures r == Err(DefaultProfile) <==> id in old(profiles) && old(profiles)[id].isDefault
      ensures r.Err? && r.error != DefaultProfile ==>
                |set u | u in users && users[u].profileId == Some(id)| > 0
                && r.error == ProfileInUse(|set u | u in users && users[u].profileId == Some(id)|)
      ensures r.Ok? ==> forall u :: u in old(users) ==> old(users)[u].profileId != Some(id)
      ensures r.Ok? ==> profiles == old(profiles) - {id} && quotas == old(quotas) - {id} && keys == old(keys)
      ensures r.Ok? ==> users.Keys == old(users).Keys && forall u :: u in users ==>
                users[u] == if old(users)[u].profileAfterExpiry == Some(id) then old(users)[u].(profileAfterExpiry := None) else old(users)[u]
    {
      if id in profiles && profiles[id].isDefault {
        return Err(DefaultProfile);
      }
      var holders := set u | u in users && users[u].profileId == Some(id);
      if |holders| > 0 {
        return Err(ProfileInUse(|holders|));
      }
      assert holders == {};
      assert forall u :: u in users ==> u !in holders;
      quotas := quotas - {id};
      users := ForgetDestination(users, id);
      profiles := profiles - {id};
      return Ok(());
    }

    // ----- Users -----

    /** The account of a subject, with the name and address of this login; a new one if there is none. */
    method GetOrCreateUser(sub: string, email: string, name: string) returns (id: int)
      requires forall u :: u in users ==> u <= lastUser
      modifies this`users, this`lastUser
      ensures Tables() == Login(old(Tables()), id, sub, email, name)
      ensures id in users && users[id].sub == sub && users[id].email == email && users[id].name == name
      ensures users.Keys == old(users).Keys + {id} && forall u :: u in old(users) && u != id ==> users[u] == old(users)[u]
      ensures if exists u :: u in old(users) && old(users)[u].sub == sub then
                id in old(users) && lastUser == old(lastUser) && users[id] == old(users)[id].(email := email, name := name)
              else
                && id == lastUser == old(lastUser) + 1 && users[id].profileId == None && users[id].profileExpiresAt == None
                && users[id].profileAfterExpiry == None && !users[id].revokeKeyAtExpiry
    {
      var found := set u | u in users && users[u].sub == sub;
      if exists u :: u in found {
        id := LeastId(found);
        users := users[id := users[id].(email := email, name := name)];
      } else {
        assert forall u :: u in users ==> u !in found;
        lastUser := lastUser + 1;
        id := lastUser;
        users := users[id := User(sub, email, name, None, None, None, false)];
      }
    }

    method SetUserProfileUntil(user: int, profile: Option<int>, expiresAt: Option<Time>, after: Option<int>, revokeKey: bool)
      returns (r: Result<(), DbError>)
      modifies this
      ensures r.Ok? ==> Database.SetUserProfileUntil(old(Tables()), user, profile, expiresAt, after, revokeKey) == Ok(Tables())
      ensures r.Err? ==>
                Database.SetUserProfileUntil(old(Tables()), user, profile, expiresAt, after, revokeKey) == Err(r.error)
                && Tables() == old(Tables())
      ensures r.Err? <==> user in old(users) && profile.Some? && profile.value !in old(profiles)
      ensures profiles == old(profiles) && quotas == old(quotas) && keys == old(keys) && users.Keys == old(users).Keys
      ensures r.Ok? ==> forall u :: u in users ==>
                if u != user then users[u] == old(users)[u]
                else
                  && users[u].profileId == profile && users[u].profileExpiresAt == expiresAt
                  && users[u].profileAfterExpiry == (if expiresAt.Some? then after else None)
                  && (users[u].revokeKeyAtExpiry <==> expiresAt.Some? && revokeKey)
                  && users[u].sub == old(users)[u].sub && users[u].email == old(users)[u].email && users[u].name == old(users)[u].name
    {
      var afterExpiry, revoke := after, revokeKey;
      if expiresAt == None {
        afterExpiry, revoke := None, false;
      }
      if user !in users {
        return Ok(());
      }
      if profile.Some? && profile.value !in profiles {
        return Err(Constraint);
      }
      users := users[user := users[user].(profileId := profile, profileExpiresAt := expiresAt,
                                          profileAfterExpiry := afterExpiry, revokeKeyAtExpiry := revoke)];
      return Ok(());
    }

    /** Users whose deadline has passed, by id. */
    method UsersWithPassedDeadline(now: Time) returns (due: seq<int>)
      ensures forall u :: u in due <==> u in users && Due(users[u], now)
      ensures forall u :: u in due <==> u in users && users[u].profileExpiresAt.Some? && users[u].profileExpiresAt.value <= now
      ensures forall i, j :: 0 <= i < j < |due| ==> due[i] < due[j]
    {
      due := [];
      var left := set u | u in users && Due(users[u], now);
      while exists u :: u in left
        invariant forall u :: u in left || u in due <==> u in users && Due(users[u], now)
        invariant forall i, j :: 0 <= i < j < |due| ==> due[i] < due[j]
        invariant forall i, u :: 0 <= i < |due| && u in left ==> due[i] < u
        decreases left
      {
        var u := LeastId(left);
        due := due + [u];
        left := left - {u};
      }
    }

    /** One statement: the profile moves and the deadline goes, or neither. */
    method ApplyProfileExpiry(user: int, profile: Option<int>) returns (r: Result<(), DbError>)
      modifies this`users
      ensures r.Ok? ==> Database.ApplyProfileExpiry(old(Tables()), user, profile) == Ok(Tables())
      ensures r.Err? ==> Database.ApplyProfileExpiry(old(Tables()), user, profile) == Err(r.error) && Tables() == old(Tables())
      ensures r.Err? <==> user in old(users) && profile.Some? && profile.value !in profiles
      ensures r.Ok? ==> users.Keys == old(users).Keys && forall u :: u in users ==>
                if u != user then users[u] == old(users)[u]
                else
                  && users[u].profileId == profile && users[u].profileExpiresAt == None
                  && users[u].profileAfterExpiry == None && !users[u].revokeKeyAtExpiry
                  && users[u].sub == old(users)[u].sub && users[u].email == old(users)[u].email && users[u].name == old(users)[u].name
    {
      if user !in users {
        return Ok(());
      }
      if profile.Some? && profile.value !in profiles {
        return Err(Constraint);
      }
      users := users[user := users[user].(profileId := profile, profileExpiresAt := None,
                                          profileAfterExpiry := None, revokeKeyAtExpiry := false)];
      return Ok(());
    }

    // ----- Keys -----

    method GetAPIKeyByUser(user: int) returns (key: Option<int>)
      ensures key.Some? ==> key.value in keys && keys[key.value].userId == user
      ensures key.None? <==> KeysOfUser(Tables(), user) == {}
      ensures key.None? <==> forall k :: k in keys ==> keys[k].userId != user
    {
      var found := KeysOfUser(Tables(), user);
      if !exists k :: k in found {
        assert forall k :: k in keys ==> k !in found;
        return None;
      }
      var k := LeastId(found);
      return Some(k);
    }

    method ReplaceAPIKey(row: KeyRow) returns (r: Result<int, DbError>)
      modifies this`keys, this`lastKey
      ensures r.Ok? ==> Database.ReplaceAPIKey(old(Tables()), row) == Ok(Tables()) && r.value == old(lastKey) + 1
      ensures r.Err? ==> Database.ReplaceAPIKey(old(Tables()), row) == Err(r.error) && Tables() == old(Tables())
      ensures r.Ok? <==> row.userId in users
      ensures r.Ok? ==> lastKey == old(lastKey) + 1 && lastKey in keys && keys[lastKey] == row
      ensures r.Ok? ==> forall k :: k != lastKey ==>
                && (k in keys <==> k in old(keys) && old(keys)[k].userId != row.userId)
                && (k in keys ==> keys[k] == old(keys)[k])
    {
      var before := keys;
      keys := keys - KeysOfUser(Tables(), row.userId);
      if row.userId !in users {
        keys := before;
        return Err(Constraint);
      }
      lastKey := lastKey + 1;
      keys := keys[lastKey := row];
      return Ok(lastKey);
    }

    method DeleteAPIKey(key: int)
      modifies this`keys
      ensures Tables() == Database.DeleteAPIKey(old(Tables()), key)
      ensures keys.Keys == old(keys).Keys - {key} && forall k :: k in keys ==> keys[k] == old(keys)[k]
    {
      keys := keys - {key};
    }

    method UpdateAPIKeyExpiry(key: int, expiresAt: Time)
      modifies this`keys
      ensures Tables() == Database.UpdateAPIKeyExpiry(old(Tables()), key, expiresAt)
      ensures keys.Keys == old(keys).Keys && forall k :: k in keys ==>
                keys[k] == if k == key then old(keys)[k].(expiresAt := expiresAt) else old(keys)[k]
    {
      if key in keys {
        keys := keys[key := keys[key].(expiresAt := expiresAt)];
      }
    }

    method MarkKeyMissing(key: int, owner: int, now: Time) returns (marked: bool)
      modifies this`keys, this`audit
      ensures Tables() == Database.MarkKeyMissing(old(Tables()), key, owner, now)
      ensures marked <==> key in old(keys) && old(keys)[key].missingSince.None?
      ensures audit == if marked then old(audit) + [KeyAudit(Missing, key, owner, now)] else old(audit)
      ensures keys.Keys == old(keys).Keys && forall k :: k in keys ==>
                keys[k] == if k == key && marked then old(keys)[k].(missingSince := Some(now)) else old(keys)[k]
    {
      if key !in keys || keys[key].missingSince.Some? {
        return false;
      }
      keys := keys[key := keys[key].(missingSince := Some(now))];
      audit := audit + [KeyAudit(Missing, key, owner, now)];
      return true;
    }

    method ClearKeyMissing(key: int, owner: int, now: Time) returns (cleared: bool)
      modifies this`keys, this`audit
      ensures Tables() == Database.ClearKeyMissing(old(Tables()), key, owner, now)
      ensures cleared <==> key in old(keys) && old(keys)[key].missingSince.Some?
      ensures audit == if cleared then old(audit) + [KeyAudit(Found, key, owner, now)] else old(audit)
      ensures keys.Keys == old(keys).Keys && forall k :: k in keys ==>
                keys[k] == if k == key && cleared then old(keys)[k].(missingSince := None, syncedRev := None) else old(keys)[k]
    {
      if key !in keys || keys[key].missingSince.None? {
        return false;
      }
      keys := keys[key := keys[key].(missingSince := None, syncedRev := None)];
      audit := audit + [KeyAudit(Found, key, owner, now)];
      return true;
    }

    method RemoveMissingKey(key: int, owner: int, cutoff: Time, now: Time) returns (removed: bool)
      modifies this`keys, this`audit
      ensures Tables() == Database.RemoveMissingKey(old(Tables()), key, owner, cutoff, now)
      ensures removed <==> MissingBefore(old(Tables()), key, cutoff)
      ensures removed <==> key in old(keys) && old(keys)[key].missingSince.Some? && old(keys)[key].missingSince.value <= cutoff
      ensures audit == if removed then old(audit) + [KeyAudit(Gone, key, owner, now)] else old(audit)
      ensures keys == if removed then old(keys) - {key} else old(keys)
    {
      if key !in keys || keys[key].missingSince.None? || keys[key].missingSince.value > cutoff {
        return false;
      }
      keys := keys - {key};
      audit := audit + [KeyAudit(Gone, key, owner, now)];
      return true;
    }

    /** Every marked key whose owner exists, oldest marker first. */
    method ListMissingKeys() returns (rows: seq<MissingKey>)
      ensures AreMarked(Tables(), rows)
      ensures forall k :: k in MarkedKeys(Tables()) ==> exists i :: 0 <= i < |rows| && rows[i].key == k
      ensures ListsMarked(Tables(), rows)
    {
      var db := Tables();
      var left := MarkedKeys(db);
      rows := [];
      while exists k :: k in left
        invariant left <= MarkedKeys(db) && AreMarked(db, rows)
        invariant forall i :: 0 <= i < |rows| ==> rows[i].key !in left
        invariant forall i, k :: 0 <= i < |rows| && k in left ==> MarkedSooner(db, rows[i].key, k)
        invariant forall k :: k in MarkedKeys(db) ==> k in left || exists i :: 0 <= i < |rows| && rows[i].key == k
        decreases left
      {
        var k := OldestMarker(db, left);
        ghost var was := rows;
        rows := rows + [MissingOf(db, k)];
        assert rows[|was|].key == k && forall i :: 0 <= i < |was| ==> rows[i] == was[i];
        left := left - {k};
      }
      MarkedAreListed(db, rows);
    }

    method MarkLimitsSynced(key: int, profile: int, rev: int, name: string, email: string)
      modifies this`keys
      ensures Tables() == Database.MarkLimitsSynced(old(Tables()), key, profile, rev, name, email)
      ensures keys.Keys == old(keys).Keys && forall k :: k in keys ==>
                keys[k] == if k == key then old(keys)[k].(syncedProfile := Some(profile), syncedRev := Some(rev), syncedName := Some(name),
                                                          syncedEmail := Some(email), syncError := "", syncFailedAt := None)
                           else old(keys)[k]
    {
      if key in keys {
        keys := keys[key := keys[key].(
          syncedProfile := Some(profile), syncedRev := Some(rev), syncedName := Some(name), syncedEmail := Some(email),
          syncError := "", syncFailedAt := None)];
      }
    }

    method MarkLimitSyncFailed(key: int, reason: string, at: Time)
      modifies this`keys
      ensures Tables() == Database.MarkLimitSyncFailed(old(Tables()), key, reason, at)
      ensures keys.Keys == old(keys).Keys && forall k :: k in keys ==>
                keys[k] == if k == key then old(keys)[k].(syncError := reason, syncFailedAt := Some(at)) else old(keys)[k]
    {
      if key in keys {
        keys := keys[key := keys[key].(syncError := reason, syncFailedAt := Some(at))];
      }
    }

    method MarkAllLimitsPending() returns (n: nat)
      modifies this`keys
      ensures Tables() == Database.MarkAllLimitsPending(old(Tables())) && n == |old(keys)|
      ensures keys.Keys == old(keys).Keys && forall k :: k in keys ==> keys[k] == old(keys)[k].(syncedRev := None)
    {
      keys := map k | k in keys :: keys[k].(syncedRev := None);
      assert keys.Keys == old(keys).Keys;
      n := |keys|;
    }

    method PendingLimitSyncs(now: Time, since: Time, limit: nat) returns (rows: seq<SyncTarget>)
      ensures IsBatch(Tables(), now, since, limit, rows) && Answers(Tables(), now, since, limit, rows)
    {
      rows := FirstPending(now, since, limit);
      BatchAnswers(Tables(), now, since, limit, rows);
    }

    method FirstPending(now: Time, since: Time, limit: nat) returns (rows: seq<SyncTarget>)
      ensures IsBatch(Tables(), now, since, limit, rows)
    {
      var db := Tables();
      var left := Eligible(db, now, since);
      rows := [];
      while (exists k :: k in left) && |rows| < limit
        invariant left <= Eligible(db, now, since)
        invariant forall i :: 0 <= i < |rows| ==>
                    rows[i].key in Eligible(db, now, since) && rows[i].key !in left && rows[i] == TargetOf(db, rows[i].key)
        invariant forall i, j :: 0 <= i < j < |rows| ==> rows[i].key != rows[j].key && Sooner(db, rows[i].key, rows[j].key)
        invariant forall i, k :: 0 <= i < |rows| && k in left ==> Sooner(db, rows[i].key, k)
        invariant forall k :: k in Eligible(db, now, since) ==> k in left || exists i :: 0 <= i < |rows| && rows[i].key == k
        invariant |rows| <= limit
        decreases left
      {
        var k := SoonestKey(db, left);
        ghost var was := rows;
        rows := rows + [TargetOf(db, k)];
        assert rows[|was|].key == k && forall i :: 0 <= i < |was| ==> rows[i] == was[i];
        left := left - {k};
      }
    }
  }

  predicate Due(u: User, now: Time) {
    u.profileExpiresAt.Some? && u.profileExpiresAt.value <= now
  }

  method LeastId(ids: set<int>) returns (least: int)
    requires exists id :: id in ids
    ensures least in ids && forall id :: id in ids ==> least <= id
  {
    least :| least in ids;
    var left := ids - {least};
    while exists id :: id in left
      invariant least in ids && left <= ids
      invariant forall id :: id in ids && id !in left ==> least <= id
      decreases left
    {
      var id :| id in left;
      if id < least {
        least := id;
      }
      left := left - {id};
    }
  }

  method SoonestKey(db: Db, ids: set<int>) returns (first: int)
    requires (exists id :: id in ids) && ids <= db.keys.Keys
    ensures first in ids && forall k :: k in ids ==> Sooner(db, first, k)
  {
    first :| first in ids;
    var left := ids - {first};
    while exists id :: id in left
      invariant first in ids && left <= ids
      invariant forall k :: k in ids && k !in left ==> Sooner(db, first, k)
      decreases left
    {
      var k :| k in left;
      if !Sooner(db, first, k) {
        first := k;
      }
      left := left - {k};
    }
  }

  method OldestMarker(db: Db, ids: set<int>) returns (first: int)
    requires (exists id :: id in ids) && ids <= MarkedKeys(db)
    ensures first in ids && forall k :: k in ids ==> MarkedSooner(db, first, k)
  {
    first :| first in ids;
    var left := ids - {first};
    while exists id :: id in left
      invariant first in ids && left <= ids
      invariant forall k :: k in ids && k !in left ==> MarkedSooner(db, first, k)
      decreases left
    {
      var k :| k in left;
      if !MarkedSooner(db, first, k) {
        first := k;
      }
      left := left - {k};
    }
  }
}
