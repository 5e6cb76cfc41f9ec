/**
 * What every sequence of profile and account changes keeps: one default
 * profile, no dangling assignment, and a revision that tells limits apart.
 */
module Profiles {
  import opened Options
  import opened KeyProvider
  import opened Quota
  import opened Database

  datatype AdminOp =
    | Create(p: Profile, quotas: seq<QuotaWindow>)
    | Update(id: int, p: Profile, quotas: seq<QuotaWindow>)
    | Delete(id: int)
    | Assign(user: int, profile: Option<int>, expiresAt: Option<Time>, after: Option<int>, revokeKey: bool)
    | Revert(user: int)
    | SignIn(user: int, sub: string, email: string, name: string)

  ghost function Attempt(db: Db, op: AdminOp): Result<Db, DbError> {
    match op
    case Create(p, quotas) => CreateProfile(db, p, quotas)
    case Update(id, p, quotas) => UpdateProfile(db, id, p, quotas)
    case Delete(id) => DeleteProfile(db, id)
    case Assign(user, profile, expiresAt, after, revokeKey) =>
      SetUserProfileUntil(db, user, profile, expiresAt, after, revokeKey)
    case Revert(user) =>
      ApplyProfileExpiry(db, user, if user in db.users then db.users[user].profileAfterExpiry else None)
    case SignIn(user, sub, email, name) => Ok(Login(db, user, sub, email, name))
  }

  ghost function Apply(db: Db, op: AdminOp): Db {
    var r := Attempt(db, op);
    if r.Ok? then r.value else db
  }

  ghost function ApplyAll(db: Db, ops: seq<AdminOp>): Db
    decreases |ops|
  {
    if ops == [] then db else ApplyAll(Apply(db, ops[0]), ops[1..])
  }

  // ----- What the schema enforces, and what it does not -----

  ghost predicate ProfileIds(db: Db) {
    && (forall id :: id in db.profiles ==> 0 < id <= db.lastProfile)
    && db.quotas.Keys <= db.profiles.Keys
    && 0 <= db.lastProfile
  }

  ghost predicate StoredWindows(db: Db) {
    forall id :: id in db.quotas ==>
      DistinctPeriods(db.quotas[id]) && forall w :: w in db.quotas[id] ==> Effective(w)
  }

  ghost predicate AtMostOneDefault(profiles: map<int, Profile>) {
    forall a, b :: a in profiles && b in profiles && profiles[a].isDefault && profiles[b].isDefault ==> a == b
  }

  ghost predicate UniqueNames(profiles: map<int, Profile>) {
    forall a, b :: a in profiles && b in profiles && profiles[a].name == profiles[b].name ==> a == b
  }

  /** The unique indexes and foreign keys of the migrations. */
  ghost predicate Schema(db: Db) {
    && ProfileIds(db)
    && StoredWindows(db)
    && AtMostOneDefault(db.profiles)
    && UniqueNames(db.profiles)
    && (forall u :: u in db.users ==> 0 < u <= db.lastUser && Known(db, db.users[u].profileId))
    && 0 <= db.lastUser
  }

  ghost predicate HasDefault(db: Db) {
    exists d :: d in db.profiles && db.profiles[d].isDefault
  }

  ghost predicate DestinationsKnown(db: Db) {
    forall u :: u in db.users ==> Known(db, db.users[u].profileAfterExpiry)
  }

  /** The schema, a default profile, and nobody due for a profile that is gone. */
  ghost predicate Integrity(db: Db) {
    Schema(db) && HasDefault(db) && DestinationsKnown(db)
  }

  /** An assignment names a destination that exists, or none that counts. */
  predicate DestinationExists(db: Db, op: AdminOp) {
    op.Assign? && op.user in db.users && Known(db, op.profile) && op.expiresAt.Some? ==> Known(db, op.after)
  }

  lemma DemotedKeeps(profiles: map<int, Profile>, keep: int)
    requires AtMostOneDefault(profiles) && UniqueNames(profiles)
    ensures Demoted(profiles, keep).Keys == profiles.Keys
    ensures forall id :: id in profiles && id != keep ==> !Demoted(profiles, keep)[id].isDefault
    ensures forall id :: id in profiles ==> Demoted(profiles, keep)[id] == profiles[id].(isDefault := Demoted(profiles, keep)[id].isDefault)
    ensures AtMostOneDefault(Demoted(profiles, keep)) && UniqueNames(Demoted(profiles, keep))
  {
  }

  /** Profiles that keep their names and which of them is the default. */
  lemma SameNamesKeep(db: Db, r: Db)
    requires Integrity(db) && r.profiles.Keys == db.profiles.Keys && r.users == db.users
    requires forall id :: id in r.profiles ==>
               r.profiles[id].name == db.profiles[id].name && r.profiles[id].isDefault == db.profiles[id].isDefault
    ensures AtMostOneDefault(r.profiles) && UniqueNames(r.profiles) && HasDefault(r) && DestinationsKnown(r)
  {
    var d :| d in db.profiles && db.profiles[d].isDefault;
    assert r.profiles[d].isDefault;
  }

  lemma SetProfileQuotasKeeps(db: Db, id: int, quotas: seq<QuotaWindow>)
    requires Integrity(db) && id in db.profiles && SetProfileQuotas(db, id, quotas).Ok?
    ensures Integrity(SetProfileQuotas(db, id, quotas).value)
  {
    SameNamesKeep(db, SetProfileQuotas(db, id, quotas).value);
  }

  lemma SavedProfilesKeep(profiles: map<int, Profile>, id: int, row: Profile)
    requires AtMostOneDefault(profiles) && UniqueNames(profiles) && !NameTaken(profiles, row.name, id)
    requires exists d :: d in profiles && profiles[d].isDefault
    requires id in profiles && profiles[id].isDefault ==> row.isDefault
    ensures var r := (if row.isDefault then Demoted(profiles, id) else profiles)[id := row];
            AtMostOneDefault(r) && UniqueNames(r) && exists d :: d in r && r[d].isDefault
  {
    DemotedKeeps(profiles, id);
    var r := (if row.isDefault then Demoted(profiles, id) else profiles)[id := row];
    var d :| d in profiles && profiles[d].isDefault;
    assert r[if row.isDefault then id else d].isDefault;
  }

  /** Saving a row under a free name, demoting the others when it becomes the default. */
  lemma SaveRowKeeps(db: Db, id: int, row: Profile, r: Db)
    requires Integrity(db) && 0 < id <= r.lastProfile && db.lastProfile <= r.lastProfile
    requires !NameTaken(db.profiles, row.name, id)
    requires id in db.profiles && db.profiles[id].isDefault ==> row.isDefault
    requires r == db.(profiles := (if row.isDefault then Demoted(db.profiles, id) else db.profiles)[id := row],
                      lastProfile := r.lastProfile)
    ensures Integrity(r)
  {
    SavedProfilesKeep(db.profiles, id, row);
    assert r.profiles.Keys == db.profiles.Keys + {id};
    ProfilesGrow(db, r);
  }

  /** With more profiles, under ids that were given out, whoever named one still does. */
  lemma ProfilesGrow(db: Db, r: Db)
    requires Integrity(db) && r == db.(profiles := r.profiles, lastProfile := r.lastProfile)
    requires db.profiles.Keys <= r.profiles.Keys && forall id :: id in r.profiles ==> 0 < id <= r.lastProfile
    requires AtMostOneDefault(r.profiles) && UniqueNames(r.profiles) && HasDefault(r) && 0 <= r.lastProfile
    ensures Integrity(r)
  {
    forall u | u in r.users ensures Known(r, r.users[u].profileId) && Known(r, r.users[u].profileAfterExpiry) {
      assert Known(db, db.users[u].profileId) && Known(db, db.users[u].profileAfterExpiry);
    }
  }

  lemma NameStaysTaken(profiles: map<int, Profile>, keep: int, name: string, except: int)
    ensures NameTaken(Demoted(profiles, keep), name, except) <==> NameTaken(profiles, name, except)
  {
    if NameTaken(profiles, name, except) {
      var id :| id in profiles && id != except && profiles[id].name == name;
      assert Demoted(profiles, keep)[id].name == name;
    }
  }

  lemma CreateKeeps(db: Db, p: Profile, quotas: seq<QuotaWindow>)
    requires Integrity(db)
    ensures Integrity(Apply(db, Create(p, quotas)))
  {
    var r := CreateProfileRow(db, p);
    if r.Ok? {
      var id := db.lastProfile + 1;
      assert Demoted(db.profiles, 0) == Demoted(db.profiles, id);
      NameStaysTaken(db.profiles, id, p.name, id);
      SaveRowKeeps(db, id, r.value.profiles[id], r.value);
      if CreateProfile(db, p, quotas).Ok? {
        SetProfileQuotasKeeps(r.value, id, quotas);
      }
    }
  }

  lemma UpdateKeeps(db: Db, id: int, p: Profile, quotas: seq<QuotaWindow>)
    requires Integrity(db)
    ensures Integrity(Apply(db, Update(id, p, quotas)))
  {
    var r := UpdateProfileRow(db, id, p);
    if r.Ok? {
      NameStaysTaken(db.profiles, id, p.name, id);
      SaveRowKeeps(db, id, r.value.profiles[id], r.value);
      if UpdateProfile(db, id, p, quotas).Ok? {
        SetProfileQuotasKeeps(r.value, id, quotas);
      }
    }
  }

  lemma DeleteKeeps(db: Db, id: int)
    requires Integrity(db)
    ensures Integrity(Apply(db, Delete(id)))
  {
    if DeleteProfile(db, id).Ok? {
      var r := DeleteProfile(db, id).value;
      assert HasDefault(r) by {
        var d :| d in db.profiles && db.profiles[d].isDefault;
        assert d in r.profiles;
      }
      forall u | u in r.users ensures Known(r, r.users[u].profileId) && Known(r, r.users[u].profileAfterExpiry) {
        assert u !in AssignedTo(db, id);
      }
    }
  }

  /** When only users change, what matters is that they name profiles that exist. */
  lemma UsersReplaced(db: Db, r: Db)
    requires Integrity(db) && r == db.(users := r.users, lastUser := r.lastUser) && 0 <= r.lastUser
    requires forall u :: u in r.users ==> 0 < u <= r.lastUser && Known(db, r.users[u].profileId)
    ensures Integrity(r) <==> DestinationsKnown(r)
  {
    var d :| d in db.profiles && db.profiles[d].isDefault;
    assert r.profiles[d].isDefault;
  }

  lemma AccountOpKeeps(db: Db, op: AdminOp)
    requires Integrity(db) && (op.Assign? || op.Revert? || op.SignIn?)
    ensures Integrity(Apply(db, op)) <==> DestinationExists(db, op)
  {
    var r := Apply(db, op);
    UsersReplaced(db, r);
    if !DestinationExists(db, op) {
      assert !Known(r, r.users[op.user].profileAfterExpiry);
    }
  }

  /**
   * Every operation, refused or not, keeps the integrity of the tables, with
   * one exception: an assignment with a deadline whose destination does not
   * exist, which neither the code nor a foreign key refuses.
   */
  lemma IntegrityKept(db: Db, op: AdminOp)
    requires Integrity(db)
    ensures Integrity(Apply(db, op)) <==> DestinationExists(db, op)
  {
    match op
    case Create(p, quotas) => CreateKeeps(db, p, quotas);
    case Update(id, p, quotas) => UpdateKeeps(db, id, p, quotas);
    case Delete(id) => DeleteKeeps(db, id);
    case _ => AccountOpKeeps(db, op);
  }

  /** Each operation of the run names an existing destination when its turn comes. */
  ghost predicate DestinationsExist(db: Db, ops: seq<AdminOp>)
    decreases |ops|
  {
    ops == [] || (DestinationExists(db, ops[0]) && DestinationsExist(Apply(db, ops[0]), ops[1..]))
  }

  lemma {:induction false} IntegrityOfRuns(db: Db, ops: seq<AdminOp>)
    requires Integrity(db) && DestinationsExist(db, ops)
    ensures Integrity(ApplyAll(db, ops))
    decreases |ops|
  {
    if ops != [] {
      IntegrityKept(db, ops[0]);
      IntegrityOfRuns(Apply(db, ops[0]), ops[1..]);
    }
  }

  /** The exception is real: the assignment is accepted and leaves the user due for profile 99. */
  lemma DanglingDestinationAccepted()
    ensures exists db, op :: Integrity(db) && Attempt(db, op).Ok? && !Integrity(Apply(db, op))
  {
    var p := Profile("default", "", [], None, None, 0, true, 1);
    var u := User("sub", "a@b", "a", None, None, None, false);
    var db := Db(map[1 := p], map[], map[1 := u], map[], [], 1, 1, 0);
    assert Integrity(db) by {
      assert db.profiles[1].isDefault;
    }
    var op := Assign(1, Some(1), Some(10), Some(99), false);
    assert !DestinationExists(db, op);
    IntegrityKept(db, op);
  }

  /** Seeding succeeds exactly when there is a default, nothing at all, or a profile named default to promote. */
  lemma SeedEstablishesIntegrity(db: Db)
    requires Schema(db) && DestinationsKnown(db)
    ensures SeedDefaultProfile(db).Ok? <==> HasDefault(db) || db.profiles.Keys == {} || Named(db.profiles, "default")
    ensures SeedDefaultProfile(db).Ok? ==> Integrity(SeedDefaultProfile(db).value)
    ensures SeedDefaultProfile(db).Ok? && HasDefault(db) ==> SeedDefaultProfile(db).value == db
  {
    var r := SeedDefaultProfile(db);
    if r.Ok? && !HasDefault(db) {
      if db.profiles.Keys == {} {
        assert r.value.profiles[db.lastProfile + 1].isDefault;
        assert db.quotas.Keys == {};
      } else {
        assert Named(db.profiles, "default");
        var d :| d in db.profiles && db.profiles[d].name == "default";
        assert r.value.profiles[d].isDefault;
      }
    }
  }

  /** So every key's owner has a profile to take limits from. */
  lemma EveryOwnerHasAProfile(db: Db, u: int)
    requires Integrity(db) && u in db.users
    ensures EffectiveProfile(db, db.users[u]).Some?
    ensures EffectiveProfile(db, db.users[u]).value in db.profiles
    ensures db.users[u].profileId.None? ==> db.profiles[EffectiveProfile(db, db.users[u]).value].isDefault
  {
    var d :| d in db.profiles && db.profiles[d].isDefault;
    assert 1 <= d < db.lastProfile + 1;
  }

  // ----- Revisions -----

  /** Later tables b, seen from a: a revision never goes back, and an equal one means equal limits. */
  ghost predicate Evolves(a: Db, b: Db) {
    && a.lastProfile <= b.lastProfile
    && forall id :: id in b.profiles && id <= a.lastProfile ==>
        && id in a.profiles
        && a.profiles[id].limitsRev <= b.profiles[id].limitsRev
        && (a.profiles[id].limitsRev == b.profiles[id].limitsRev ==> SameLimits(LimitsOf(a, id), LimitsOf(b, id)))
  }

  lemma EvolvesTransitive(a: Db, b: Db, c: Db)
    requires Evolves(a, b) && Evolves(b, c)
    ensures Evolves(a, c)
  {
    forall id | id in c.profiles && id <= a.lastProfile
      ensures id in a.profiles && a.profiles[id].limitsRev <= c.profiles[id].limitsRev
      ensures a.profiles[id].limitsRev == c.profiles[id].limitsRev ==> SameLimits(LimitsOf(a, id), LimitsOf(c, id))
    {
      assert id in b.profiles;
    }
  }

  /** What an admin is told was demoted is what was: the defaults before a save that are none after it. */
  lemma DemotedAreNamed(db: Db, id: int, p: Profile, quotas: seq<QuotaWindow>, n: string)
    requires ProfileIds(db) && UpdateProfile(db, id, p, quotas).Ok?
    ensures var r := UpdateProfile(db, id, p, quotas).value;
            n in DemotedNames(db, id, p.isDefault) <==>
            exists k :: k in db.profiles && k in r.profiles && db.profiles[k].isDefault && !r.profiles[k].isDefault && db.profiles[k].name == n
  {
    var row := UpdateProfileRow(db, id, p).value;
    var r := UpdateProfile(db, id, p, quotas).value;
    WindowsSaved(row, id, quotas);
    forall k | k in db.profiles
      ensures k in r.profiles && (db.profiles[k].isDefault && !r.profiles[k].isDefault <==> p.isDefault && k != id && db.profiles[k].isDefault)
    {
      assert k in row.profiles;
    }
  }

  /** What saving windows stores, and the revision it leaves. */
  lemma WindowsSaved(db: Db, id: int, quotas: seq<QuotaWindow>)
    requires id in db.profiles && SetProfileQuotas(db, id, quotas).Ok?
    ensures var r := SetProfileQuotas(db, id, quotas).value;
            && r.lastProfile == db.lastProfile && r.profiles.Keys == db.profiles.Keys
            && r.quotas.Keys <= db.quotas.Keys + {id}
            && multiset(WindowsOf(r, id)) == multiset(EffectiveWindows(quotas))
            && r.profiles[id] == db.profiles[id].(limitsRev := r.profiles[id].limitsRev)
            && r.profiles[id].limitsRev == db.profiles[id].limitsRev +
               (if multiset(WindowsOf(db, id)) == multiset(EffectiveWindows(quotas)) then 0 else 1)
            && forall k :: k in db.profiles && k != id ==> r.profiles[k] == db.profiles[k] && WindowsOf(r, k) == WindowsOf(db, k)
  {
  }

  lemma SetProfileQuotasEvolves(db: Db, id: int, quotas: seq<QuotaWindow>)
    requires id in db.profiles && SetProfileQuotas(db, id, quotas).Ok?
    ensures Evolves(db, SetProfileQuotas(db, id, quotas).value)
    ensures ProfileIds(db) ==> ProfileIds(SetProfileQuotas(db, id, quotas).value)
  {
    WindowsSaved(db, id, quotas);
  }

  lemma CreateRowEvolves(db: Db, p: Profile)
    requires ProfileIds(db) && CreateProfileRow(db, p).Ok?
    ensures var r := CreateProfileRow(db, p).value;
            Evolves(db, r) && ProfileIds(r) && db.lastProfile + 1 in r.profiles
  {
  }

  lemma UpdateRowEvolves(db: Db, id: int, p: Profile)
    requires ProfileIds(db) && UpdateProfileRow(db, id, p).Ok?
    ensures var r := UpdateProfileRow(db, id, p).value;
            Evolves(db, r) && ProfileIds(r) && id in r.profiles
  {
  }

  lemma CreateEvolves(db: Db, p: Profile, quotas: seq<QuotaWindow>)
    requires ProfileIds(db) && CreateProfile(db, p, quotas).Ok?
    ensures Evolves(db, CreateProfile(db, p, quotas).value) && ProfileIds(CreateProfile(db, p, quotas).value)
  {
    var db1 := CreateProfileRow(db, p).value;
    CreateRowEvolves(db, p);
    SetProfileQuotasEvolves(db1, db.lastProfile + 1, quotas);
    EvolvesTransitive(db, db1, CreateProfile(db, p, quotas).value);
  }

  lemma UpdateEvolves(db: Db, id: int, p: Profile, quotas: seq<QuotaWindow>)
    requires ProfileIds(db) && UpdateProfile(db, id, p, quotas).Ok?
    ensures Evolves(db, UpdateProfile(db, id, p, quotas).value) && ProfileIds(UpdateProfile(db, id, p, quotas).value)
  {
    var db1 := UpdateProfileRow(db, id, p).value;
    UpdateRowEvolves(db, id, p);
    SetProfileQuotasEvolves(db1, id, quotas);
    EvolvesTransitive(db, db1, UpdateProfile(db, id, p, quotas).value);
  }

  lemma DeleteEvolves(db: Db, id: int)
    requires ProfileIds(db) && DeleteProfile(db, id).Ok?
    ensures Evolves(db, DeleteProfile(db, id).value) && ProfileIds(DeleteProfile(db, id).value)
  {
  }

  lemma SameProfilesEvolve(db: Db, r: Db)
    requires ProfileIds(db) && r.profiles == db.profiles && r.quotas == db.quotas && r.lastProfile == db.lastProfile
    ensures Evolves(db, r) && ProfileIds(r)
  {
  }

  lemma OtherOpEvolves(db: Db, op: AdminOp)
    requires ProfileIds(db) && !op.Create? && !op.Update?
    ensures Evolves(db, Apply(db, op)) && ProfileIds(Apply(db, op))
  {
    if op.Delete? {
      if DeleteProfile(db, op.id).Ok? {
        DeleteEvolves(db, op.id);
      }
    } else {
      SameProfilesEvolve(db, Apply(db, op));
    }
  }

  /** The revision is a freshness token for every operation ... */
  lemma OpEvolves(db: Db, op: AdminOp)
    requires ProfileIds(db)
    ensures Evolves(db, Apply(db, op)) && ProfileIds(Apply(db, op))
  {
    if Attempt(db, op).Ok? {
      match op
      case Create(p, quotas) => CreateEvolves(db, p, quotas);
      case Update(id, p, quotas) => UpdateEvolves(db, id, p, quotas);
      case _ => OtherOpEvolves(db, op);
    }
  }

  /** ... and over every run of them. */
  lemma {:induction false} RevisionTellsLimitsApart(db: Db, ops: seq<AdminOp>)
    requires ProfileIds(db)
    ensures Evolves(db, ApplyAll(db, ops))
    decreases |ops|
  {
    if ops != [] {
      var db1 := Apply(db, ops[0]);
      OpEvolves(db, ops[0]);
      RevisionTellsLimitsApart(db1, ops[1..]);
      EvolvesTransitive(db, db1, ApplyAll(db1, ops[1..]));
    }
  }

  /**
   * A save raises the revision exactly when the limits it stores differ from
   * the ones before, by one for the row and one for the windows, and what it
   * stores is what was asked for.
   */
  lemma RevisionExact(db: Db, id: int, p: Profile, quotas: seq<QuotaWindow>)
    requires UpdateProfile(db, id, p, quotas).Ok?
    ensures var r := UpdateProfile(db, id, p, quotas).value;
            && id in db.profiles && id in r.profiles
            && SameLimits(LimitsOf(r, id), RowLimits(p, EffectiveWindows(quotas)))
            && db.profiles[id].limitsRev <= r.profiles[id].limitsRev <= db.profiles[id].limitsRev + 2
            && (r.profiles[id].limitsRev == db.profiles[id].limitsRev <==> SameLimits(LimitsOf(db, id), LimitsOf(r, id)))
  {
    WindowsSaved(UpdateProfileRow(db, id, p).value, id, quotas);
  }

  /** And it leaves the limits and the revision of every other profile alone. */
  lemma UpdateIsLocal(db: Db, id: int, p: Profile, quotas: seq<QuotaWindow>, other: int)
    requires UpdateProfile(db, id, p, quotas).Ok? && other in db.profiles && other != id
    ensures var r := UpdateProfile(db, id, p, quotas).value;
            && other in r.profiles
            && LimitsOf(r, other) == LimitsOf(db, other)
            && r.profiles[other].limitsRev == db.profiles[other].limitsRev
            && (r.profiles[other].isDefault <==> db.profiles[other].isDefault && !p.isDefault)
  {
  }
}
