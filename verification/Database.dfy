/**
 * The portal's tables and what each transaction makes of them
 * (internal/database). A transaction that fails leaves the tables alone.
 */
module Database {
  import opened Options
  import opened KeyProvider
  import opened Quota

  type Time = int

  datatype Profile = Profile(
    name: string, description: string, models: seq<string>, tpm: Option<int>, rpm: Option<int>,
    keyDurationDays: int, isDefault: bool, limitsRev: int)

  datatype User = User(
    sub: string, email: string, name: string, profileId: Option<int>,
    profileExpiresAt: Option<Time>, profileAfterExpiry: Option<int>, revokeKeyAtExpiry: bool)

  datatype KeyRow = KeyRow(
    userId: int, ref: Ref, expiresAt: Time,
    syncedProfile: Option<int>, syncedRev: Option<int>, syncedName: Option<string>, syncedEmail: Option<string>,
    syncError: string, syncFailedAt: Option<Time>, missingSince: Option<Time>)

  datatype KeyEvent = Missing | Found | Gone

  /** An entry the store writes when it marks, unmarks or drops a key by itself. */
  datatype KeyAudit = KeyAudit(event: KeyEvent, key: int, owner: int, at: Time)

  /**
   * quotas groups the rows of profile_quotas by profile. The last ids are the
   * AUTOINCREMENT counters: an id is never given out twice.
   */
  datatype Db = Db(
    profiles: map<int, Profile>, quotas: map<int, seq<QuotaWindow>>,
    users: map<int, User>, keys: map<int, KeyRow>, audit: seq<KeyAudit>,
    lastProfile: int, lastUser: int, lastKey: int)

  datatype DbError = NoRows | DefaultProfile | ProfileInUse(users: nat) | Constraint | NoDefault

  // ----- Profiles -----

  function WindowsOf(db: Db, id: int): seq<QuotaWindow> {
    if id in db.quotas then db.quotas[id] else []
  }

  function RowLimits(p: Profile, windows: seq<QuotaWindow>): Limits {
    Limits(p.models, p.tpm, p.rpm, windows)
  }

  /** The limits a profile stands for now. */
  function LimitsOf(db: Db, id: int): Limits
    requires id in db.profiles
  {
    RowLimits(db.profiles[id], WindowsOf(db, id))
  }

  ghost predicate Named(profiles: map<int, Profile>, name: string) {
    exists id :: id in profiles && profiles[id].name == name
  }

  ghost predicate NameTaken(profiles: map<int, Profile>, name: string, except: int) {
    exists id :: id in profiles && id != except && profiles[id].name == name
  }

  /** Every profile but keep stops being the default; keep 0 keeps none. */
  function Demoted(profiles: map<int, Profile>, keep: int): map<int, Profile> {
    map id | id in profiles :: if id != keep then profiles[id].(isDefault := false) else profiles[id]
  }

  /** The names of the defaults with an id in [lo, hi) other than keep, by id. */
  function DefaultNames(profiles: map<int, Profile>, keep: int, lo: int, hi: int): (names: seq<string>)
    ensures forall n :: n in names <==>
              exists id :: lo <= id < hi && id != keep && id in profiles && profiles[id].isDefault && profiles[id].name == n
    decreases hi - lo
  {
    if lo >= hi then []
    else
      var rest := DefaultNames(profiles, keep, lo, hi - 1);
      var id := hi - 1;
      if id != keep && id in profiles && profiles[id].isDefault then rest + [profiles[id].name] else rest
  }

  /** The names of the profiles that saving one demotes from default: none unless it is saved as the default. */
  function DemotedNames(db: Db, keep: int, isDefault: bool): seq<string> {
    if isDefault then DefaultNames(db.profiles, keep, 1, db.lastProfile + 1) else []
  }

  ghost function SeedDefaultProfile(db: Db): Result<Db, DbError> {
    if exists id :: id in db.profiles && db.profiles[id].isDefault then Ok(db)
    else if db.profiles.Keys == {} then
      Ok(db.(profiles := map[db.lastProfile + 1 := Profile(
                "default", "Default profile — no rate or budget limits.", [], None, None, 0, true, 1)],
             lastProfile := db.lastProfile + 1))
    else if !Named(db.profiles, "default") then Err(NoDefault)
    else
      Ok(db.(profiles := map id | id in db.profiles ::
                if db.profiles[id].name == "default" then db.profiles[id].(isDefault := true) else db.profiles[id]))
  }

  /** Replaces a profile's windows and raises its revision, unless they enforce the same already. */
  ghost function SetProfileQuotas(db: Db, id: int, quotas: seq<QuotaWindow>): Result<Db, DbError>
    requires id in db.profiles
  {
    var rows := EffectiveWindows(quotas);
    if multiset(WindowsOf(db, id)) == multiset(rows) then Ok(db)
    else if !DistinctPeriods(rows) then Err(Constraint)
    else
      var p := db.profiles[id];
      Ok(db.(quotas := db.quotas[id := rows], profiles := db.profiles[id := p.(limitsRev := p.limitsRev + 1)]))
  }

  /** Inserts the row under the next id. */
  ghost function CreateProfileRow(db: Db, p: Profile): Result<Db, DbError> {
    var id := db.lastProfile + 1;
    var profiles := if p.isDefault then Demoted(db.profiles, 0) else db.profiles;
    if Named(profiles, p.name) then Err(Constraint)
    else
      Ok(db.(profiles := profiles[id := p.(limitsRev := if p.limitsRev == 0 then 1 else p.limitsRev)],
             lastProfile := id))
  }

  ghost function CreateProfile(db: Db, p: Profile, quotas: seq<QuotaWindow>): Result<Db, DbError> {
    var r := CreateProfileRow(db, p);
    if r.Err? then r else SetProfileQuotas(r.value, db.lastProfile + 1, quotas)
  }

  /** Whether saving p over cur changes a limit other than the windows. */
  predicate ChangesRow(cur: Profile, p: Profile) {
    cur.models != p.models || cur.tpm != p.tpm || cur.rpm != p.rpm
  }

  /** Saves the row, with its revision raised if a limit in it changes. */
  ghost function UpdateProfileRow(db: Db, id: int, p: Profile): Result<Db, DbError> {
    if id !in db.profiles then Err(NoRows)
    else
      var cur := db.profiles[id];
      if cur.isDefault && !p.isDefault then Err(DefaultProfile)
      else
        var profiles := if p.isDefault then Demoted(db.profiles, id) else db.profiles;
        if NameTaken(profiles, p.name, id) then Err(Constraint)
        else
          Ok(db.(profiles := profiles[id := p.(limitsRev := if ChangesRow(cur, p) then cur.limitsRev + 1 else cur.limitsRev)]))
  }

  ghost function UpdateProfile(db: Db, id: int, p: Profile, quotas: seq<QuotaWindow>): Result<Db, DbError> {
    var r := UpdateProfileRow(db, id, p);
    if r.Err? then r else SetProfileQuotas(r.value, id, quotas)
  }

  function AssignedTo(db: Db, id: int): set<int> {
    set u | u in db.users && db.users[u].profileId == Some(id)
  }

  /** Users due to land on a profile fall back to the default when it goes. */
  function ForgetDestination(users: map<int, User>, id: int): map<int, User> {
    map u | u in users ::
      if users[u].profileAfterExpiry == Some(id) then users[u].(profileAfterExpiry := None) else users[u]
  }

  function DeleteProfile(db: Db, id: int): Result<Db, DbError> {
    if id in db.profiles && db.profiles[id].isDefault then Err(DefaultProfile)
    else if AssignedTo(db, id) != {} then Err(ProfileInUse(|AssignedTo(db, id)|))
    else Ok(db.(quotas := db.quotas - {id}, users := ForgetDestination(db.users, id), profiles := db.profiles - {id}))
  }

  // ----- Users -----

  predicate Known(db: Db, profile: Option<int>) {
    profile.Some? ==> profile.value in db.profiles
  }

  /** The foreign key refuses a profile that does not exist; nothing checks the destination. */
  function SetUserProfileUntil(db: Db, user: int, profile: Option<int>, expiresAt: Option<Time>,
                               after: Option<int>, revokeKey: bool): Result<Db, DbError> {
    if user !in db.users then Ok(db)
    else if !Known(db, profile) then Err(Constraint)
    else
      Ok(db.(users := db.users[user := db.users[user].(
               profileId := profile, profileExpiresAt := expiresAt,
               profileAfterExpiry := if expiresAt == None then None else after,
               revokeKeyAtExpiry := expiresAt != None && revokeKey)]))
  }

  function ApplyProfileExpiry(db: Db, user: int, profile: Option<int>): Result<Db, DbError> {
    if user !in db.users then Ok(db)
    else if !Known(db, profile) then Err(Constraint)
    else
      Ok(db.(users := db.users[user := db.users[user].(
               profileId := profile, profileExpiresAt := None,
               profileAfterExpiry := None, revokeKeyAtExpiry := false)]))
  }

  /** A login brings the account's current name and address, or a new account. */
  function Login(db: Db, user: int, sub: string, email: string, name: string): Db {
    if user in db.users then db.(users := db.users[user := db.users[user].(email := email, name := name)])
    else if user == db.lastUser + 1 then
      db.(users := db.users[user := User(sub, email, name, None, None, None, false)], lastUser := user)
    else db
  }

  // ----- Keys -----

  function KeysOfUser(db: Db, user: int): set<int> {
    set k | k in db.keys && db.keys[k].userId == user
  }

  predicate HasKey(db: Db, user: int) {
    exists k :: k in db.keys && db.keys[k].userId == user
  }

  /** The unique index on api_keys. */
  predicate OneKeyEach(db: Db) {
    forall k, l :: k in db.keys && l in db.keys && db.keys[k].userId == db.keys[l].userId ==> k == l
  }

  function ReplaceAPIKey(db: Db, row: KeyRow): Result<Db, DbError> {
    if row.userId !in db.users then Err(Constraint)
    else
      Ok(db.(keys := (db.keys - KeysOfUser(db, row.userId))[db.lastKey + 1 := row], lastKey := db.lastKey + 1))
  }

  /** The row of a key that was just created from a profile read at a revision. */
  function NewKeyRow(user: int, ref: Ref, expiresAt: Time, profile: int, rev: int, name: string, email: string): KeyRow {
    KeyRow(user, ref, expiresAt, Some(profile), Some(rev), Some(name), Some(email), "", None, None)
  }

  function DeleteAPIKey(db: Db, key: int): Db {
    db.(keys := db.keys - {key})
  }

  function SetRow(db: Db, key: int, row: KeyRow): Db {
    if key in db.keys then db.(keys := db.keys[key := row]) else db
  }

  function UpdateAPIKeyExpiry(db: Db, key: int, expiresAt: Time): Db {
    if key !in db.keys then db else SetRow(db, key, db.keys[key].(expiresAt := expiresAt))
  }

  /** A key already marked keeps its first timestamp. */
  function MarkKeyMissing(db: Db, key: int, owner: int, now: Time): Db {
    if key !in db.keys || db.keys[key].missingSince.Some? then db
    else SetRow(db, key, db.keys[key].(missingSince := Some(now))).(audit := db.audit + [KeyAudit(Missing, key, owner, now)])
  }

  /** The key is made out of date too: whatever changed while it was gone has not reached it. */
  function ClearKeyMissing(db: Db, key: int, owner: int, now: Time): Db {
    if key !in db.keys || db.keys[key].missingSince.None? then db
    else
      SetRow(db, key, db.keys[key].(missingSince := None, syncedRev := None))
      .(audit := db.audit + [KeyAudit(Found, key, owner, now)])
  }

  predicate MissingBefore(db: Db, key: int, cutoff: Time) {
    key in db.keys && db.keys[key].missingSince.Some? && db.keys[key].missingSince.value <= cutoff
  }

  function RemoveMissingKey(db: Db, key: int, owner: int, cutoff: Time, now: Time): Db {
    if !MissingBefore(db, key, cutoff) then db
    else DeleteAPIKey(db, key).(audit := db.audit + [KeyAudit(Gone, key, owner, now)])
  }

  function MarkLimitsSynced(db: Db, key: int, profile: int, rev: int, name: string, email: string): Db {
    if key !in db.keys then db
    else
      SetRow(db, key, db.keys[key].(
        syncedProfile := Some(profile), syncedRev := Some(rev), syncedName := Some(name), syncedEmail := Some(email),
        syncError := "", syncFailedAt := None))
  }

  function MarkLimitSyncFailed(db: Db, key: int, reason: string, at: Time): Db {
    if key !in db.keys then db else SetRow(db, key, db.keys[key].(syncError := reason, syncFailedAt := Some(at)))
  }

  function MarkAllLimitsPending(db: Db): Db {
    db.(keys := map k | k in db.keys :: db.keys[k].(syncedRev := None))
  }

  // ----- What is out of date -----

  /** The lowest default profile with an id in [lo, hi). */
  function LowestDefault(profiles: map<int, Profile>, lo: int, hi: int): (d: Option<int>)
    ensures d.Some? ==>
              && lo <= d.value < hi && d.value in profiles && profiles[d.value].isDefault
              && forall id :: lo <= id < d.value && id in profiles ==> !profiles[id].isDefault
    ensures d.None? ==> forall id :: lo <= id < hi && id in profiles ==> !profiles[id].isDefault
    decreases hi - lo
  {
    if lo >= hi then None
    else if lo in profiles && profiles[lo].isDefault then Some(lo)
    else LowestDefault(profiles, lo + 1, hi)
  }

  /** The owner's own profile, or the default for owners without one. */
  function EffectiveProfile(db: Db, u: User): Option<int> {
    if u.profileId.Some? then u.profileId else LowestDefault(db.profiles, 1, db.lastProfile + 1)
  }

  /** The limits the key carries upstream, or its owner's labels, are not the current ones. */
  predicate OutOfDate(db: Db, k: KeyRow)
    requires k.userId in db.users
  {
    var u := db.users[k.userId];
    var p := EffectiveProfile(db, u);
    || p.None? || p.value !in db.profiles
    || k.syncedProfile != p || k.syncedRev != Some(db.profiles[p.value].limitsRev)
    || k.syncedName != Some(u.name) || k.syncedEmail != Some(u.email)
  }

  /** Out of date, and not marked missing; pending once it is not expired either. */
  predicate Stale(db: Db, key: int) {
    && key in db.keys && db.keys[key].userId in db.users
    && db.keys[key].missingSince.None? && OutOfDate(db, db.keys[key])
  }

  predicate Pending(db: Db, key: int, now: Time) {
    Stale(db, key) && db.keys[key].expiresAt > now
  }

  function PendingKeys(db: Db, now: Time): set<int> {
    set k | k in db.keys && Pending(db, k, now)
  }
}
