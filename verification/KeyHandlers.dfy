/**
 * The owner's key requests from beginning to end, under the owner's lock
 * (internal/handlers/ui.go). What others do in between is in KeyIssue.
 */
module KeyHandlers {
  import opened Options
  import opened KeyProvider
  import opened Database
  import opened Stores
  import Gateway
  import LiteLLM
  import RoundTrip

  /** Which calls fail. */
  datatype Trouble = Trouble(load: bool, create: bool, save: bool, delete: bool, extend: bool)

  datatype Reply = Done | LoadFailed | NoKey | KeyMissing | NoProfile | CreateFailed | SaveFailed | DeleteFailed | ExtendFailed

  /** The profile a key request goes by, if the store finds it (resolveProfile). */
  function ProfileOf(db: Db, user: int): Option<int>
    requires user in db.users
  {
    var p := EffectiveProfile(db, db.users[user]);
    if p.Some? && p.value in db.profiles then p else None
  }

  /** The row of a key issued now. */
  function IssuedRow(db: Db, user: int, ref: Ref, expiresAt: Time): KeyRow
    requires user in db.users && ProfileOf(db, user).Some?
  {
    var p, u := ProfileOf(db, user).value, db.users[user];
    NewKeyRow(user, ref, expiresAt, p, db.profiles[p].limitsRev, u.name, u.email)
  }

  /** The gateway refuses an alias that some key has. */
  predicate AliasTaken(keys: map<Ref, Gateway.Key>, alias: string) {
    exists r :: r in keys && keys[r].alias == alias
  }

  /** The user's key is marked missing. */
  predicate IsMarked(db: Db, user: int) {
    exists k :: k in db.keys && db.keys[k].userId == user && db.keys[k].missingSince.Some?
  }

  /** The refs of the user's keys. */
  function RefsOf(db: Db, user: int): set<Ref> {
    set k | k in db.keys && db.keys[k].userId == user :: db.keys[k].ref
  }

  // ----- What a request leaves, by the records -----

  /** The user goes by profile p, which exists. */
  ghost predicate UnderProfile(db: Db, user: int, p: int)
    requires user in db.users
  {
    GoesBy(db, db.users[user], Some(p)) && p in db.profiles
  }

  /** How long a key lasts: as its profile says, or as the portal does if the profile does not. */
  ghost predicate Lasts(p: Profile, fallback: int, days: int) {
    if p.keyDurationDays > 0 then days == p.keyDurationDays else days == fallback
  }

  /** The user has one row, a new one for that key; the rows of others stay. */
  ghost predicate HasNewRow(a: Db, b: Db, user: int, ref: Ref, p: int, expiresAt: Time)
    requires user in a.users && p in a.profiles
  {
    && b.users == a.users && b.profiles == a.profiles && b.lastKey in b.keys
    && b.keys[b.lastKey] == KeyRow(user, ref, expiresAt, Some(p), Some(a.profiles[p].limitsRev), Some(a.users[user].name),
                                   Some(a.users[user].email), "", None, None)
    && forall k :: k != b.lastKey ==>
         && (k in b.keys <==> k in a.keys && a.keys[k].userId != user)
         && (k in b.keys ==> b.keys[k] == a.keys[k])
  }

  /** The new key authorises what the profile says. */
  ghost predicate Grants(k: Gateway.Key, p: Profile, alias: string, owner: Owner) {
    k.alias == alias && k.models == p.models && k.tpm == p.tpm && k.rpm == p.rpm && k.owner == owner.id
  }

  /** Some row of the user holds that key. */
  ghost predicate HoldsKey(db: Db, user: int, r: Ref) {
    exists k :: k in db.keys && db.keys[k].userId == user && db.keys[k].ref == r
  }

  /** The gateway's other keys stay, but for those the user held before unless they could not be revoked. */
  ghost predicate OthersKept(db: Db, was: map<Ref, Gateway.Key>, now: map<Ref, Gateway.Key>, user: int, ref: Ref, kept: bool) {
    forall r :: r != ref ==>
      && (r in now <==> r in was && (kept || !HoldsKey(db, user, r)))
      && (r in now ==> now[r] == was[r])
  }

  /** Row, key and expiry are those of profile p, for so many days from now. */
  ghost predicate IsIssued(a: Db, b: Db, key: Gateway.Key, expiry: int, user: int, ref: Ref, alias: string, owner: Owner, at: Time,
                           fallback: int, p: int, days: int)
    requires user in a.users
  {
    && UnderProfile(a, user, p) && Lasts(a.profiles[p], fallback, days)
    && HasNewRow(a, b, user, ref, p, at + 86400 * days) && expiry == at + 86400 * days
    && Grants(key, a.profiles[p], alias, owner)
  }

  /** A key request that is done: the row, the key and its expiry are those of the user's profile. */
  ghost predicate IsDone(a: Db, b: Db, was: map<Ref, Gateway.Key>, now: map<Ref, Gateway.Key>, expiry: map<Ref, int>, user: int, ref: Ref,
                         alias: string, owner: Owner, at: Time, fallback: int, kept: bool)
    requires user in a.users
  {
    && OthersKept(a, was, now, user, ref, kept) && ref in now && ref in expiry
    && exists p, days :: IsIssued(a, b, now[ref], expiry[ref], user, ref, alias, owner, at, fallback, p, days)
  }

  lemma RowIssued(db: Db, user: int, ref: Ref, expiresAt: Time)
    requires user in db.users && ProfileOf(db, user).Some?
    ensures UnderProfile(db, user, ProfileOf(db, user).value)
    ensures HasNewRow(db, ReplaceAPIKey(db, IssuedRow(db, user, ref, expiresAt)).value, user, ref, ProfileOf(db, user).value, expiresAt)
  {
    GoesByOne(db, db.users[user], ProfileOf(db, user));
  }

  lemma OthersAfter(a: Db, st: Gateway.State, user: int, ref: Ref, alias: string, owner: Owner, l: Limits, kept: bool)
    ensures OthersKept(a, st.keys, Revoked(LiteLLM.KeyCreated(st, ref, alias, owner, l), if kept then {} else RefsOf(a, user)).keys,
                       user, ref, kept)
  {
    var r := Revoked(LiteLLM.KeyCreated(st, ref, alias, owner, l), if kept then {} else RefsOf(a, user));
    forall x | x != ref ensures (x in r.keys <==> x in st.keys && (kept || !HoldsKey(a, user, x))) && (x in r.keys ==> r.keys[x] == st.keys[x]) {
      assert x in RefsOf(a, user) <==> HoldsKey(a, user, x);
    }
  }

  lemma CreatedGrants(st: Gateway.State, ref: Ref, alias: string, owner: Owner, p: Profile, l: Limits)
    requires l.models == p.models && l.tpm == p.tpm && l.rpm == p.rpm
    ensures Grants(LiteLLM.KeyCreated(st, ref, alias, owner, l).keys[ref], p, alias, owner)
  {
  }

  /** What its parts come to for a request that is done. */
  lemma RequestDone(a: Db, st: Gateway.State, user: int, ref: Ref, alias: string, owner: Owner, at: Time, fallback: int, days: int,
                    kept: bool, expiry: map<Ref, int>)
    requires user in a.users && ProfileOf(a, user).Some? && ref !in RefsOf(a, user) && ref !in st.keys
    requires Lasts(a.profiles[ProfileOf(a, user).value], fallback, days)
    requires ref in expiry && expiry[ref] == at + 86400 * days
    ensures var r := Revoked(LiteLLM.KeyCreated(st, ref, alias, owner, LimitsOf(a, ProfileOf(a, user).value)),
                             if kept then {} else RefsOf(a, user));
            IsDone(a, ReplaceAPIKey(a, IssuedRow(a, user, ref, at + 86400 * days)).value, st.keys, r.keys, expiry, user, ref,
                   alias, owner, at, fallback, kept)
  {
    var p := ProfileOf(a, user).value;
    var r := Revoked(LiteLLM.KeyCreated(st, ref, alias, owner, LimitsOf(a, p)), if kept then {} else RefsOf(a, user));
    RowIssued(a, user, ref, at + 86400 * days);
    OthersAfter(a, st, user, ref, alias, owner, LimitsOf(a, p), kept);
    CreatedGrants(st, ref, alias, owner, a.profiles[p], LimitsOf(a, p));
    assert IsIssued(a, ReplaceAPIKey(a, IssuedRow(a, user, ref, at + 86400 * days)).value, r.keys[ref], expiry[ref], user, ref, alias, owner, at,
                    fallback, p, days);
  }

  /** The key of row k is good for so many days, as profile p says. */
  ghost predicate IsExtended(a: Db, b: Db, was: map<Ref, int>, expiry: map<Ref, int>, user: int, now: Time, fallback: int, saved: bool,
                             k: int, p: int, days: int)
    requires user in a.users
  {
    && k in a.keys && a.keys[k].userId == user && UnderProfile(a, user, p) && Lasts(a.profiles[p], fallback, days)
    && a.keys[k].ref in expiry && expiry[a.keys[k].ref] == now + 86400 * days
    && (forall r :: r != a.keys[k].ref ==> (r in expiry <==> r in was) && (r in was ==> expiry[r] == was[r]))
    && b.keys.Keys == a.keys.Keys && b.users == a.users && b.profiles == a.profiles
    && (forall j :: j in a.keys ==> b.keys[j] == if j == k && saved then a.keys[j].(expiresAt := now + 86400 * days) else a.keys[j])
  }

  /** The user's key is good for the days of its profile from now, in the gateway and, if that was saved, in its row. */
  ghost predicate ExtendedTo(a: Db, b: Db, was: map<Ref, int>, expiry: map<Ref, int>, user: int, now: Time, fallback: int, saved: bool)
    requires user in a.users
  {
    exists k, p, days :: IsExtended(a, b, was, expiry, user, now, fallback, saved, k, p, days)
  }

  /** At most the user's row changes, and only to be marked now if it was not marked before. */
  ghost predicate MarkedOnly(a: Db, b: Db, user: int, now: Time, saved: bool) {
    && b.keys.Keys == a.keys.Keys && b.users == a.users && b.profiles == a.profiles
    && forall j :: j in a.keys ==>
         b.keys[j] == if a.keys[j].userId == user && a.keys[j].missingSince == None && saved then a.keys[j].(missingSince := Some(now))
                      else a.keys[j]
  }

  lemma KeyExtended(a: Db, b: Db, was: map<Ref, int>, expiry: map<Ref, int>, user: int, now: Time, fallback: int, saved: bool)
    requires user in a.users && ProfileOf(a, user).Some? && HasKey(a, user)
    requires forall k :: k in a.keys && a.keys[k].userId == user ==>
               var until := now + 86400 * if a.profiles[ProfileOf(a, user).value].keyDurationDays > 0
                                          then a.profiles[ProfileOf(a, user).value].keyDurationDays else fallback;
               && expiry == was[a.keys[k].ref := until]
               && b == if saved then UpdateAPIKeyExpiry(a, k, until) else a
    ensures ExtendedTo(a, b, was, expiry, user, now, fallback, saved)
  {
    var k :| k in a.keys && a.keys[k].userId == user;
    var p := ProfileOf(a, user).value;
    GoesByOne(a, a.users[user], ProfileOf(a, user));
    var days := if a.profiles[p].keyDurationDays > 0 then a.profiles[p].keyDurationDays else fallback;
    assert IsExtended(a, b, was, expiry, user, now, fallback, saved, k, p, days);
  }

  lemma NoProfileLeft(db: Db, user: int)
    requires user in db.users && ProfileOf(db, user).None?
    ensures forall p :: !UnderProfile(db, user, p)
  {
    forall p ensures !UnderProfile(db, user, p) {
      GoesByOne(db, db.users[user], Some(p));
    }
  }

  class Handlers {
    const store: Store
    const keys: LiteLLM.Provider
    const keyDurationDays: int
    /** How often the limit sync was asked to run. */
    var kicks: nat

    constructor (store: Store, keys: LiteLLM.Provider, keyDurationDays: int)
      ensures this.store == store && this.keys == keys && this.keyDurationDays == keyDurationDays && kicks == 0
    {
      this.store, this.keys, this.keyDurationDays, this.kicks := store, keys, keyDurationDays, 0;
    }

    function Records(): Gateway.State
      reads keys.server
    {
      keys.server.Records()
    }

    function Duration(p: Profile): int {
      if p.keyDurationDays > 0 then p.keyDurationDays else keyDurationDays
    }

    function ExpiryFrom(now: Time, user: int): Time
      reads store
      requires user in store.users && ProfileOf(store.Tables(), user).Some?
    {
      now + 86400 * Duration(store.profiles[ProfileOf(store.Tables(), user).value])
    }

    /** The refs that are revoked once the user's new key is stored. */
    function Replaced(user: int, t: Trouble): set<Ref>
      reads store
    {
      if t.delete then {} else RefsOf(store.Tables(), user)
    }

    /** Creates the new key before it revokes the old one; a key that cannot be stored is revoked again. */
    method GenerateKey(user: int, owner: Owner, ref: Ref, alias: string, now: Time, t: Trouble) returns (reply: Reply)
      requires user in store.users && OneKeyEach(store.Tables()) && ref !in keys.server.keys && ref !in RefsOf(store.Tables(), user)
      modifies store, keys.server
      ensures reply == (if t.load then LoadFailed else if ProfileOf(old(store.Tables()), user).None? then NoProfile
                        else if t.create || AliasTaken(old(keys.server.keys), alias) then CreateFailed
                        else if t.save then SaveFailed else Done)
      ensures reply in {LoadFailed, NoProfile} ==> Records() == old(Records()) && keys.server.expiry == old(keys.server.expiry)
      ensures reply !in {LoadFailed, NoProfile} ==>
                && ProfileOf(old(store.Tables()), user).Some?
                && Issued(reply, old(Records()), IssuedRow(old(store.Tables()), user, ref, old(ExpiryFrom(now, user))), alias, owner,
                          LimitsOf(old(store.Tables()), ProfileOf(old(store.Tables()), user).value), old(Replaced(user, t)), t)
      ensures reply == Done ==>
                && ReplaceAPIKey(old(store.Tables()), IssuedRow(old(store.Tables()), user, ref, old(ExpiryFrom(now, user)))) == Ok(store.Tables())
                && keys.server.expiry == old(keys.server.expiry)[ref := old(ExpiryFrom(now, user))]
      ensures reply != Done ==> store.Tables() == old(store.Tables())
      ensures reply == Done ==>
                IsDone(old(store.Tables()), store.Tables(), old(keys.server.keys), keys.server.keys, keys.server.expiry, user, ref,
                       alias, owner, now, keyDurationDays, t.delete)
      ensures reply == NoProfile ==> forall p :: !UnderProfile(old(store.Tables()), user, p)
      ensures reply == CreateFailed || (reply == SaveFailed && !t.delete) ==> keys.server.keys == old(keys.server.keys)
    {
      ghost var a, st := store.Tables(), Records();
      if ProfileOf(a, user).None? {
        NoProfileLeft(a, user);
      }
      reply := Generate(user, owner, ref, alias, now, t);
      if reply == Done {
        RequestDone(a, st, user, ref, alias, owner, now, keyDurationDays, Duration(a.profiles[ProfileOf(a, user).value]), t.delete,
                    keys.server.expiry);
      }
    }

    method Generate(user: int, owner: Owner, ref: Ref, alias: string, now: Time, t: Trouble) returns (reply: Reply)
      requires user in store.users && OneKeyEach(store.Tables()) && ref !in keys.server.keys && ref !in RefsOf(store.Tables(), user)
      modifies store, keys.server
      ensures reply == (if t.load then LoadFailed else if ProfileOf(old(store.Tables()), user).None? then NoProfile
                        else if t.create || AliasTaken(old(keys.server.keys), alias) then CreateFailed
                        else if t.save then SaveFailed else Done)
      ensures reply in {LoadFailed, NoProfile} ==> Records() == old(Records()) && keys.server.expiry == old(keys.server.expiry)
      ensures reply !in {LoadFailed, NoProfile} ==>
                && ProfileOf(old(store.Tables()), user).Some?
                && Issued(reply, old(Records()), IssuedRow(old(store.Tables()), user, ref, old(ExpiryFrom(now, user))), alias, owner,
                          LimitsOf(old(store.Tables()), ProfileOf(old(store.Tables()), user).value), old(Replaced(user, t)), t)
      ensures reply == Done ==>
                && ReplaceAPIKey(old(store.Tables()), IssuedRow(old(store.Tables()), user, ref, old(ExpiryFrom(now, user)))) == Ok(store.Tables())
                && keys.server.expiry == old(keys.server.expiry)[ref := old(ExpiryFrom(now, user))]
      ensures reply != Done ==> store.Tables() == old(store.Tables())
    {
      if t.load {
        return LoadFailed;
      }
      var existing := store.GetAPIKeyByUser(user);
      var id := EffectiveProfile(store.Tables(), store.users[user]);
      if id.None? || id.value !in store.profiles {
        return NoProfile;
      }
      var profile := store.profiles[id.value];
      var u := store.users[user];
      var row := NewKeyRow(user, ref, ExpiryFrom(now, user), id.value, profile.limitsRev, u.name, u.email);
      var oldRef := if existing.Some? then Some(store.keys[existing.value].ref) else None;
      if existing.Some? {
        OnlyKey(store.Tables(), user, existing.value);
      } else {
        NoKeyLeft(store.Tables(), user);
      }
      reply := Issue(row, alias, owner, LimitsOf(store.Tables(), id.value), oldRef, t);
    }

    /** What the gateway holds after a key was to be issued. */
    predicate Issued(reply: Reply, before: Gateway.State, row: KeyRow, alias: string, owner: Owner, limits: Limits,
                     replaced: set<Ref>, t: Trouble)
      reads keys.server
    {
      var created := LiteLLM.KeyCreated(before, row.ref, alias, owner, limits);
      match reply
      case Done => Records() == Revoked(created, replaced)
      case SaveFailed => t.save && Records() == if t.delete then created else Revoked(created, {row.ref})
      case CreateFailed => Records() == if t.create then before else LiteLLM.OwnerBound(before, owner, limits)
      case _ => false
    }

    /** Creates the key in the gateway, then stores it. */
    method Issue(row: KeyRow, alias: string, owner: Owner, limits: Limits, oldRef: Option<Ref>, t: Trouble) returns (reply: Reply)
      requires row.userId in store.users && row.ref !in keys.server.keys
      modifies store, keys.server
      ensures reply == (if t.create || AliasTaken(old(keys.server.keys), alias) then CreateFailed
                        else if t.save then SaveFailed else Done)
      ensures Issued(reply, old(Records()), row, alias, owner, limits, if t.delete || oldRef.None? then {} else {oldRef.value}, t)
      ensures reply == Done ==>
                && ReplaceAPIKey(old(store.Tables()), row) == Ok(store.Tables())
                && keys.server.expiry == old(keys.server.expiry)[row.ref := row.expiresAt]
      ensures reply != Done ==> store.Tables() == old(store.Tables())
    {
      if t.create {
        return CreateFailed;
      }
      var created := keys.CreateKey(row.ref, alias, row.expiresAt, owner, limits);
      if created.Err? {
        return CreateFailed;
      }
      reply := Swap(row, oldRef, t);
    }

    /** Stores the new key's row and revokes the old key, or the new one if it cannot be stored. */
    method Swap(row: KeyRow, oldRef: Option<Ref>, t: Trouble) returns (reply: Reply)
      requires row.userId in store.users
      modifies store, keys.server`keys
      ensures reply == if t.save then SaveFailed else Done
      ensures reply == Done ==> ReplaceAPIKey(old(store.Tables()), row) == Ok(store.Tables())
      ensures reply == SaveFailed ==> store.Tables() == old(store.Tables())
      ensures Records() == if t.delete then old(Records())
                           else if t.save then Revoked(old(Records()), {row.ref})
                           else if oldRef.Some? then Revoked(old(Records()), {oldRef.value}) else old(Records())
    {
      if t.save {
        if !t.delete {
          keys.DeleteKey(row.ref);
        }
        return SaveFailed;
      }
      var _ := store.ReplaceAPIKey(row);
      if oldRef.Some? && !t.delete {
        keys.DeleteKey(oldRef.value);
      }
      return Done;
    }

    /** Revokes upstream first, so that a key that is still live keeps its row. */
    method DeleteKey(user: int, t: Trouble) returns (reply: Reply)
      requires OneKeyEach(store.Tables())
      modifies store, keys.server
      ensures reply == (if t.load then LoadFailed else if !HasKey(old(store.Tables()), user) then NoKey
                        else if t.delete then DeleteFailed else if t.save then SaveFailed else Done)
      ensures reply in {Done, SaveFailed} ==> Records() == Revoked(old(Records()), RefsOf(old(store.Tables()), user))
      ensures reply !in {Done, SaveFailed} ==> Records() == old(Records())
      ensures reply == Done ==>
                store.Tables() == old(store.Tables()).(keys := old(store.keys) - KeysOfUser(old(store.Tables()), user))
      ensures reply != Done ==> store.Tables() == old(store.Tables())
      ensures reply == NoKey ==> forall k :: k in store.keys ==> store.keys[k].userId != user
      ensures reply == Done ==> forall k ::
                && (k in store.keys <==> k in old(store.keys) && old(store.keys)[k].userId != user)
                && (k in store.keys ==> store.keys[k] == old(store.keys)[k])
      ensures reply in {Done, SaveFailed} ==> forall r ::
                && (r in keys.server.keys <==> r in old(keys.server.keys) && !HoldsKey(old(store.Tables()), user, r))
                && (r in keys.server.keys ==> keys.server.keys[r] == old(keys.server.keys)[r])
    {
      if t.load {
        return LoadFailed;
      }
      var key := store.GetAPIKeyByUser(user);
      if key.None? {
        NoKeyLeft(store.Tables(), user);
        return NoKey;
      }
      OnlyKey(store.Tables(), user, key.value);
      if t.delete {
        return DeleteFailed;
      }
      keys.DeleteKey(store.keys[key.value].ref);
      if t.save {
        return SaveFailed;
      }
      store.DeleteAPIKey(key.value);
      return Done;
    }

    /** Extends the key, in the gateway first, or marks it missing when the gateway does not have it. */
    method ExtendKey(user: int, now: Time, t: Trouble) returns (reply: Reply)
      requires user in store.users && OneKeyEach(store.Tables())
      modifies store, this`kicks, keys.server`expiry
      ensures reply == (if t.load then LoadFailed else if !HasKey(old(store.Tables()), user) then NoKey
                        else if IsMarked(old(store.Tables()), user) then KeyMissing
                        else if ProfileOf(old(store.Tables()), user).None? then NoProfile
                        else if t.extend then ExtendFailed
                        else if RefsOf(old(store.Tables()), user) !! old(keys.server.keys).Keys then KeyMissing else Done)
      ensures kicks == old(kicks) + if reply == Done then 1 else 0
      ensures reply in {LoadFailed, NoKey, NoProfile, ExtendFailed} ==> store.Tables() == old(store.Tables())
      ensures reply != Done ==> keys.server.expiry == old(keys.server.expiry)
      ensures forall k :: k in old(store.keys) && old(store.keys)[k].userId == user ==>
                && (reply == Done ==>
                      && old(store.keys)[k].missingSince.None? && old(store.keys)[k].ref in Records().keys
                      && ProfileOf(old(store.Tables()), user).Some?
                      && keys.server.expiry == old(keys.server.expiry)[old(store.keys)[k].ref := old(ExpiryFrom(now, user))]
                      && store.Tables() == (if t.save then old(store.Tables())
                                            else UpdateAPIKeyExpiry(old(store.Tables()), k, old(ExpiryFrom(now, user)))))
                && (reply == KeyMissing ==>
                      && (old(store.keys)[k].missingSince.Some? || old(store.keys)[k].ref !in Records().keys)
                      && store.Tables() == (if t.save then old(store.Tables()) else MarkKeyMissing(old(store.Tables()), k, user, now)))
      ensures reply == Done ==>
                ExtendedTo(old(store.Tables()), store.Tables(), old(keys.server.expiry), keys.server.expiry, user, now, keyDurationDays, !t.save)
      ensures reply == KeyMissing ==> MarkedOnly(old(store.Tables()), store.Tables(), user, now, !t.save)
    {
      ghost var a, expiry := store.Tables(), keys.server.expiry;
      reply := Extend(user, now, t);
      if reply == Done {
        KeyExtended(a, store.Tables(), expiry, keys.server.expiry, user, now, keyDurationDays, !t.save);
      }
    }

    method Extend(user: int, now: Time, t: Trouble) returns (reply: Reply)
      requires user in store.users && OneKeyEach(store.Tables())
      modifies store, this`kicks, keys.server`expiry
      ensures reply == (if t.load then LoadFailed else if !HasKey(old(store.Tables()), user) then NoKey
                        else if IsMarked(old(store.Tables()), user) then KeyMissing
                        else if ProfileOf(old(store.Tables()), user).None? then NoProfile
                        else if t.extend then ExtendFailed
                        else if RefsOf(old(store.Tables()), user) !! old(keys.server.keys).Keys then KeyMissing else Done)
      ensures kicks == old(kicks) + if reply == Done then 1 else 0
      ensures reply in {LoadFailed, NoKey, NoProfile, ExtendFailed} ==> store.Tables() == old(store.Tables())
      ensures reply != Done ==> keys.server.expiry == old(keys.server.expiry)
      ensures forall k :: k in old(store.keys) && old(store.keys)[k].userId == user ==>
                && (reply == Done ==>
                      && old(store.keys)[k].missingSince.None? && old(store.keys)[k].ref in Records().keys
                      && ProfileOf(old(store.Tables()), user).Some?
                      && keys.server.expiry == old(keys.server.expiry)[old(store.keys)[k].ref := old(ExpiryFrom(now, user))]
                      && store.Tables() == (if t.save then old(store.Tables())
                                            else UpdateAPIKeyExpiry(old(store.Tables()), k, old(ExpiryFrom(now, user)))))
                && (reply == KeyMissing ==>
                      && (old(store.keys)[k].missingSince.Some? || old(store.keys)[k].ref !in Records().keys)
                      && store.Tables() == (if t.save then old(store.Tables()) else MarkKeyMissing(old(store.Tables()), k, user, now)))
    {
      if t.load {
        return LoadFailed;
      }
      var key := store.GetAPIKeyByUser(user);
      if key.None? {
        NoKeyLeft(store.Tables(), user);
        return NoKey;
      }
      var id := key.value;
      OnlyKey(store.Tables(), user, id);
      if store.keys[id].missingSince.Some? {
        return KeyMissing;
      }
      if ProfileOf(store.Tables(), user).None? {
        return NoProfile;
      }
      var until := ExpiryFrom(now, user);
      if t.extend {
        return ExtendFailed;
      }
      var extended := keys.UpdateExpiry(store.keys[id].ref, until);
      if extended.Err? {
        if !t.save {
          var _ := store.MarkKeyMissing(id, user, now);
        }
        return KeyMissing;
      }
      if !t.save {
        store.UpdateAPIKeyExpiry(id, until);
      }
      kicks := kicks + 1;
      return Done;
    }
  }

  function Revoked(st: Gateway.State, refs: set<Ref>): Gateway.State {
    st.(keys := st.keys - refs)
  }

  lemma OnlyKey(db: Db, user: int, key: int)
    requires OneKeyEach(db) && key in db.keys && db.keys[key].userId == user
    ensures HasKey(db, user) && KeysOfUser(db, user) == {key} && RefsOf(db, user) == {db.keys[key].ref}
  {
    assert forall k :: k in KeysOfUser(db, user) <==> k == key;
    assert forall r :: r in RefsOf(db, user) ==> r == db.keys[key].ref;
    assert db.keys[key].ref in RefsOf(db, user);
  }

  lemma NoKeyLeft(db: Db, user: int)
    requires KeysOfUser(db, user) == {}
    ensures !HasKey(db, user) && RefsOf(db, user) == {}
  {
    forall k | k in db.keys ensures db.keys[k].userId != user {
      assert k !in KeysOfUser(db, user);
    }
  }

  // ----- What a request comes to -----

  /** An issued key is its owner's only one, and the sync has nothing to push to it until something changes. */
  lemma IssuedKeyIsInSync(db: Db, user: int, ref: Ref, expiresAt: Time)
    requires user in db.users && ProfileOf(db, user).Some?
    ensures var r := ReplaceAPIKey(db, IssuedRow(db, user, ref, expiresAt));
            && r.Ok?
            && KeysOfUser(r.value, user) == {db.lastKey + 1}
            && RefsOf(r.value, user) == {ref}
            && !Stale(r.value, db.lastKey + 1)
            && (OneKeyEach(db) ==> OneKeyEach(r.value))
  {
    var r := ReplaceAPIKey(db, IssuedRow(db, user, ref, expiresAt)).value;
    assert r.keys[db.lastKey + 1].ref == ref;
    forall k | k in r.keys && k != db.lastKey + 1 ensures r.keys[k].userId != user {
      assert k in db.keys && k !in KeysOfUser(db, user);
    }
  }

  /** The dashboard of an issued key shows the windows of the profile it was issued under. */
  lemma IssuedKeyShowsItsProfile(db: Db, st: Gateway.State, user: int, owner: Owner, ref: Ref, alias: string, revoked: set<Ref>)
    requires user in db.users && ProfileOf(db, user).Some? && ref !in revoked
    ensures var l := LimitsOf(db, ProfileOf(db, user).value);
            var r := LiteLLM.WindowsRead(Revoked(LiteLLM.KeyCreated(st, ref, alias, owner, l), revoked), ref, owner.id);
            r.Ok? && multiset(LiteLLM.Plains(r.value)) == multiset(EffectiveWindows(l.quotas))
  {
    var l := LimitsOf(db, ProfileOf(db, user).value);
    RoundTrip.CreatedRoundTrip(st, ref, alias, owner, l);
    OthersRevoked(LiteLLM.KeyCreated(st, ref, alias, owner, l), revoked, ref, owner.id);
  }

  lemma OthersRevoked(st: Gateway.State, revoked: set<Ref>, ref: Ref, owner: string)
    requires ref in st.keys && ref !in revoked
    ensures LiteLLM.WindowsRead(Revoked(st, revoked), ref, owner) == LiteLLM.WindowsRead(st, ref, owner)
  {
    var r := Revoked(st, revoked);
    assert LiteLLM.GatheredWindows(r, r.keys[ref], owner) == LiteLLM.GatheredWindows(st, st.keys[ref], owner);
  }
}
