/**
 * The owner's key requests are runs of Freshness too: the key they leave in the
 * gateway carries the limits its row names.
 */
module RequestFreshness {
  import opened Options
  import opened KeyProvider
  import opened Database
  import opened Stores
  import opened Freshness
  import Gateway
  import LiteLLM
  import KeyHandlers

  /** The protocol's tables and keys are those of the store and the gateway, and nobody else has that request's number. */
  ghost predicate Pictures(w: World, hs: KeyHandlers.Handlers)
    reads hs.store, hs.keys.server
  {
    w.db == hs.store.Tables() && w.keys == hs.keys.server.keys
  }

  /** What the request read of its owner's profile. */
  function Read(db: Db, user: int, owner: Owner): Reading
    requires user in db.users && KeyHandlers.ProfileOf(db, user).Some?
  {
    var p := KeyHandlers.ProfileOf(db, user).value;
    Reading(owner.id, p, db.profiles[p].limitsRev, LimitsOf(db, p))
  }

  /** The request holds a key it just created. */
  function AtCreated(w: World, q: int, user: int, r: Reading, ref: Ref, alias: string): World {
    w.(keys := w.keys[ref := Issued(alias, r)], pushed := w.pushed[ref := r], used := w.used + {ref},
       requests := w.requests[q := Created(user, r, ref)])
  }

  /** The request has read the row of its owner's profile, ... */
  function AtOpened(w: World, q: int, user: int, p: int): World
    requires p in w.db.profiles
  {
    w.(requests := w.requests[q := ProfileRead(user, p, w.db.profiles[p])])
  }

  /** ... and then its windows. */
  function AtReady(w: World, q: int, user: int, r: Reading): World {
    w.(requests := w.requests[q := Ready(user, r)])
  }

  lemma Opens(w: World, q: int, user: int, p: int)
    requires user in w.db.users && p in w.db.profiles && q !in w.requests
    ensures Goes(w, Open(q, user, p), AtOpened(w, q, user, p))
  {
  }

  lemma ReadsWindows(w: World, q: int, user: int, owner: Owner)
    requires user in w.db.users && KeyHandlers.ProfileOf(w.db, user).Some? && owner.id == OwnerIdOf(w, user)
    ensures var p := KeyHandlers.ProfileOf(w.db, user).value;
            Goes(AtOpened(w, q, user, p), OpenWindows(q, WindowsOf(w.db, p)), AtReady(w, q, user, Read(w.db, user, owner)))
  {
    var p := KeyHandlers.ProfileOf(w.db, user).value;
    assert AtOpened(w, q, user, p).requests[q := Ready(user, Read(w.db, user, owner))] == w.requests[q := Ready(user, Read(w.db, user, owner))];
  }

  lemma Creates(w: World, q: int, user: int, r: Reading, ref: Ref, alias: string)
    requires ref !in w.used
    ensures Goes(AtReady(w, q, user, r), CreateKey(q, ref, alias, true), AtCreated(w, q, user, r, ref, alias))
  {
    assert AtReady(w, q, user, r).requests[q := Created(user, r, ref)] == w.requests[q := Created(user, r, ref)];
  }

  /** From opening the profile to the created key. */
  lemma ReachesCreated(w: World, q: int, user: int, owner: Owner, ref: Ref, alias: string, v: World)
    requires user in w.db.users && KeyHandlers.ProfileOf(w.db, user).Some? && q !in w.requests && ref !in w.used
    requires owner.id == OwnerIdOf(w, user)
    requires Reaches(AtCreated(w, q, user, Read(w.db, user, owner), ref, alias), v)
    ensures Reaches(w, v)
  {
    var p, r := KeyHandlers.ProfileOf(w.db, user).value, Read(w.db, user, owner);
    Creates(w, q, user, r, ref, alias);
    Prepend(AtReady(w, q, user, r), CreateKey(q, ref, alias, true), AtCreated(w, q, user, r, ref, alias), v);
    ReadsWindows(w, q, user, owner);
    Prepend(AtOpened(w, q, user, p), OpenWindows(q, WindowsOf(w.db, p)), AtReady(w, q, user, r), v);
    Opens(w, q, user, p);
    Prepend(w, Open(q, user, p), AtOpened(w, q, user, p), v);
  }

  /** The keys go that were to be revoked, one by one at most. */
  lemma ReachesDeleted(w: World, gone: set<Ref>)
    requires forall a, b :: a in gone && b in gone ==> a == b
    ensures Reaches(w, w.(keys := w.keys - gone))
  {
    if exists a :: a in gone {
      var a :| a in gone;
      assert gone == {a};
      Stays(w.(keys := w.keys - gone));
      Prepend(w, Delete(a), w.(keys := w.keys - gone), w.(keys := w.keys - gone));
    } else {
      assert w.keys - gone == w.keys;
      Stays(w);
    }
  }

  /** The row is stored, and the old key's goes. */
  function Stored(w: World, user: int, r: Reading, row: KeyRow, alias: string, gone: set<Ref>): World
    requires user in w.db.users && row.userId == user
  {
    w.(db := ReplaceAPIKey(w.db, row).value, keys := w.keys[row.ref := Issued(alias, r)] - gone,
       pushed := w.pushed[row.ref := r], used := w.used + {row.ref}, rowOf := w.rowOf[row.ref := w.db.lastKey + 1])
  }

  lemma StoreStep(v: World, q: int, user: int, r: Reading, row: KeyRow, name: string, email: string)
    requires q in v.requests && v.requests[q] == Created(user, r, row.ref) && user in v.db.users
    requires row == NewKeyRow(user, row.ref, row.expiresAt, r.profile, r.rev, name, email)
    ensures Goes(v, StoreKey(q, row.expiresAt, name, email),
                 v.(db := ReplaceAPIKey(v.db, row).value, rowOf := v.rowOf[row.ref := v.db.lastKey + 1], requests := v.requests - {q}))
  {
  }

  lemma KeepsRow(w: World, q: int, user: int, owner: Owner, row: KeyRow, alias: string)
    requires user in w.db.users && KeyHandlers.ProfileOf(w.db, user).Some? && q !in w.requests
    requires row == KeyHandlers.IssuedRow(w.db, user, row.ref, row.expiresAt)
    ensures var r, u := Read(w.db, user, owner), w.db.users[user];
            Goes(AtCreated(w, q, user, r, row.ref, alias), StoreKey(q, row.expiresAt, u.name, u.email), Stored(w, user, r, row, alias, {}))
  {
    var r, u := Read(w.db, user, owner), w.db.users[user];
    var v := AtCreated(w, q, user, r, row.ref, alias);
    StoreStep(v, q, user, r, row, u.name, u.email);
    assert v.requests - {q} == w.requests && v.keys - {} == v.keys;
  }

  lemma ReachesStored(w: World, q: int, user: int, owner: Owner, row: KeyRow, alias: string, gone: set<Ref>)
    requires user in w.db.users && KeyHandlers.ProfileOf(w.db, user).Some? && q !in w.requests && row.ref !in w.used
    requires owner.id == OwnerIdOf(w, user) && row == KeyHandlers.IssuedRow(w.db, user, row.ref, row.expiresAt)
    requires forall a, b :: a in gone && b in gone ==> a == b
    ensures Reaches(w, Stored(w, user, Read(w.db, user, owner), row, alias, gone))
  {
    var r, u := Read(w.db, user, owner), w.db.users[user];
    var x, y := Stored(w, user, r, row, alias, {}), Stored(w, user, r, row, alias, gone);
    assert x.keys - gone == y.keys;
    ReachesDeleted(x, gone);
    KeepsRow(w, q, user, owner, row, alias);
    Prepend(AtCreated(w, q, user, r, row.ref, alias), StoreKey(q, row.expiresAt, u.name, u.email), x, y);
    ReachesCreated(w, q, user, owner, row.ref, alias, y);
  }

  /** The new key could not be stored, and goes unless that fails too. */
  function Dropped(w: World, r: Reading, ref: Ref, alias: string, revokes: bool): World {
    w.(keys := if revokes then w.keys - {ref} else w.keys[ref := Issued(alias, r)],
       pushed := w.pushed[ref := r], used := w.used + {ref})
  }

  lemma ReachesDropped(w: World, q: int, user: int, owner: Owner, ref: Ref, alias: string, revokes: bool)
    requires user in w.db.users && KeyHandlers.ProfileOf(w.db, user).Some? && q !in w.requests && ref !in w.used
    requires owner.id == OwnerIdOf(w, user)
    ensures Reaches(w, Dropped(w, Read(w.db, user, owner), ref, alias, revokes))
  {
    var r := Read(w.db, user, owner);
    ReachesAbandoned(w, q, user, r, ref, alias, revokes);
    ReachesCreated(w, q, user, owner, ref, alias, Dropped(w, r, ref, alias, revokes));
  }

  lemma Abandons(w: World, q: int, user: int, r: Reading, ref: Ref, alias: string)
    requires q !in w.requests
    ensures Goes(AtCreated(w, q, user, r, ref, alias), Abandon(q), Dropped(w, r, ref, alias, false))
  {
    assert AtCreated(w, q, user, r, ref, alias).requests - {q} == w.requests;
  }

  lemma ReachesAbandoned(w: World, q: int, user: int, r: Reading, ref: Ref, alias: string, revokes: bool)
    requires q !in w.requests
    ensures Reaches(AtCreated(w, q, user, r, ref, alias), Dropped(w, r, ref, alias, revokes))
  {
    var x := Dropped(w, r, ref, alias, false);
    assert w.keys[ref := Issued(alias, r)] - {ref} == w.keys - {ref};
    assert x.keys - {} == x.keys;
    ReachesDeleted(x, if revokes then {ref} else {});
    Abandons(w, q, user, r, ref, alias);
    Prepend(AtCreated(w, q, user, r, ref, alias), Abandon(q), x, Dropped(w, r, ref, alias, revokes));
  }

  // ----- Requests -----

  /** What a request leaves of the world it began in. */
  function Generated(w: World, user: int, r: Reading, row: KeyRow, alias: string, reply: KeyHandlers.Reply, revokes: bool): World
    requires user in w.db.users && row.userId == user
  {
    match reply
    case Done => Stored(w, user, r, row, alias, if revokes then KeyHandlers.RefsOf(w.db, user) else {})
    case SaveFailed => Dropped(w, r, row.ref, alias, revokes)
    case _ => w
  }

  lemma GenerateReaches(w: World, q: int, user: int, owner: Owner, row: KeyRow, alias: string, reply: KeyHandlers.Reply, revokes: bool)
    requires Inv(w) && Enforced(w) && OneKeyEach(w.db)
    requires user in w.db.users && KeyHandlers.ProfileOf(w.db, user).Some? && q !in w.requests && row.ref !in w.used
    requires owner.id == OwnerIdOf(w, user) && row == KeyHandlers.IssuedRow(w.db, user, row.ref, row.expiresAt)
    ensures var v := Generated(w, user, Read(w.db, user, owner), row, alias, reply, revokes);
            Reaches(w, v) && Inv(v) && Enforced(v)
  {
    var v := Generated(w, user, Read(w.db, user, owner), row, alias, reply, revokes);
    if reply.Done? {
      ReachesStored(w, q, user, owner, row, alias, if revokes then KeyHandlers.RefsOf(w.db, user) else {});
    } else if reply.SaveFailed? {
      ReachesDropped(w, q, user, owner, row.ref, alias, revokes);
    } else {
      Stays(w);
    }
    var trace :| IsRun(w, trace) && After(w, trace) == v;
    RunKeeps(w, trace);
  }

  /** The row of the new key. */
  function RowFor(db: Db, user: int, ref: Ref, now: Time, fallback: int): KeyRow
    requires user in db.users && KeyHandlers.ProfileOf(db, user).Some?
  {
    var days := db.profiles[KeyHandlers.ProfileOf(db, user).value].keyDurationDays;
    KeyHandlers.IssuedRow(db, user, ref, now + 86400 * if days > 0 then days else fallback)
  }

  /**
   * A request to issue a key is a run of the protocol, and a key that is issued
   * carries the limits of the profile and revision its row names.
   */
  method GenerateIsFresh(hs: KeyHandlers.Handlers, ghost w: World, ghost q: int, user: int, owner: Owner, ref: Ref, alias: string,
                         now: Time, t: KeyHandlers.Trouble) returns (reply: KeyHandlers.Reply, ghost v: World)
    requires Pictures(w, hs) && Inv(w) && Enforced(w) && OneKeyEach(w.db)
    requires user in w.db.users && q !in w.requests && ref !in w.used && ref !in KeyHandlers.RefsOf(w.db, user)
    requires owner.id == OwnerIdOf(w, user)
    modifies hs.store, hs.keys.server
    ensures Reaches(w, v) && Pictures(v, hs) && Inv(v) && Enforced(v)
    ensures reply.Done? ==>
              && KeyHandlers.ProfileOf(w.db, user).Some? && ref in hs.keys.server.keys
              && v.pushed == w.pushed[ref := Read(w.db, user, owner)]
              && Enforces(hs.keys.server.keys[ref], owner.id, LimitsOf(w.db, KeyHandlers.ProfileOf(w.db, user).value))
  {
    reply := Generate(hs, w, user, owner, ref, alias, now, t);
    if KeyHandlers.ProfileOf(w.db, user).None? {
      Stays(w);
      v := w;
    } else {
      ghost var row := RowFor(w.db, user, ref, now, hs.keyDurationDays);
      v := Generated(w, user, Read(w.db, user, owner), row, alias, reply, !t.delete);
      GenerateReaches(w, q, user, owner, row, alias, reply, !t.delete);
      assert reply.Done? ==> ref in v.keys && ref in v.pushed;
    }
  }

  /** The keys of a created key's gateway are those of the protocol. */
  lemma KeysOfCreated(w: World, st: Gateway.State, user: int, owner: Owner, ref: Ref, alias: string)
    requires user in w.db.users && KeyHandlers.ProfileOf(w.db, user).Some? && st.keys == w.keys
    ensures LiteLLM.KeyCreated(st, ref, alias, owner, LimitsOf(w.db, KeyHandlers.ProfileOf(w.db, user).value)).keys ==
            w.keys[ref := Issued(alias, Read(w.db, user, owner))]
  {
  }

  /** What the handler's contract comes to in the protocol's terms. */
  lemma Pictured(w: World, hs: KeyHandlers.Handlers, st: Gateway.State, user: int, owner: Owner, row: KeyRow, alias: string,
                 reply: KeyHandlers.Reply, t: KeyHandlers.Trouble)
    requires user in w.db.users && KeyHandlers.ProfileOf(w.db, user).Some? && st.keys == w.keys && row.userId == user && row.ref !in w.keys
    requires reply.LoadFailed? || reply.NoProfile? ==> hs.Records() == st
    requires !reply.LoadFailed? && !reply.NoProfile? ==>
               hs.Issued(reply, st, row, alias, owner, LimitsOf(w.db, KeyHandlers.ProfileOf(w.db, user).value),
                         if t.delete then {} else KeyHandlers.RefsOf(w.db, user), t)
    requires if reply.Done? then ReplaceAPIKey(w.db, row) == Ok(hs.store.Tables()) else hs.store.Tables() == w.db
    ensures Pictures(Generated(w, user, Read(w.db, user, owner), row, alias, reply, !t.delete), hs)
  {
    var r := Read(w.db, user, owner);
    KeysOfCreated(w, st, user, owner, row.ref, alias);
    assert w.keys[row.ref := Issued(alias, r)] - {} == w.keys[row.ref := Issued(alias, r)];
    assert w.keys[row.ref := Issued(alias, r)] - {row.ref} == w.keys - {row.ref};
    assert w.keys - {row.ref} == w.keys;
  }

  method Generate(hs: KeyHandlers.Handlers, ghost w: World, user: int, owner: Owner, ref: Ref, alias: string, now: Time,
                  t: KeyHandlers.Trouble) returns (reply: KeyHandlers.Reply)
    requires Pictures(w, hs) && OneKeyEach(w.db) && user in w.db.users
    requires ref !in w.keys && ref !in KeyHandlers.RefsOf(w.db, user)
    modifies hs.store, hs.keys.server
    ensures KeyHandlers.ProfileOf(w.db, user).None? ==> !reply.Done? && Pictures(w, hs)
    ensures KeyHandlers.ProfileOf(w.db, user).Some? ==>
              Pictures(Generated(w, user, Read(w.db, user, owner), RowFor(w.db, user, ref, now, hs.keyDurationDays), alias, reply, !t.delete), hs)
  {
    assert KeyHandlers.ProfileOf(w.db, user).Some? ==>
        RowFor(w.db, user, ref, now, hs.keyDurationDays) == KeyHandlers.IssuedRow(w.db, user, ref, hs.ExpiryFrom(now, user));
    ghost var st := hs.Records();
    reply := hs.GenerateKey(user, owner, ref, alias, now, t);
    if KeyHandlers.ProfileOf(w.db, user).Some? {
      Pictured(w, hs, st, user, owner, RowFor(w.db, user, ref, now, hs.keyDurationDays), alias, reply, t);
    }
  }
}
