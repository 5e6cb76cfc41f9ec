/**
 * Issuing, replacing and deleting keys as a protocol (internal/handlers/ui.go,
 * admin.go, internal/profileexpiry): requests of the owner take the owner's
 * lock, an admin's revocation, the expiry job and whoever notices a missing
 * key do not. Every call is one step, and any of them can fail.
 */
module KeyIssue {
  import opened Options
  import opened KeyProvider
  import opened Database
  import opened Profiles
  import MissingKeys

  /** A row as a handler read it. */
  datatype Held = Held(key: int, ref: Ref)

  datatype Handler =
    // under the owner's lock
    | Entered(user: int)
    | Opened(user: int, existing: Option<Held>)
    | Created(user: int, existing: Option<Held>, ref: Ref)
    | Revoking(user: int, ref: Ref)
    | Extending(user: int, held: Held)
    // with the lock when the owner asked, without it for an admin or the expiry job
    | Deleting(user: int, held: Held, locked: bool)
    | Deleted(user: int, held: Held, locked: bool)
    // a page view or the sync, which asked the gateway about a key
    | Looking(user: int, held: Held)

  /** live is what the gateway has; leaked and owner are history: owner has every ref ever given out. */
  datatype World = World(
    db: Db, live: set<Ref>, lock: map<int, int>, handlers: map<int, Handler>, leaked: set<Ref>, owner: map<Ref, int>)

  datatype Event =
    | Admin(op: AdminOp)
    | Enter(h: int, user: int)
    | Leave(h: int)
    | ReadForGenerate(h: int)
    | CreateKey(h: int, ref: Ref, reported: bool)
    | StoreKey(h: int, row: KeyRow)
    | StoreFails(h: int)
    | Revoke(h: int, done: bool)
    | ReadForExtend(h: int)
    | ExtendKey(h: int, until: Time)
    | ReadForDelete(h: int)
    | ReadUnlocked(h: int, user: int)
    | DeleteUpstream(h: int, done: bool, reported: bool)
    | DropRow(h: int, stored: bool)
    | Look(h: int, key: int)
    | MarkMissing(h: int, now: Time)
    | Unmark(h: int, now: Time)
    | RemoveMissing(h: int, cutoff: Time, now: Time)

  function LeastKey(keys: map<int, KeyRow>, user: int, lo: int, hi: int): (k: Option<int>)
    ensures k.Some? ==> lo <= k.value < hi && k.value in keys && keys[k.value].userId == user
    ensures k.None? ==> forall i :: lo <= i < hi && i in keys ==> keys[i].userId != user
    decreases hi - lo
  {
    if lo >= hi then None
    else if lo in keys && keys[lo].userId == user then Some(lo)
    else LeastKey(keys, user, lo + 1, hi)
  }

  /** The user's row, or none (GetAPIKeyByUser). */
  function RowOf(db: Db, user: int): Option<Held> {
    var k := LeastKey(db.keys, user, 1, db.lastKey + 1);
    if k.None? then None else Some(Held(k.value, db.keys[k.value].ref))
  }

  predicate HoldsLock(s: Handler) {
    match s
    case Deleting(_, _, locked) => locked
    case Deleted(_, _, locked) => locked
    case Looking(_, _) => false
    case _ => true
  }

  /** The gateway has the key the handler asks about. */
  predicate Alive(w: World, s: Handler)
    requires s.Looking? || s.Extending? || s.Deleting?
  {
    s.held.ref in w.live
  }

  predicate Enabled(w: World, e: Event) {
    match e
    case Admin(_) => true
    case Enter(h, user) => h !in w.handlers && user !in w.lock
    case ReadUnlocked(h, user) => h !in w.handlers
    case Look(h, key) => h !in w.handlers && key in w.db.keys
    case Leave(h) => h in w.handlers && var s := w.handlers[h]; s.Entered? || s.Opened? || s.Extending? || s.Looking?
    case ReadForGenerate(h) => h in w.handlers && w.handlers[h].Entered?
    case ReadForExtend(h) => h in w.handlers && w.handlers[h].Entered?
    case ReadForDelete(h) => h in w.handlers && w.handlers[h].Entered?
    case CreateKey(h, ref, _) => h in w.handlers && w.handlers[h].Opened? && ref !in w.owner
    case StoreKey(h, row) =>
      h in w.handlers && w.handlers[h].Created?
      && row.userId == w.handlers[h].user && row.ref == w.handlers[h].ref && row.userId in w.db.users
    case StoreFails(h) => h in w.handlers && w.handlers[h].Created?
    case Revoke(h, _) => h in w.handlers && w.handlers[h].Revoking?
    case ExtendKey(h, _) => h in w.handlers && w.handlers[h].Extending?
    // The gateway answers that a key it does not have is deleted.
    case DeleteUpstream(h, done, reported) =>
      h in w.handlers && w.handlers[h].Deleting? && (reported ==> done || !Alive(w, w.handlers[h]))
    case DropRow(h, _) => h in w.handlers && w.handlers[h].Deleted?
    // It answered not found, ...
    case MarkMissing(h, _) =>
      h in w.handlers && (w.handlers[h].Looking? || w.handlers[h].Extending?) && !Alive(w, w.handlers[h])
    case RemoveMissing(h, _, _) => h in w.handlers && w.handlers[h].Looking? && !Alive(w, w.handlers[h])
    // ... or that it has the key.
    case Unmark(h, _) => h in w.handlers && w.handlers[h].Looking?
  }

  /** The handler ends and gives back the lock if it had it. */
  function Ended(w: World, h: int): World
    requires h in w.handlers
  {
    w.(handlers := w.handlers - {h}, lock := if HoldsLock(w.handlers[h]) then w.lock - {w.handlers[h].user} else w.lock)
  }

  function Put(w: World, h: int, s: Handler): World {
    w.(handlers := w.handlers[h := s])
  }

  function Next(w: World, e: Event): World
    requires Enabled(w, e) && !e.Admin?
  {
    match e
    case Enter(h, user) => Put(w, h, Entered(user)).(lock := w.lock[user := h])
    case Leave(h) => Ended(w, h)
    case ReadForGenerate(h) =>
      var user := w.handlers[h].user;
      Put(w, h, Opened(user, RowOf(w.db, user)))
    case CreateKey(h, ref, reported) =>
      var s := w.handlers[h];
      var w1 := w.(live := w.live + {ref}, owner := w.owner[ref := s.user]);
      if reported then Put(w1, h, Created(s.user, s.existing, ref))
      else Ended(w1, h).(leaked := w.leaked + {ref})
    case StoreKey(h, row) =>
      var s := w.handlers[h];
      var w1 := w.(db := ReplaceAPIKey(w.db, row).value);
      if s.existing.Some? then Put(w1, h, Revoking(s.user, s.existing.value.ref)) else Ended(w1, h)
    case StoreFails(h) => Put(w, h, Revoking(w.handlers[h].user, w.handlers[h].ref))
    case Revoke(h, done) =>
      var ref := w.handlers[h].ref;
      Ended(if done then w.(live := w.live - {ref})
            else if ref in w.live then w.(leaked := w.leaked + {ref}) else w, h)
    case ReadForExtend(h) =>
      var user := w.handlers[h].user;
      var row := RowOf(w.db, user);
      if row.Some? && row.value.key in w.db.keys && w.db.keys[row.value.key].missingSince.None?
      then Put(w, h, Extending(user, row.value)) else Ended(w, h)
    case ExtendKey(h, until) =>
      Ended(w.(db := UpdateAPIKeyExpiry(w.db, w.handlers[h].held.key, until)), h)
    case ReadForDelete(h) =>
      var user := w.handlers[h].user;
      var row := RowOf(w.db, user);
      if row.Some? then Put(w, h, Deleting(user, row.value, true)) else Ended(w, h)
    case ReadUnlocked(h, user) =>
      var row := RowOf(w.db, user);
      if row.Some? then Put(w, h, Deleting(user, row.value, false)) else w
    case DeleteUpstream(h, done, reported) =>
      var s := w.handlers[h];
      var w1 := if done then w.(live := w.live - {s.held.ref}) else w;
      if reported then Put(w1, h, Deleted(s.user, s.held, s.locked)) else Ended(w1, h)
    case DropRow(h, stored) =>
      Ended(if stored then w.(db := DeleteAPIKey(w.db, w.handlers[h].held.key)) else w, h)
    case Look(h, key) => Put(w, h, Looking(w.db.keys[key].userId, Held(key, w.db.keys[key].ref)))
    case MarkMissing(h, now) =>
      var s := w.handlers[h];
      Ended(w.(db := MarkKeyMissing(w.db, s.held.key, s.user, now)), h)
    case Unmark(h, now) =>
      var s := w.handlers[h];
      Ended(w.(db := ClearKeyMissing(w.db, s.held.key, s.user, now)), h)
    case RemoveMissing(h, cutoff, now) =>
      var s := w.handlers[h];
      Ended(w.(db := RemoveMissingKey(w.db, s.held.key, s.user, cutoff, now)), h)
  }

  ghost function NextOf(w: World, e: Event): World
    requires Enabled(w, e)
  {
    if e.Admin? then w.(db := Apply(w.db, e.op)) else Next(w, e)
  }

  ghost predicate Init(w: World) {
    w.db.keys == map[] && w.live == {} && w.lock == map[] && w.handlers == map[] && w.leaked == {} && w.owner == map[]
    && 0 <= w.db.lastKey
  }

  ghost predicate IsRun(w: World, trace: seq<Event>)
    decreases |trace|
  {
    trace == [] || (Enabled(w, trace[0]) && IsRun(NextOf(w, trace[0]), trace[1..]))
  }

  ghost function After(w: World, trace: seq<Event>): World
    requires IsRun(w, trace)
    decreases |trace|
  {
    if trace == [] then w else After(NextOf(w, trace[0]), trace[1..])
  }

  // ----- The invariant -----

  predicate Owns(w: World, user: int, ref: Ref) {
    ref in w.owner && w.owner[ref] == user
  }

  /** The row a handler remembers is still that key's row, or gone for good. */
  predicate HeldFits(w: World, user: int, held: Held) {
    && held.key <= w.db.lastKey && Owns(w, user, held.ref)
    && (held.key in w.db.keys ==> w.db.keys[held.key].ref == held.ref && w.db.keys[held.key].userId == user)
  }

  /** No row of the user but the one that was read under the lock. */
  ghost predicate OnlyRow(w: World, user: int, existing: Option<Held>) {
    && (existing.Some? ==> HeldFits(w, user, existing.value))
    && forall k :: k in w.db.keys && w.db.keys[k].userId == user ==> existing.Some? && k == existing.value.key
  }

  ghost predicate InNoRow(w: World, ref: Ref) {
    forall k :: k in w.db.keys ==> w.db.keys[k].ref != ref
  }

  ghost predicate HandlerFits(w: World, h: int)
    requires h in w.handlers
  {
    var s := w.handlers[h];
    && (HoldsLock(s) ==> s.user in w.lock && w.lock[s.user] == h)
    && match s
       case Entered(_) => true
       case Opened(user, existing) => OnlyRow(w, user, existing)
       case Created(user, existing, ref) =>
         OnlyRow(w, user, existing) && Owns(w, user, ref) && InNoRow(w, ref)
         && (existing.Some? ==> existing.value.ref != ref)
       case Revoking(user, ref) => Owns(w, user, ref) && InNoRow(w, ref)
       case Extending(user, held) => HeldFits(w, user, held)
       case Deleting(user, held, _) => HeldFits(w, user, held)
       case Deleted(user, held, _) => HeldFits(w, user, held) && held.ref !in w.live
       case Looking(user, held) => HeldFits(w, user, held)
  }

  predicate HasRow(w: World, ref: Ref) {
    exists k :: k in w.db.keys && w.db.keys[k].ref == ref && Owns(w, w.db.keys[k].userId, ref)
  }

  predicate InFlight(w: World, ref: Ref) {
    exists h :: h in w.handlers && (w.handlers[h].Created? || w.handlers[h].Revoking?) && w.handlers[h].ref == ref
  }

  /** The key can still be revoked through the portal, or a failed call has leaked it. */
  predicate Accounted(w: World, ref: Ref) {
    HasRow(w, ref) || InFlight(w, ref) || ref in w.leaked
  }

  ghost predicate Rows(w: World) {
    && (forall k :: k in w.db.keys ==> 0 < k <= w.db.lastKey && Owns(w, w.db.keys[k].userId, w.db.keys[k].ref))
    && (forall j, k :: j in w.db.keys && k in w.db.keys ==>
          w.db.keys[j].ref == w.db.keys[k].ref || w.db.keys[j].userId == w.db.keys[k].userId ==> j == k)
    && 0 <= w.db.lastKey
  }

  ghost predicate Inv(w: World) {
    && Rows(w)
    && w.live <= w.owner.Keys
    && (forall ref :: ref in w.live ==> Accounted(w, ref))
    && (forall h :: h in w.handlers ==> HandlerFits(w, h))
  }

  // ----- Steps keep it -----

  ghost predicate RowsShrink(a: Db, b: Db) {
    && a.lastKey == b.lastKey
    && forall k :: k in b.keys ==> k in a.keys && a.keys[k].ref == b.keys[k].ref && a.keys[k].userId == b.keys[k].userId
  }

  /** Keys that went live since are new ones. */
  predicate OnlyNewLive(w: World, v: World) {
    && (forall ref :: ref in w.owner ==> ref in v.owner && v.owner[ref] == w.owner[ref])
    && (forall ref :: ref in v.live && ref in w.owner ==> ref in w.live)
    && v.live <= v.owner.Keys
  }

  lemma OtherFits(w: World, v: World, h: int)
    requires h in w.handlers && h in v.handlers && w.handlers[h] == v.handlers[h] && HandlerFits(w, h)
    requires RowsShrink(w.db, v.db) && OnlyNewLive(w, v)
    requires HoldsLock(w.handlers[h]) ==> w.handlers[h].user in v.lock && v.lock[w.handlers[h].user] == h
    ensures HandlerFits(v, h)
  {
  }

  /** From w to v only handler h moved: the others are where they were and keep their locks. */
  ghost predicate OnlyMoved(w: World, v: World, h: int) {
    && (forall g :: g != h ==> (g in v.handlers <==> g in w.handlers))
    && (forall g :: g != h && g in w.handlers ==> v.handlers[g] == w.handlers[g])
    && (forall g :: g != h && g in w.handlers && HoldsLock(w.handlers[g]) ==>
          w.handlers[g].user in w.lock && w.lock[w.handlers[g].user] == g
          ==> w.handlers[g].user in v.lock && v.lock[w.handlers[g].user] == g)
  }

  lemma MoveKeeps(w: World, v: World, h: int)
    requires Inv(w) && OnlyMoved(w, v, h) && RowsShrink(w.db, v.db) && OnlyNewLive(w, v)
    requires h in v.handlers ==> HandlerFits(v, h)
    requires forall ref :: ref in v.live ==> Accounted(v, ref)
    ensures Inv(v)
  {
    forall g | g in v.handlers ensures HandlerFits(v, g) {
      if g != h {
        assert HandlerFits(w, g);
        OtherFits(w, v, g);
      }
    }
  }

  /** A key that was accounted for still is, unless what held it is gone. */
  lemma StillAccounted(w: World, v: World, h: int, ref: Ref)
    requires Accounted(w, ref) && OnlyMoved(w, v, h) && OnlyNewLive(w, v) && w.leaked <= v.leaked
    requires forall k :: k in w.db.keys && w.db.keys[k].ref == ref ==>
               (k in v.db.keys && v.db.keys[k].ref == ref && v.db.keys[k].userId == w.db.keys[k].userId) || Accounted(v, ref)
    requires h in w.handlers && (w.handlers[h].Created? || w.handlers[h].Revoking?) && w.handlers[h].ref == ref ==> Accounted(v, ref)
    ensures Accounted(v, ref)
  {
    if HasRow(w, ref) {
      var k :| k in w.db.keys && w.db.keys[k].ref == ref && Owns(w, w.db.keys[k].userId, ref);
    } else if InFlight(w, ref) {
      var g :| g in w.handlers && (w.handlers[g].Created? || w.handlers[g].Revoking?) && w.handlers[g].ref == ref;
      if g != h {
        assert v.handlers[g] == w.handlers[g];
      }
    }
  }

  lemma RowOfIsOnlyRow(w: World, user: int)
    requires Rows(w)
    ensures OnlyRow(w, user, RowOf(w.db, user))
  {
    forall k | k in w.db.keys && w.db.keys[k].userId == user
      ensures RowOf(w.db, user).Some? && k == RowOf(w.db, user).value.key
    {
    }
  }

  /** Handlers that read, or leave without having created anything. */
  predicate ReadEvent(e: Event) {
    e.Enter? || e.Leave? || e.ReadForGenerate? || e.ReadForExtend? || e.ReadForDelete? || e.ReadUnlocked? || e.Look?
  }

  lemma ReaderFits(w: World, e: Event)
    requires Inv(w) && ReadEvent(e) && Enabled(w, e) && e.h in Next(w, e).handlers
    ensures HandlerFits(Next(w, e), e.h)
  {
    if e.h in w.handlers {
      assert HandlerFits(w, e.h);
      RowOfIsOnlyRow(w, w.handlers[e.h].user);
    }
    if e.ReadUnlocked? {
      RowOfIsOnlyRow(w, e.user);
    }
  }

  lemma ReadingLeaksNothing(w: World, e: Event, ref: Ref)
    requires Inv(w) && ReadEvent(e) && Enabled(w, e) && ref in w.live
    ensures Accounted(Next(w, e), ref)
  {
    if e.h in w.handlers {
      assert HandlerFits(w, e.h);
    }
    StillAccounted(w, Next(w, e), e.h, ref);
  }

  lemma ReadEventKeeps(w: World, e: Event)
    requires Inv(w) && ReadEvent(e) && Enabled(w, e)
    ensures Inv(Next(w, e))
  {
    var v := Next(w, e);
    if e.h in v.handlers {
      ReaderFits(w, e);
    }
    if e.h in w.handlers {
      assert HandlerFits(w, e.h);
    }
    forall ref | ref in v.live ensures Accounted(v, ref) {
      ReadingLeaksNothing(w, e, ref);
    }
    MoveKeeps(w, v, e.h);
  }

  /** Rows that change in place. */
  lemma RowEventKeeps(w: World, e: Event)
    requires Inv(w) && (e.ExtendKey? || e.MarkMissing? || e.Unmark?) && Enabled(w, e)
    ensures Inv(Next(w, e))
  {
    var v := Next(w, e);
    assert HandlerFits(w, e.h);
    forall ref | ref in v.live ensures Accounted(v, ref) {
      StillAccounted(w, v, e.h, ref);
    }
    MoveKeeps(w, v, e.h);
  }

  lemma AdminKeeps(w: World, op: AdminOp)
    requires Inv(w)
    ensures Inv(w.(db := Apply(w.db, op)))
  {
    var v := w.(db := Apply(w.db, op));
    assert v.db.keys == w.db.keys && v.db.lastKey == w.db.lastKey;
    forall ref | ref in v.live ensures Accounted(v, ref) {
      assert Accounted(w, ref);
      assert HasRow(w, ref) ==> HasRow(v, ref);
      assert InFlight(w, ref) ==> InFlight(v, ref);
    }
    forall h | h in v.handlers ensures HandlerFits(v, h) {
      assert HandlerFits(w, h);
    }
  }

  lemma CreateKeeps(w: World, e: Event)
    requires Inv(w) && e.CreateKey? && Enabled(w, e)
    ensures Inv(Next(w, e))
  {
    var v := Next(w, e);
    assert HandlerFits(w, e.h);
    forall ref | ref in v.live ensures Accounted(v, ref) {
      if ref == e.ref {
        assert e.reported ==> v.handlers[e.h].ref == ref;
      } else {
        StillAccounted(w, v, e.h, ref);
      }
    }
    MoveKeeps(w, v, e.h);
  }

  lemma StoreFailsKeeps(w: World, e: Event)
    requires Inv(w) && e.StoreFails? && Enabled(w, e)
    ensures Inv(Next(w, e))
  {
    var v := Next(w, e);
    assert HandlerFits(w, e.h);
    forall ref | ref in v.live ensures Accounted(v, ref) {
      assert v.handlers[e.h].ref == w.handlers[e.h].ref;
      StillAccounted(w, v, e.h, ref);
    }
    MoveKeeps(w, v, e.h);
  }

  lemma RevokeKeeps(w: World, e: Event)
    requires Inv(w) && e.Revoke? && Enabled(w, e)
    ensures Inv(Next(w, e))
  {
    var v := Next(w, e);
    assert HandlerFits(w, e.h);
    forall ref | ref in v.live ensures Accounted(v, ref) {
      StillAccounted(w, v, e.h, ref);
    }
    MoveKeeps(w, v, e.h);
  }

  lemma DeleteUpstreamKeeps(w: World, e: Event)
    requires Inv(w) && e.DeleteUpstream? && Enabled(w, e)
    ensures Inv(Next(w, e))
  {
    var v := Next(w, e);
    assert HandlerFits(w, e.h);
    forall ref | ref in v.live ensures Accounted(v, ref) {
      StillAccounted(w, v, e.h, ref);
    }
    MoveKeeps(w, v, e.h);
  }

  /** A row is dropped only once its key is gone from the gateway. */
  lemma RowGoesKeeps(w: World, e: Event)
    requires Inv(w) && (e.DropRow? || e.RemoveMissing?) && Enabled(w, e)
    ensures Inv(Next(w, e))
  {
    var v := Next(w, e);
    assert HandlerFits(w, e.h);
    forall ref | ref in v.live ensures Accounted(v, ref) {
      StillAccounted(w, v, e.h, ref);
    }
    MoveKeeps(w, v, e.h);
  }

  /** The row that gives way is the one the handler read. */
  lemma RowReplaced(w: World, e: Event)
    requires Inv(w) && e.StoreKey? && Enabled(w, e)
    ensures var v := Next(w, e);
            && v.db.keys == (w.db.keys - KeysOfUser(w.db, w.handlers[e.h].user))[w.db.lastKey + 1 := e.row]
            && forall k :: k in w.db.keys && k !in v.db.keys ==> w.handlers[e.h].existing == Some(Held(k, w.db.keys[k].ref))
  {
    assert HandlerFits(w, e.h);
    forall k | k in w.db.keys && k !in Next(w, e).db.keys
      ensures w.handlers[e.h].existing == Some(Held(k, w.db.keys[k].ref))
    {
      assert k in KeysOfUser(w.db, w.handlers[e.h].user);
    }
  }

  /**
   * Storing the new key drops the user's other rows. Under the lock the only
   * one there can be is the one that was read, whose key is revoked next.
   */
  lemma StoringLeaksNothing(w: World, e: Event, ref: Ref)
    requires Inv(w) && e.StoreKey? && Enabled(w, e) && ref in w.live
    ensures Accounted(Next(w, e), ref)
  {
    var v := Next(w, e);
    var s := w.handlers[e.h];
    RowReplaced(w, e);
    assert HandlerFits(w, e.h);
    if ref == s.ref {
      assert v.db.keys[w.db.lastKey + 1].ref == ref;
    } else if s.existing.Some? && ref == s.existing.value.ref {
      assert v.handlers[e.h] == Revoking(s.user, ref);
    } else {
      StillAccounted(w, v, e.h, ref);
    }
  }

  lemma StoreKeyKeeps(w: World, e: Event)
    requires Inv(w) && e.StoreKey? && Enabled(w, e)
    ensures Inv(Next(w, e))
  {
    var v := Next(w, e);
    RowReplaced(w, e);
    assert HandlerFits(w, e.h);
    forall ref | ref in v.live ensures Accounted(v, ref) {
      StoringLeaksNothing(w, e, ref);
    }
    forall g | g in v.handlers ensures HandlerFits(v, g) {
      if g != e.h {
        assert HandlerFits(w, g);
      }
    }
  }

  lemma StepKeeps(w: World, e: Event)
    requires Inv(w) && Enabled(w, e)
    ensures Inv(NextOf(w, e))
  {
    if ReadEvent(e) {
      ReadEventKeeps(w, e);
    } else {
      match e
      case Admin(op) => AdminKeeps(w, op);
      case CreateKey(_, _, _) => CreateKeeps(w, e);
      case StoreKey(_, _) => StoreKeyKeeps(w, e);
      case StoreFails(_) => StoreFailsKeeps(w, e);
      case Revoke(_, _) => RevokeKeeps(w, e);
      case DeleteUpstream(_, _, _) => DeleteUpstreamKeeps(w, e);
      case DropRow(_, _) => RowGoesKeeps(w, e);
      case RemoveMissing(_, _, _) => RowGoesKeeps(w, e);
      case _ => RowEventKeeps(w, e);
    }
  }

  lemma {:induction false} RunKeeps(w: World, trace: seq<Event>)
    requires Inv(w) && IsRun(w, trace)
    ensures Inv(After(w, trace))
    decreases |trace|
  {
    if trace != [] {
      StepKeeps(w, trace[0]);
      RunKeeps(NextOf(w, trace[0]), trace[1..]);
    }
  }

  // ----- What it means -----

  /**
   * No orphan: over every interleaving, each live key is the one in its
   * owner's row, is held by a handler that will store or revoke it, or was
   * leaked by a call that failed.
   */
  lemma NoOrphan(w: World, trace: seq<Event>, ref: Ref)
    requires Init(w) && IsRun(w, trace) && ref in After(w, trace).live
    ensures Accounted(After(w, trace), ref)
  {
    RunKeeps(w, trace);
  }

  /** Nothing leaks unless an upstream delete did not take effect, or a creation's answer was lost. */
  lemma LeakHasACause(w: World, e: Event)
    requires Enabled(w, e) && NextOf(w, e).leaked != w.leaked
    ensures (e.CreateKey? && !e.reported) || (e.Revoke? && !e.done)
  {
  }

  /** So when every call went through and nobody is busy, a user's live keys are exactly the one in their row. */
  lemma OneLiveKeyEach(w: World, trace: seq<Event>, a: Ref, b: Ref)
    requires Init(w) && IsRun(w, trace)
    requires var v := After(w, trace);
             && v.handlers == map[] && v.leaked == {} && a in v.live && b in v.live
             && a in v.owner && b in v.owner && v.owner[a] == v.owner[b]
    ensures a == b
  {
    RunKeeps(w, trace);
    var v := After(w, trace);
    assert Accounted(v, a) && Accounted(v, b);
    assert !InFlight(v, a) && !InFlight(v, b);
  }

  /** The row a step acts on, as the handler that takes it read it. */
  function ActsOn(w: World, e: Event): Option<Held>
    requires Enabled(w, e)
  {
    match e
    case ExtendKey(h, _) => Some(w.handlers[h].held)
    case DropRow(h, _) => Some(w.handlers[h].held)
    case MarkMissing(h, _) => Some(w.handlers[h].held)
    case Unmark(h, _) => Some(w.handlers[h].held)
    case RemoveMissing(h, _, _) => Some(w.handlers[h].held)
    case StoreKey(h, _) => w.handlers[h].existing
    case _ => None
  }

  /** The row that gives way to a new key was read by the handler, which revokes its key next. */
  lemma StoreKeyReplaces(v: World, e: Event, k: int)
    requires Inv(v) && e.StoreKey? && Enabled(v, e)
    requires k in v.db.keys && (k !in Next(v, e).db.keys || Next(v, e).db.keys[k] != v.db.keys[k])
    ensures ActsOn(v, e) == Some(Held(k, v.db.keys[k].ref))
    ensures e.h in Next(v, e).handlers && Next(v, e).handlers[e.h] == Revoking(v.db.keys[k].userId, v.db.keys[k].ref)
  {
    assert HandlerFits(v, e.h);
    assert k in KeysOfUser(v.db, v.handlers[e.h].user);
  }

  lemma RowStepIsHeld(v: World, e: Event, k: int)
    requires Inv(v) && (e.ExtendKey? || e.DropRow? || e.MarkMissing? || e.Unmark? || e.RemoveMissing?) && Enabled(v, e)
    requires k in v.db.keys && (k !in Next(v, e).db.keys || Next(v, e).db.keys[k] != v.db.keys[k])
    ensures ActsOn(v, e) == Some(Held(k, v.db.keys[k].ref))
    ensures k !in Next(v, e).db.keys ==> v.db.keys[k].ref !in v.live
  {
    assert HandlerFits(v, e.h);
  }

  lemma OtherStepsKeepRows(v: World, e: Event)
    requires Enabled(v, e) && !e.StoreKey? && !e.ExtendKey? && !e.DropRow? && !e.MarkMissing? && !e.Unmark? && !e.RemoveMissing?
    ensures NextOf(v, e).db.keys == v.db.keys
  {
    match e
    case Admin(op) => MissingKeys.AdminOpKeepsKeys(v.db, op);
    case CreateKey(_, _, _) =>
    case Revoke(_, _) =>
    case DeleteUpstream(_, _, _) =>
    case _ =>
  }

  /**
   * No stale delete: a step changes or removes only the row its handler read,
   * still with the same key in it. A newer key's row is never touched, even by
   * handlers without the lock, because ids are never reused. And a row goes
   * only with its key gone from the gateway, or to make room for the one that
   * replaces it, whose handler then revokes the old key.
   */
  lemma NoStaleDelete(w: World, trace: seq<Event>, e: Event, k: int)
    requires Init(w) && IsRun(w, trace) && Enabled(After(w, trace), e)
    requires k in After(w, trace).db.keys
    requires var next := NextOf(After(w, trace), e).db; k !in next.keys || next.keys[k] != After(w, trace).db.keys[k]
    ensures var v := After(w, trace);
            var next := NextOf(v, e);
            && ActsOn(v, e) == Some(Held(k, v.db.keys[k].ref))
            && (k !in next.db.keys && v.db.keys[k].ref in v.live ==>
                  e.StoreKey? && e.h in next.handlers && next.handlers[e.h] == Revoking(v.db.keys[k].userId, v.db.keys[k].ref))
  {
    RunKeeps(w, trace);
    var v := After(w, trace);
    if e.StoreKey? {
      StoreKeyReplaces(v, e, k);
    } else if e.ExtendKey? || e.DropRow? || e.MarkMissing? || e.Unmark? || e.RemoveMissing? {
      RowStepIsHeld(v, e, k);
    } else {
      OtherStepsKeepRows(v, e);
    }
  }
}
