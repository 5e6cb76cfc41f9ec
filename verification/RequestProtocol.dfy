/**
 * The handlers of KeyHandlers and the expiry job of ProfileExpiry take the steps
 * of KeyIssue: what each leaves in the tables and in the gateway is what a run
 * of that protocol leaves, so everything proved of runs holds of them.
 */
module RequestProtocol {
  import opened Options
  import opened KeyProvider
  import opened Database
  import opened Stores
  import opened KeyIssue
  import Gateway
  import Profiles
  import KeyHandlers
  import ProfileExpiry

  /** Nobody else is handler h, and the user's lock is free. */
  predicate Free(w: World, h: int, user: int) {
    h !in w.handlers && user !in w.lock
  }

  /** The steps of one handler. The expiry job also writes the user's row. */
  predicate StepsOf(trace: seq<Event>, h: int, user: int) {
    forall i :: 0 <= i < |trace| ==> if trace[i].Admin? then trace[i].op == Profiles.Revert(user) else trace[i].h == h
  }

  /** The handler comes and goes by these steps, and leaves v. */
  ghost predicate Serves(w: World, trace: seq<Event>, h: int, user: int, v: World) {
    && IsRun(w, trace) && After(w, trace) == v && StepsOf(trace, h, user)
    && v.handlers == w.handlers && v.lock == w.lock
  }

  ghost predicate Goes(w: World, e: Event, v: World) {
    Enabled(w, e) && NextOf(w, e) == v
  }

  lemma {:induction false} StepFirst(w: World, e: Event, v: World, trace: seq<Event>)
    requires Goes(w, e, v) && IsRun(v, trace)
    ensures IsRun(w, [e] + trace) && After(w, [e] + trace) == After(v, trace)
  {
    assert ([e] + trace)[1..] == trace;
  }

  /** Two steps. */
  lemma {:induction false} StepsTwo(w: World, d: Event, u: World, e: Event, v: World, trace: seq<Event>)
    requires Goes(w, d, u) && Goes(u, e, v) && IsRun(v, trace)
    ensures IsRun(w, [d, e] + trace) && After(w, [d, e] + trace) == After(v, trace)
  {
    StepFirst(u, e, v, trace);
    StepFirst(w, d, u, [e] + trace);
    assert [d] + ([e] + trace) == [d, e] + trace;
  }

  /** The last step. */
  lemma {:induction false} StepLast(w: World, e: Event, v: World)
    requires Goes(w, e, v)
    ensures IsRun(w, [e]) && After(w, [e]) == v
  {
    NoSteps(v);
    StepFirst(w, e, v, []);
    assert [e] + [] == [e];
  }

  lemma {:induction false} StepsLastTwo(w: World, d: Event, u: World, e: Event, v: World)
    requires Goes(w, d, u) && Goes(u, e, v)
    ensures IsRun(w, [d, e]) && After(w, [d, e]) == v
  {
    NoSteps(v);
    StepsTwo(w, d, u, e, v, []);
    assert [d, e] + [] == [d, e];
  }

  // ----- Single steps -----

  /** Under the lock, with nothing read. */
  function AtEntry(w: World, h: int, user: int): World {
    w.(handlers := w.handlers[h := Entered(user)], lock := w.lock[user := h])
  }

  lemma EnterGoes(w: World, h: int, user: int)
    requires Free(w, h, user)
    ensures Goes(w, Enter(h, user), AtEntry(w, h, user))
  {
  }

  /** A handler under the lock is w with its state put in and the lock taken. */
  ghost predicate Holds(w: World, v: World, h: int, user: int, s: Handler) {
    s.user == user && HoldsLock(s) && v.handlers == w.handlers[h := s] && v.lock == w.lock[user := h]
  }

  lemma LeavesAsItCame(w: World, v: World, h: int, user: int, s: Handler)
    requires Free(w, h, user) && Holds(w, v, h, user, s)
    ensures Ended(v, h) == v.(handlers := w.handlers, lock := w.lock)
  {
    assert v.handlers - {h} == w.handlers && v.lock - {user} == w.lock;
  }

  lemma LeaveGoes(w: World, v: World, h: int, user: int, s: Handler)
    requires Free(w, h, user) && Holds(w, v, h, user, s) && (s.Entered? || s.Opened? || s.Extending?)
    ensures Goes(v, Leave(h), v.(handlers := w.handlers, lock := w.lock))
  {
    LeavesAsItCame(w, v, h, user, s);
  }

  lemma RevokeGoes(w: World, v: World, h: int, user: int, ref: Ref, done: bool)
    requires Free(w, h, user) && Holds(w, v, h, user, Revoking(user, ref))
    ensures Goes(v, Revoke(h, done),
                 v.(handlers := w.handlers, lock := w.lock, live := if done then v.live - {ref} else v.live,
                    leaked := if done || ref !in v.live then v.leaked else v.leaked + {ref}))
  {
    var u := if done then v.(live := v.live - {ref}) else if ref in v.live then v.(leaked := v.leaked + {ref}) else v;
    LeavesAsItCame(w, u, h, user, Revoking(user, ref));
  }

  lemma NoSteps(w: World)
    ensures IsRun(w, []) && After(w, []) == w
  {
  }

  /** The refs of the user's rows are that of the one row there is. */
  lemma HeldRefs(w: World, user: int)
    requires Inv(w)
    ensures KeyHandlers.RefsOf(w.db, user) == (if RowOf(w.db, user).Some? then {RowOf(w.db, user).value.ref} else {})
    ensures RowOf(w.db, user).Some? <==> HasKey(w.db, user)
    ensures forall k :: k in w.db.keys && w.db.keys[k].userId == user ==> RowOf(w.db, user) == Some(Held(k, w.db.keys[k].ref))
    ensures RowOf(w.db, user).Some? ==> RowOf(w.db, user).value.key in w.db.keys
                                        && w.db.keys[RowOf(w.db, user).value.key].userId == user
  {
    RowOfIsOnlyRow(w, user);
  }

  // ----- Issuing a key -----

  function GenerateSteps(w: World, h: int, user: int, row: KeyRow, reply: KeyHandlers.Reply, revokes: bool): seq<Event> {
    match reply
    case LoadFailed => [Enter(h, user), Leave(h)]
    case Done =>
      [Enter(h, user), ReadForGenerate(h)] + ([CreateKey(h, row.ref, true), StoreKey(h, row)] +
                                              if RowOf(w.db, user).Some? then [Revoke(h, revokes)] else [])
    case SaveFailed =>
      [Enter(h, user), ReadForGenerate(h)] + ([CreateKey(h, row.ref, true), StoreFails(h)] + [Revoke(h, revokes)])
    case _ => [Enter(h, user), ReadForGenerate(h)] + [Leave(h)]
  }

  /** Under the lock, before the new key is created. */
  function AtGenerate(w: World, h: int, user: int): World {
    w.(handlers := w.handlers[h := Opened(user, RowOf(w.db, user))], lock := w.lock[user := h])
  }

  lemma ReadGoes(w: World, h: int, user: int)
    requires Free(w, h, user)
    ensures Goes(AtEntry(w, h, user), ReadForGenerate(h), AtGenerate(w, h, user))
  {
    assert AtEntry(w, h, user).handlers[h := Opened(user, RowOf(w.db, user))] == AtGenerate(w, h, user).handlers;
  }

  lemma EntersGenerate(w: World, h: int, user: int, rest: seq<Event>)
    requires Free(w, h, user) && IsRun(AtGenerate(w, h, user), rest)
    ensures IsRun(w, [Enter(h, user), ReadForGenerate(h)] + rest)
    ensures After(w, [Enter(h, user), ReadForGenerate(h)] + rest) == After(AtGenerate(w, h, user), rest)
  {
    EnterGoes(w, h, user);
    ReadGoes(w, h, user);
    StepsTwo(w, Enter(h, user), AtEntry(w, h, user), ReadForGenerate(h), AtGenerate(w, h, user), rest);
  }

  /** The new key is live and in the handler's hands. */
  function AtCreated(w: World, h: int, user: int, ref: Ref): World {
    AtGenerate(w, h, user).(handlers := w.handlers[h := Created(user, RowOf(w.db, user), ref)],
                            live := w.live + {ref}, owner := w.owner[ref := user])
  }

  lemma CreateGoes(w: World, h: int, user: int, ref: Ref)
    requires Free(w, h, user) && ref !in w.owner
    ensures Goes(AtGenerate(w, h, user), CreateKey(h, ref, true), AtCreated(w, h, user, ref))
  {
    var v := AtGenerate(w, h, user);
    assert v.handlers[h := Created(user, RowOf(w.db, user), ref)] == AtCreated(w, h, user, ref).handlers;
  }

  lemma {:induction false} GoesBack(w: World, h: int, user: int)
    requires Free(w, h, user)
    ensures Serves(w, [Enter(h, user), Leave(h)], h, user, w)
  {
    EnterGoes(w, h, user);
    LeaveGoes(w, AtEntry(w, h, user), h, user, Entered(user));
    StepsLastTwo(w, Enter(h, user), AtEntry(w, h, user), Leave(h), w);
  }

  /** A request that gave up before it created anything. */
  lemma {:induction false} GivesUp(w: World, h: int, user: int, row: KeyRow, reply: KeyHandlers.Reply, revokes: bool)
    requires Free(w, h, user) && reply !in {KeyHandlers.Done, KeyHandlers.SaveFailed}
    ensures Serves(w, GenerateSteps(w, h, user, row, reply, revokes), h, user, w)
  {
    if reply.LoadFailed? {
      GoesBack(w, h, user);
    } else {
      LeaveGoes(w, AtGenerate(w, h, user), h, user, Opened(user, RowOf(w.db, user)));
      StepLast(AtGenerate(w, h, user), Leave(h), w);
      EntersGenerate(w, h, user, [Leave(h)]);
    }
  }

  /** The new key could not be stored, and goes again unless that fails too. */
  function Unsaved(w: World, user: int, ref: Ref, revokes: bool): World {
    w.(live := if revokes then w.live else w.live + {ref}, owner := w.owner[ref := user],
       leaked := if revokes then w.leaked else w.leaked + {ref})
  }

  /** The handler is about to revoke a key. */
  function AtRevoking(v: World, w: World, h: int, user: int, ref: Ref): World {
    v.(handlers := w.handlers[h := Revoking(user, ref)], lock := w.lock[user := h])
  }

  lemma StoreFailsGoes(w: World, h: int, user: int, ref: Ref)
    requires Free(w, h, user)
    ensures Goes(AtCreated(w, h, user, ref), StoreFails(h), AtRevoking(AtCreated(w, h, user, ref), w, h, user, ref))
  {
    var v := AtCreated(w, h, user, ref);
    assert v.handlers[h := Revoking(user, ref)] == w.handlers[h := Revoking(user, ref)];
  }

  lemma {:induction false} TakesBack(w: World, h: int, user: int, row: KeyRow, revokes: bool)
    requires Free(w, h, user) && row.ref !in w.owner && row.ref !in w.live
    ensures Serves(w, GenerateSteps(w, h, user, row, KeyHandlers.SaveFailed, revokes), h, user, Unsaved(w, user, row.ref, revokes))
  {
    var v, x := AtCreated(w, h, user, row.ref), Unsaved(w, user, row.ref, revokes);
    var u := AtRevoking(v, w, h, user, row.ref);
    RevokeGoes(w, u, h, user, row.ref, revokes);
    assert (w.live + {row.ref}) - {row.ref} == w.live;
    StepLast(u, Revoke(h, revokes), x);
    StoreFailsGoes(w, h, user, row.ref);
    CreateGoes(w, h, user, row.ref);
    StepsTwo(AtGenerate(w, h, user), CreateKey(h, row.ref, true), v, StoreFails(h), u, [Revoke(h, revokes)]);
    EntersGenerate(w, h, user, [CreateKey(h, row.ref, true), StoreFails(h)] + [Revoke(h, revokes)]);
  }

  /** The new key's row is the user's only one, and the key of the old one goes unless that fails. */
  function Swapped(w: World, user: int, row: KeyRow, revokes: bool): World
    requires user in w.db.users && row.userId == user
  {
    var gone := KeyHandlers.RefsOf(w.db, user);
    w.(db := ReplaceAPIKey(w.db, row).value, live := if revokes then (w.live + {row.ref}) - gone else w.live + {row.ref},
       owner := w.owner[row.ref := user], leaked := if revokes then w.leaked else w.leaked + (gone * w.live))
  }

  /** The row is stored; if there was one before, its key is to be revoked. */
  function AtStored(w: World, h: int, user: int, row: KeyRow): World
    requires user in w.db.users && row.userId == user
  {
    var v := AtCreated(w, h, user, row.ref).(db := ReplaceAPIKey(w.db, row).value);
    if RowOf(w.db, user).Some? then AtRevoking(v, w, h, user, RowOf(w.db, user).value.ref)
    else v.(handlers := w.handlers, lock := w.lock)
  }

  lemma StoreGoes(w: World, h: int, user: int, row: KeyRow)
    requires Free(w, h, user) && user in w.db.users && row.userId == user
    ensures Goes(AtCreated(w, h, user, row.ref), StoreKey(h, row), AtStored(w, h, user, row))
  {
    var v := AtCreated(w, h, user, row.ref);
    if RowOf(w.db, user).Some? {
      var s := Revoking(user, RowOf(w.db, user).value.ref);
      assert v.handlers[h := s] == w.handlers[h := s];
    } else {
      LeavesAsItCame(w, v.(db := ReplaceAPIKey(w.db, row).value), h, user, Created(user, None, row.ref));
    }
  }

  lemma {:induction false} RevokesOld(w: World, h: int, user: int, row: KeyRow, revokes: bool)
    requires Inv(w) && Free(w, h, user) && row.ref !in w.owner && user in w.db.users && row.userId == user
    ensures var last := if RowOf(w.db, user).Some? then [Revoke(h, revokes)] else [];
            IsRun(AtStored(w, h, user, row), last) && After(AtStored(w, h, user, row), last) == Swapped(w, user, row, revokes)
  {
    var u, x := AtStored(w, h, user, row), Swapped(w, user, row, revokes);
    HeldRefs(w, user);
    if RowOf(w.db, user).Some? {
      var ref := RowOf(w.db, user).value.ref;
      OldIsOwned(w, user);
      RevokeGoes(w, u, h, user, ref, revokes);
      assert x.leaked == if revokes || ref !in u.live then u.leaked else u.leaked + {ref};
      StepLast(u, Revoke(h, revokes), x);
    } else {
      assert u == x;
      NoSteps(x);
    }
  }

  lemma OldIsOwned(w: World, user: int)
    requires Inv(w) && RowOf(w.db, user).Some?
    ensures RowOf(w.db, user).value.ref in w.owner
  {
    RowOfIsOnlyRow(w, user);
  }

  lemma {:induction false} Replaces(w: World, h: int, user: int, row: KeyRow, revokes: bool)
    requires Inv(w) && Free(w, h, user) && row.ref !in w.owner && user in w.db.users && row.userId == user
    ensures Serves(w, GenerateSteps(w, h, user, row, KeyHandlers.Done, revokes), h, user, Swapped(w, user, row, revokes))
  {
    var v, u := AtCreated(w, h, user, row.ref), AtStored(w, h, user, row);
    var last := if RowOf(w.db, user).Some? then [Revoke(h, revokes)] else [];
    RevokesOld(w, h, user, row, revokes);
    CreateGoes(w, h, user, row.ref);
    StoreGoes(w, h, user, row);
    StepsTwo(AtGenerate(w, h, user), CreateKey(h, row.ref, true), v, StoreKey(h, row), u, last);
    EntersGenerate(w, h, user, [CreateKey(h, row.ref, true), StoreKey(h, row)] + last);
  }

  /** The protocol's tables and live keys are those of the store and the gateway. */
  ghost predicate Pictures(w: World, hs: KeyHandlers.Handlers)
    reads hs.store, hs.keys.server
  {
    w.db == hs.store.Tables() && w.live == hs.keys.server.keys.Keys
  }

  /** A request to issue a key is a run of the protocol, from the tables and keys it found to those it leaves. */
  method GenerateIsProtocol(hs: KeyHandlers.Handlers, ghost w: World, ghost h: int, user: int, owner: Owner, ref: Ref, alias: string,
                            now: Time, t: KeyHandlers.Trouble) returns (reply: KeyHandlers.Reply, ghost trace: seq<Event>, ghost v: World)
    requires Pictures(w, hs) && Inv(w) && Free(w, h, user) && user in w.db.users && ref !in w.owner
    modifies hs.store, hs.keys.server
    ensures Serves(w, trace, h, user, v) && Pictures(v, hs) && Inv(v)
    ensures v.leaked == w.leaked || t.delete
  {
    ghost var row := IssuedOr(w.db, user, ref, now, hs.keyDurationDays);
    reply := Generate(hs, w, user, owner, ref, alias, now, t);
    trace := GenerateSteps(w, h, user, row, reply, !t.delete);
    v := Generated(w, user, row, reply, !t.delete);
    GenerateServes(w, h, user, row, reply, !t.delete);
  }

  method Generate(hs: KeyHandlers.Handlers, ghost w: World, user: int, owner: Owner, ref: Ref, alias: string, now: Time,
                  t: KeyHandlers.Trouble) returns (reply: KeyHandlers.Reply)
    requires Pictures(w, hs) && Inv(w) && user in w.db.users && ref !in w.owner
    modifies hs.store, hs.keys.server
    ensures Pictures(Generated(w, user, IssuedOr(w.db, user, ref, now, hs.keyDurationDays), reply, !t.delete), hs)
  {
    OwnRefsKnown(w, user);
    ghost var row := IssuedOr(w.db, user, ref, now, hs.keyDurationDays);
    assert KeyHandlers.ProfileOf(w.db, user).Some? ==> row == KeyHandlers.IssuedRow(w.db, user, ref, hs.ExpiryFrom(now, user));
    reply := hs.GenerateKey(user, owner, ref, alias, now, t);
    LiveAfter(w, user, row, reply, !t.delete, hs.keys.server.keys);
  }

  /** What the steps of a request leave. */
  function Generated(w: World, user: int, row: KeyRow, reply: KeyHandlers.Reply, revokes: bool): World
    requires user in w.db.users && row.userId == user
  {
    match reply
    case Done => Swapped(w, user, row, revokes)
    case SaveFailed => Unsaved(w, user, row.ref, revokes)
    case _ => w
  }

  lemma GenerateServes(w: World, h: int, user: int, row: KeyRow, reply: KeyHandlers.Reply, revokes: bool)
    requires Inv(w) && Free(w, h, user) && row.ref !in w.owner && user in w.db.users && row.userId == user
    ensures var v := Generated(w, user, row, reply, revokes);
            Serves(w, GenerateSteps(w, h, user, row, reply, revokes), h, user, v) && Inv(v) && (revokes ==> v.leaked == w.leaked)
  {
    if reply.Done? {
      Replaces(w, h, user, row, revokes);
    } else if reply.SaveFailed? {
      TakesBack(w, h, user, row, revokes);
    } else {
      GivesUp(w, h, user, row, reply, revokes);
    }
    RunKeeps(w, GenerateSteps(w, h, user, row, reply, revokes));
  }

  /** The keys the gateway is left with, as the handler's contract tells of them. */
  lemma LiveAfter(w: World, user: int, row: KeyRow, reply: KeyHandlers.Reply, revokes: bool, now: map<Ref, Gateway.Key>)
    requires user in w.db.users && row.userId == user
    requires reply.Done? ==> row.ref in now && forall r :: r != row.ref ==>
               (r in now <==> r in w.live && (!revokes || !KeyHandlers.HoldsKey(w.db, user, r)))
    requires reply.Done? ==> row.ref !in KeyHandlers.RefsOf(w.db, user)
    requires reply.SaveFailed? ==> now.Keys == if revokes then w.live else w.live + {row.ref}
    requires !reply.Done? && !reply.SaveFailed? ==> now.Keys == w.live
    ensures Generated(w, user, row, reply, revokes).live == now.Keys
  {
    forall r ensures r in KeyHandlers.RefsOf(w.db, user) <==> KeyHandlers.HoldsKey(w.db, user, r) {
    }
    assert forall r :: r in Generated(w, user, row, reply, revokes).live <==> r in now.Keys;
  }

  /** The row of the new key, or one for the same key if none is stored. */
  function IssuedOr(db: Db, user: int, ref: Ref, now: Time, fallback: int): KeyRow
    requires user in db.users
  {
    var p := KeyHandlers.ProfileOf(db, user);
    if p.None? then NewKeyRow(user, ref, now, 0, 0, "", "")
    else
      var days := db.profiles[p.value].keyDurationDays;
      KeyHandlers.IssuedRow(db, user, ref, now + 86400 * if days > 0 then days else fallback)
  }

  lemma OwnRefsKnown(w: World, user: int)
    requires Inv(w)
    ensures OneKeyEach(w.db) && KeyHandlers.RefsOf(w.db, user) <= w.owner.Keys && w.live <= w.owner.Keys
  {
  }

  // ----- Deleting a key -----

  function DeleteSteps(w: World, h: int, user: int, t: KeyHandlers.Trouble): seq<Event> {
    if t.load then [Enter(h, user), Leave(h)]
    else if RowOf(w.db, user).None? then [Enter(h, user), ReadForDelete(h)] + []
    else if t.delete then [Enter(h, user), ReadForDelete(h)] + [DeleteUpstream(h, false, false)]
    else [Enter(h, user), ReadForDelete(h)] + [DeleteUpstream(h, true, true), DropRow(h, !t.save)]
  }

  /** The user's key is gone, and its row if that was saved. */
  function Emptied(w: World, user: int, saved: bool): World {
    w.(db := if saved then w.db.(keys := w.db.keys - KeysOfUser(w.db, user)) else w.db,
       live := w.live - KeyHandlers.RefsOf(w.db, user))
  }

  function Deleted(w: World, user: int, t: KeyHandlers.Trouble): World {
    if t.load || t.delete then w else Emptied(w, user, !t.save)
  }

  lemma OneRow(w: World, user: int)
    requires Inv(w) && RowOf(w.db, user).Some?
    ensures KeysOfUser(w.db, user) == {RowOf(w.db, user).value.key}
  {
    HeldRefs(w, user);
    assert forall k :: k in KeysOfUser(w.db, user) <==> k == RowOf(w.db, user).value.key;
  }

  lemma NoRow(w: World, user: int)
    requires Inv(w) && RowOf(w.db, user).None?
    ensures KeysOfUser(w.db, user) == {} && KeyHandlers.RefsOf(w.db, user) == {} && Emptied(w, user, true) == w == Emptied(w, user, false)
  {
    HeldRefs(w, user);
    assert forall k :: k !in KeysOfUser(w.db, user);
  }

  /** Under the lock, with the row to delete. */
  function AtDelete(w: World, h: int, user: int): World
    requires RowOf(w.db, user).Some?
  {
    w.(handlers := w.handlers[h := Deleting(user, RowOf(w.db, user).value, true)], lock := w.lock[user := h])
  }

  lemma ReadToDeleteGoes(w: World, h: int, user: int)
    requires Free(w, h, user)
    ensures Goes(AtEntry(w, h, user), ReadForDelete(h), if RowOf(w.db, user).Some? then AtDelete(w, h, user) else w)
  {
    if RowOf(w.db, user).Some? {
      var s := Deleting(user, RowOf(w.db, user).value, true);
      assert AtEntry(w, h, user).handlers[h := s] == w.handlers[h := s];
    } else {
      LeavesAsItCame(w, AtEntry(w, h, user), h, user, Entered(user));
    }
  }

  lemma EntersDelete(w: World, h: int, user: int, rest: seq<Event>)
    requires Free(w, h, user) && RowOf(w.db, user).Some? && IsRun(AtDelete(w, h, user), rest)
    ensures IsRun(w, [Enter(h, user), ReadForDelete(h)] + rest)
    ensures After(w, [Enter(h, user), ReadForDelete(h)] + rest) == After(AtDelete(w, h, user), rest)
  {
    EnterGoes(w, h, user);
    ReadToDeleteGoes(w, h, user);
    StepsTwo(w, Enter(h, user), AtEntry(w, h, user), ReadForDelete(h), AtDelete(w, h, user), rest);
  }

  /** The key is gone, its row is not yet. */
  function AtDeleted(w: World, h: int, user: int): World
    requires RowOf(w.db, user).Some?
  {
    var held := RowOf(w.db, user).value;
    AtDelete(w, h, user).(handlers := w.handlers[h := KeyIssue.Deleted(user, held, true)], live := w.live - {held.ref})
  }

  lemma DeleteUpstreamGoes(w: World, h: int, user: int)
    requires Free(w, h, user) && RowOf(w.db, user).Some?
    ensures Goes(AtDelete(w, h, user), DeleteUpstream(h, true, true), AtDeleted(w, h, user))
    ensures Goes(AtDelete(w, h, user), DeleteUpstream(h, false, false), w)
  {
    var s := KeyIssue.Deleted(user, RowOf(w.db, user).value, true);
    assert AtDelete(w, h, user).handlers[h := s] == w.handlers[h := s];
    LeavesAsItCame(w, AtDelete(w, h, user), h, user, Deleting(user, RowOf(w.db, user).value, true));
  }

  lemma DropGoes(w: World, h: int, user: int, saved: bool)
    requires Inv(w) && Free(w, h, user) && RowOf(w.db, user).Some?
    ensures Goes(AtDeleted(w, h, user), DropRow(h, saved), Emptied(w, user, saved))
  {
    var held := RowOf(w.db, user).value;
    var u := if saved then AtDeleted(w, h, user).(db := DeleteAPIKey(w.db, held.key)) else AtDeleted(w, h, user);
    HeldRefs(w, user);
    OneRow(w, user);
    LeavesAsItCame(w, u, h, user, KeyIssue.Deleted(user, held, true));
  }

  lemma {:induction false} DeletesNothing(w: World, h: int, user: int)
    requires Inv(w) && Free(w, h, user)
    ensures RowOf(w.db, user).None? ==> Serves(w, [Enter(h, user), ReadForDelete(h)] + [], h, user, w)
    ensures RowOf(w.db, user).Some? ==> Serves(w, [Enter(h, user), ReadForDelete(h)] + [DeleteUpstream(h, false, false)], h, user, w)
  {
    if RowOf(w.db, user).None? {
      EnterGoes(w, h, user);
      ReadToDeleteGoes(w, h, user);
      NoSteps(w);
      StepsTwo(w, Enter(h, user), AtEntry(w, h, user), ReadForDelete(h), w, []);
    } else {
      DeleteUpstreamGoes(w, h, user);
      StepLast(AtDelete(w, h, user), DeleteUpstream(h, false, false), w);
      EntersDelete(w, h, user, [DeleteUpstream(h, false, false)]);
    }
  }

  lemma {:induction false} Deletes(w: World, h: int, user: int, saved: bool)
    requires Inv(w) && Free(w, h, user) && RowOf(w.db, user).Some?
    ensures Serves(w, [Enter(h, user), ReadForDelete(h)] + [DeleteUpstream(h, true, true), DropRow(h, saved)], h, user, Emptied(w, user, saved))
  {
    DeleteUpstreamGoes(w, h, user);
    DropGoes(w, h, user, saved);
    StepsLastTwo(AtDelete(w, h, user), DeleteUpstream(h, true, true), AtDeleted(w, h, user), DropRow(h, saved), Emptied(w, user, saved));
    EntersDelete(w, h, user, [DeleteUpstream(h, true, true), DropRow(h, saved)]);
  }

  lemma DeleteServes(w: World, h: int, user: int, t: KeyHandlers.Trouble)
    requires Inv(w) && Free(w, h, user)
    ensures Serves(w, DeleteSteps(w, h, user, t), h, user, Deleted(w, user, t)) && Inv(Deleted(w, user, t))
  {
    if t.load {
      GoesBack(w, h, user);
    } else if RowOf(w.db, user).None? || t.delete {
      DeletesNothing(w, h, user);
      if RowOf(w.db, user).None? {
        NoRow(w, user);
      }
    } else {
      Deletes(w, h, user, !t.save);
    }
    RunKeeps(w, DeleteSteps(w, h, user, t));
  }

  /** A request to delete the user's key is a run of the protocol, and leaks nothing. */
  method DeleteIsProtocol(hs: KeyHandlers.Handlers, ghost w: World, ghost h: int, user: int, t: KeyHandlers.Trouble)
    returns (reply: KeyHandlers.Reply, ghost trace: seq<Event>, ghost v: World)
    requires Pictures(w, hs) && Inv(w) && Free(w, h, user)
    modifies hs.store, hs.keys.server
    ensures Serves(w, trace, h, user, v) && Pictures(v, hs) && Inv(v) && v.leaked == w.leaked
  {
    OwnRefsKnown(w, user);
    HeldRefs(w, user);
    reply := hs.DeleteKey(user, t);
    trace := DeleteSteps(w, h, user, t);
    v := Deleted(w, user, t);
    DeleteServes(w, h, user, t);
    if RowOf(w.db, user).None? {
      NoRow(w, user);
    }
  }

  // ----- Extending a key -----

  function ExtendSteps(w: World, h: int, user: int, now: Time, until: Time, reply: KeyHandlers.Reply, saved: bool): seq<Event> {
    if reply.LoadFailed? then [Enter(h, user), Leave(h)]
    else if RowOf(w.db, user).None? || KeyHandlers.IsMarked(w.db, user) then [Enter(h, user), ReadForExtend(h)] + []
    else if reply.Done? && saved then [Enter(h, user), ReadForExtend(h)] + [ExtendKey(h, until)]
    else if reply.KeyMissing? && saved then [Enter(h, user), ReadForExtend(h)] + [MarkMissing(h, now)]
    else [Enter(h, user), ReadForExtend(h)] + [Leave(h)]
  }

  function Extended(w: World, user: int, now: Time, until: Time, reply: KeyHandlers.Reply, saved: bool): World {
    if RowOf(w.db, user).None? || !saved then w
    else if reply.Done? then w.(db := UpdateAPIKeyExpiry(w.db, RowOf(w.db, user).value.key, until))
    else if reply.KeyMissing? then w.(db := MarkKeyMissing(w.db, RowOf(w.db, user).value.key, user, now))
    else w
  }

  /** Under the lock, with the row to extend. */
  function AtExtend(w: World, h: int, user: int): World
    requires RowOf(w.db, user).Some?
  {
    w.(handlers := w.handlers[h := Extending(user, RowOf(w.db, user).value)], lock := w.lock[user := h])
  }

  lemma ReadToExtendGoes(w: World, h: int, user: int)
    requires Inv(w) && Free(w, h, user)
    ensures Goes(AtEntry(w, h, user), ReadForExtend(h),
                 if RowOf(w.db, user).Some? && !KeyHandlers.IsMarked(w.db, user) then AtExtend(w, h, user) else w)
  {
    HeldRefs(w, user);
    LeavesAsItCame(w, AtEntry(w, h, user), h, user, Entered(user));
    if RowOf(w.db, user).Some? {
      var s := Extending(user, RowOf(w.db, user).value);
      assert AtEntry(w, h, user).handlers[h := s] == w.handlers[h := s];
    }
  }

  /** What one last step under the lock makes of the tables. */
  function TablesAfter(w: World, user: int, e: Event): Db
    requires RowOf(w.db, user).Some?
  {
    match e
    case ExtendKey(_, until) => UpdateAPIKeyExpiry(w.db, RowOf(w.db, user).value.key, until)
    case MarkMissing(_, now) => MarkKeyMissing(w.db, RowOf(w.db, user).value.key, user, now)
    case _ => w.db
  }

  lemma LastGoes(w: World, h: int, user: int, e: Event)
    requires Free(w, h, user) && RowOf(w.db, user).Some? && (e.Leave? || e.ExtendKey? || e.MarkMissing?) && e.h == h
    requires e.MarkMissing? ==> RowOf(w.db, user).value.ref !in w.live
    ensures Goes(AtExtend(w, h, user), e, w.(db := TablesAfter(w, user, e)))
  {
    LeavesAsItCame(w, AtExtend(w, h, user).(db := TablesAfter(w, user, e)), h, user, Extending(user, RowOf(w.db, user).value));
  }

  /** One last step under the lock. */
  lemma {:induction false} LastStepOfExtend(w: World, h: int, user: int, e: Event)
    requires Inv(w) && Free(w, h, user) && RowOf(w.db, user).Some? && !KeyHandlers.IsMarked(w.db, user)
    requires (e.Leave? || e.ExtendKey? || e.MarkMissing?) && e.h == h
    requires e.MarkMissing? ==> RowOf(w.db, user).value.ref !in w.live
    ensures Serves(w, [Enter(h, user), ReadForExtend(h)] + [e], h, user, w.(db := TablesAfter(w, user, e)))
  {
    LastGoes(w, h, user, e);
    StepLast(AtExtend(w, h, user), e, w.(db := TablesAfter(w, user, e)));
    EnterGoes(w, h, user);
    ReadToExtendGoes(w, h, user);
    StepsTwo(w, Enter(h, user), AtEntry(w, h, user), ReadForExtend(h), AtExtend(w, h, user), [e]);
  }

  lemma {:induction false} ExtendsNothing(w: World, h: int, user: int)
    requires Inv(w) && Free(w, h, user) && (RowOf(w.db, user).None? || KeyHandlers.IsMarked(w.db, user))
    ensures Serves(w, [Enter(h, user), ReadForExtend(h)] + [], h, user, w)
  {
    EnterGoes(w, h, user);
    ReadToExtendGoes(w, h, user);
    NoSteps(w);
    StepsTwo(w, Enter(h, user), AtEntry(w, h, user), ReadForExtend(h), w, []);
  }

  lemma ExtendServes(w: World, h: int, user: int, now: Time, until: Time, reply: KeyHandlers.Reply, saved: bool)
    requires Inv(w) && Free(w, h, user)
    requires RowOf(w.db, user).None? || KeyHandlers.IsMarked(w.db, user) ==> !reply.Done?
    requires reply.KeyMissing? && RowOf(w.db, user).Some? && !KeyHandlers.IsMarked(w.db, user) ==> RowOf(w.db, user).value.ref !in w.live
    ensures var v := Extended(w, user, now, until, reply, saved);
            Serves(w, ExtendSteps(w, h, user, now, until, reply, saved), h, user, v) && Inv(v)
  {
    HeldRefs(w, user);
    if reply.LoadFailed? {
      GoesBack(w, h, user);
    } else if RowOf(w.db, user).None? || KeyHandlers.IsMarked(w.db, user) {
      ExtendsNothing(w, h, user);
    } else if reply.Done? && saved {
      LastStepOfExtend(w, h, user, ExtendKey(h, until));
    } else if reply.KeyMissing? && saved {
      LastStepOfExtend(w, h, user, MarkMissing(h, now));
    } else {
      LastStepOfExtend(w, h, user, Leave(h));
    }
    RunKeeps(w, ExtendSteps(w, h, user, now, until, reply, saved));
  }

  /** A request to extend the user's key is a run of the protocol, and leaks nothing. */
  method ExtendIsProtocol(hs: KeyHandlers.Handlers, ghost w: World, ghost h: int, user: int, now: Time, t: KeyHandlers.Trouble)
    returns (reply: KeyHandlers.Reply, ghost trace: seq<Event>, ghost v: World)
    requires Pictures(w, hs) && Inv(w) && Free(w, h, user) && user in w.db.users
    modifies hs.store, hs`kicks, hs.keys.server`expiry
    ensures Serves(w, trace, h, user, v) && Pictures(v, hs) && Inv(v) && v.leaked == w.leaked
  {
    ghost var until;
    reply, until := Extend(hs, w, user, now, t);
    trace := ExtendSteps(w, h, user, now, until, reply, !t.save);
    v := Extended(w, user, now, until, reply, !t.save);
    ExtendServes(w, h, user, now, until, reply, !t.save);
  }

  /** What the handler's contract says of the user's one row. */
  lemma ExtendedTables(w: World, user: int, now: Time, until: Time, reply: KeyHandlers.Reply, saved: bool, after: Db)
    requires Inv(w) && (reply.Done? || reply.KeyMissing? ==> HasKey(w.db, user)) && (!reply.Done? && !reply.KeyMissing? ==> after == w.db)
    requires forall k :: k in w.db.keys && w.db.keys[k].userId == user ==>
               && (reply.Done? ==> after == if saved then UpdateAPIKeyExpiry(w.db, k, until) else w.db)
               && (reply.KeyMissing? ==> after == if saved then MarkKeyMissing(w.db, k, user, now) else w.db)
    ensures Extended(w, user, now, until, reply, saved) == w.(db := after)
  {
    HeldRefs(w, user);
  }

  method Extend(hs: KeyHandlers.Handlers, ghost w: World, user: int, now: Time, t: KeyHandlers.Trouble)
    returns (reply: KeyHandlers.Reply, ghost until: Time)
    requires Pictures(w, hs) && Inv(w) && user in w.db.users
    modifies hs.store, hs`kicks, hs.keys.server`expiry
    ensures Pictures(Extended(w, user, now, until, reply, !t.save), hs)
    ensures RowOf(w.db, user).None? || KeyHandlers.IsMarked(w.db, user) ==> !reply.Done?
    ensures reply.KeyMissing? && RowOf(w.db, user).Some? && !KeyHandlers.IsMarked(w.db, user) ==> RowOf(w.db, user).value.ref !in w.live
  {
    until := if KeyHandlers.ProfileOf(w.db, user).Some? then hs.ExpiryFrom(now, user) else now;
    OwnRefsKnown(w, user);
    reply := hs.ExtendKey(user, now, t);
    ExtendedTables(w, user, now, until, reply, !t.save, hs.store.Tables());
    HeldRefs(w, user);
  }

  // ----- Revoking a key at its user's deadline -----

  function ExpirySteps(w: World, h: int, user: int, t: ProfileExpiry.Trouble): seq<Event> {
    if t.load then []
    else
      (if RowOf(w.db, user).None? then []
       else if t.delete != ProfileExpiry.Deleted then [ReadUnlocked(h, user), DeleteUpstream(h, t.delete.Unheard?, false)]
       else [ReadUnlocked(h, user), DeleteUpstream(h, true, true)] + [DropRow(h, !t.drop)])
      + if ProfileExpiry.Moved(w.db, user, t) then [Admin(Profiles.Revert(user))] else []
  }

  /** What one user's revocation leaves. */
  ghost function Expired(w: World, user: int, trouble: int -> ProfileExpiry.Trouble): World {
    var r := ProfileExpiry.Handled(ProfileExpiry.State(w.db, w.live), {user}, trouble);
    w.(db := r.db, live := r.live)
  }

  /** Without the lock, with the row to delete. */
  function AtExpiry(w: World, h: int, user: int): World
    requires RowOf(w.db, user).Some?
  {
    w.(handlers := w.handlers[h := Deleting(user, RowOf(w.db, user).value, false)])
  }

  lemma ReadUnlockedGoes(w: World, h: int, user: int)
    requires h !in w.handlers && RowOf(w.db, user).Some?
    ensures Goes(w, ReadUnlocked(h, user), AtExpiry(w, h, user))
  {
  }

  lemma EndsUnlocked(w: World, v: World, h: int, s: Handler)
    requires h !in w.handlers && v.handlers == w.handlers[h := s] && !HoldsLock(s)
    ensures Ended(v, h) == v.(handlers := w.handlers)
  {
    assert v.handlers - {h} == w.handlers;
  }

  /** The key goes, or not; so does its row. */
  function KeyExpired(w: World, user: int, t: ProfileExpiry.Trouble): World {
    var row := RowOf(w.db, user);
    if row.None? || t.load || t.delete.Refused? then w
    else
      w.(live := w.live - {row.value.ref},
         db := if t.delete.Deleted? && !t.drop then DeleteAPIKey(w.db, row.value.key) else w.db)
  }

  /** The key is gone, its row is not yet. */
  function AtGone(w: World, h: int, user: int): World
    requires RowOf(w.db, user).Some?
  {
    var held := RowOf(w.db, user).value;
    w.(handlers := w.handlers[h := KeyIssue.Deleted(user, held, false)], live := w.live - {held.ref})
  }

  lemma DeleteUnlockedGoes(w: World, h: int, user: int, t: ProfileExpiry.Trouble)
    requires h !in w.handlers && RowOf(w.db, user).Some? && !t.load
    ensures t.delete.Deleted? ==> Goes(AtExpiry(w, h, user), DeleteUpstream(h, true, true), AtGone(w, h, user))
    ensures !t.delete.Deleted? ==> Goes(AtExpiry(w, h, user), DeleteUpstream(h, t.delete.Unheard?, false), KeyExpired(w, user, t))
  {
    var v, held := AtExpiry(w, h, user), RowOf(w.db, user).value;
    if t.delete.Deleted? {
      var s := KeyIssue.Deleted(user, held, false);
      assert v.handlers[h := s] == w.handlers[h := s];
    } else {
      EndsUnlocked(w, if t.delete.Unheard? then v.(live := w.live - {held.ref}) else v, h, Deleting(user, held, false));
    }
  }

  lemma DropUnlockedGoes(w: World, h: int, user: int, t: ProfileExpiry.Trouble)
    requires h !in w.handlers && RowOf(w.db, user).Some? && !t.load && t.delete.Deleted?
    ensures Goes(AtGone(w, h, user), DropRow(h, !t.drop), KeyExpired(w, user, t))
  {
    var v, held := AtGone(w, h, user), RowOf(w.db, user).value;
    EndsUnlocked(w, if t.drop then v else v.(db := DeleteAPIKey(w.db, held.key)), h, KeyIssue.Deleted(user, held, false));
  }

  lemma {:induction false} ExpiresKey(w: World, h: int, user: int, t: ProfileExpiry.Trouble, rest: seq<Event>)
    requires h !in w.handlers && RowOf(w.db, user).Some? && !t.load && IsRun(KeyExpired(w, user, t), rest)
    ensures var steps := if t.delete.Deleted? then [ReadUnlocked(h, user), DeleteUpstream(h, true, true)] + [DropRow(h, !t.drop)]
                         else [ReadUnlocked(h, user), DeleteUpstream(h, t.delete.Unheard?, false)];
            IsRun(w, steps + rest) && After(w, steps + rest) == After(KeyExpired(w, user, t), rest)
  {
    ReadUnlockedGoes(w, h, user);
    DeleteUnlockedGoes(w, h, user, t);
    var d, v, x := ReadUnlocked(h, user), AtExpiry(w, h, user), KeyExpired(w, user, t);
    if t.delete.Deleted? {
      var e, f := DeleteUpstream(h, true, true), DropRow(h, !t.drop);
      DropUnlockedGoes(w, h, user, t);
      StepFirst(AtGone(w, h, user), f, x, rest);
      StepsTwo(w, d, v, e, AtGone(w, h, user), [f] + rest);
      assert [d, e] + ([f] + rest) == ([d, e] + [f]) + rest;
    } else {
      StepsTwo(w, d, v, DeleteUpstream(h, t.delete.Unheard?, false), x, rest);
    }
  }

  /** Without the last call, the user's revocation comes to this. */
  lemma KeyExpiredIsHandled(w: World, user: int, t: ProfileExpiry.Trouble, trouble: int -> ProfileExpiry.Trouble)
    requires Inv(w) && user in w.db.users && w.db.users[user].revokeKeyAtExpiry && t == trouble(user)
    ensures var v, u := KeyExpired(w, user, t), w.db.users[user];
            Expired(w, user, trouble) ==
            if ProfileExpiry.Moved(w.db, user, t) then v.(db := v.db.(users := w.db.users[user := ProfileExpiry.Reverted(u)])) else v
  {
    var s := ProfileExpiry.State(w.db, w.live);
    HeldRefs(w, user);
    OwnRefsKnown(w, user);
    if RowOf(w.db, user).Some? {
      ProfileExpiry.HandledWithKey(s, user, RowOf(w.db, user).value.key, trouble);
    } else {
      ProfileExpiry.HandledWithoutKey(s, user, trouble);
    }
  }

  lemma RevertGoes(v: World, user: int)
    requires user in v.db.users && Known(v.db, v.db.users[user].profileAfterExpiry)
    ensures Goes(v, Admin(Profiles.Revert(user)),
                 v.(db := v.db.(users := v.db.users[user := ProfileExpiry.Reverted(v.db.users[user])])))
  {
  }

  /** The user is moved in the end, if everything before went well. */
  lemma MovesUser(w: World, user: int, t: ProfileExpiry.Trouble, trouble: int -> ProfileExpiry.Trouble)
    requires Inv(w) && user in w.db.users && w.db.users[user].revokeKeyAtExpiry && t == trouble(user)
    ensures var rest := if ProfileExpiry.Moved(w.db, user, t) then [Admin(Profiles.Revert(user))] else [];
            IsRun(KeyExpired(w, user, t), rest) && After(KeyExpired(w, user, t), rest) == Expired(w, user, trouble)
  {
    var v := KeyExpired(w, user, t);
    KeyExpiredIsHandled(w, user, t, trouble);
    if ProfileExpiry.Moved(w.db, user, t) {
      RevertGoes(v, user);
      StepLast(v, Admin(Profiles.Revert(user)), Expired(w, user, trouble));
    } else {
      NoSteps(v);
    }
  }

  lemma {:induction false} ExpiryRuns(w: World, h: int, user: int, t: ProfileExpiry.Trouble, trouble: int -> ProfileExpiry.Trouble)
    requires Inv(w) && h !in w.handlers && user in w.db.users && w.db.users[user].revokeKeyAtExpiry && t == trouble(user)
    ensures IsRun(w, ExpirySteps(w, h, user, t)) && After(w, ExpirySteps(w, h, user, t)) == Expired(w, user, trouble)
  {
    var rest := if ProfileExpiry.Moved(w.db, user, t) then [Admin(Profiles.Revert(user))] else [];
    MovesUser(w, user, t, trouble);
    if !t.load {
      if RowOf(w.db, user).Some? {
        ExpiresKey(w, h, user, t, rest);
      } else {
        assert [] + rest == rest;
      }
    }
  }

  lemma ExpiryServes(w: World, h: int, user: int, t: ProfileExpiry.Trouble, trouble: int -> ProfileExpiry.Trouble)
    requires Inv(w) && h !in w.handlers && user in w.db.users && w.db.users[user].revokeKeyAtExpiry && t == trouble(user)
    ensures Serves(w, ExpirySteps(w, h, user, t), h, user, Expired(w, user, trouble)) && Inv(Expired(w, user, trouble))
  {
    ExpiryRuns(w, h, user, t, trouble);
    RunKeeps(w, ExpirySteps(w, h, user, t));
  }

  /** What the expiry job does for a user whose key is to be revoked is a run of the protocol, without the lock, and leaks nothing. */
  method ExpiryIsProtocol(r: ProfileExpiry.Runner, ghost w: World, ghost h: int, id: int, u: User, t: ProfileExpiry.Trouble,
                          ghost trouble: int -> ProfileExpiry.Trouble) returns (ok: bool, ghost trace: seq<Event>, ghost v: World)
    requires w.db == r.store.Tables() && w.live == r.live && Inv(w) && h !in w.handlers
    requires id in w.db.users && w.db.users[id] == u && u.revokeKeyAtExpiry && t == trouble(id)
    modifies r`live, r.store
    ensures Serves(w, trace, h, id, v) && Inv(v) && v.leaked == w.leaked
    ensures v.db == r.store.Tables() && v.live == r.live
  {
    OwnRefsKnown(w, id);
    ok := r.Revoke(id, u, t, trouble);
    trace := ExpirySteps(w, h, id, t);
    v := Expired(w, id, trouble);
    ExpiryServes(w, h, id, t, trouble);
  }
}
