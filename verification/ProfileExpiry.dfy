/**
 * Assignments whose deadline has passed are reverted
 * (internal/profileexpiry/expiry.go). Each step for each user can fail.
 */
module ProfileExpiry {
  import opened Options
  import opened KeyProvider
  import opened Database
  import opened Stores

  /** What a delete upstream comes to; Unheard is one that took effect and reported a failure. */
  datatype Deletion = Deleted | Refused | Unheard

  /** What goes wrong for a user in a run. */
  datatype Trouble = Trouble(load: bool, delete: Deletion, drop: bool, apply: bool)

  const NoTrouble := Trouble(false, Deleted, false, false)

  /** The tables, and the keys that are live in the gateway. */
  datatype State = State(db: Db, live: set<Ref>)

  // ----- What a run makes of the state -----

  function DueUsers(db: Db, now: Time): set<int> {
    set u | u in db.users && Due(db.users[u], now)
  }

  /** The user's key is to go, and the delete upstream takes effect. */
  predicate Revoked(db: Db, u: int, t: Trouble) {
    u in db.users && db.users[u].revokeKeyAtExpiry && !t.load && t.delete != Refused
  }

  /** The user's key row goes too. */
  predicate Dropped(db: Db, u: int, t: Trouble) {
    Revoked(db, u, t) && t.delete == Deleted && !t.drop
  }

  /** The user is moved and the deadline cleared; the store refuses a destination that is gone. */
  predicate Moved(db: Db, u: int, t: Trouble) {
    && u in db.users && !t.apply && Known(db, db.users[u].profileAfterExpiry)
    && (db.users[u].revokeKeyAtExpiry ==> !t.load && (HasKey(db, u) ==> Dropped(db, u, t)))
  }

  function Reverted(u: User): User {
    u.(profileId := u.profileAfterExpiry, profileExpiresAt := None, profileAfterExpiry := None, revokeKeyAtExpiry := false)
  }

  /** The state after those users were handled, each with its own trouble. */
  function Handled(s: State, who: set<int>, trouble: int -> Trouble): State {
    var db := s.db;
    State(
      db.(users := map u | u in db.users :: if u in who && Moved(db, u, trouble(u)) then Reverted(db.users[u]) else db.users[u],
          keys := map k | k in db.keys && !RowGoes(db, k, who, trouble) :: db.keys[k]),
      s.live - GoneRefs(db, who, trouble))
  }

  predicate RowGoes(db: Db, k: int, who: set<int>, trouble: int -> Trouble) {
    k in db.keys && db.keys[k].userId in who && Dropped(db, db.keys[k].userId, trouble(db.keys[k].userId))
  }

  predicate KeyGoes(db: Db, k: int, who: set<int>, trouble: int -> Trouble) {
    k in db.keys && db.keys[k].userId in who && Revoked(db, db.keys[k].userId, trouble(db.keys[k].userId))
  }

  function GoneRefs(db: Db, who: set<int>, trouble: int -> Trouble): (refs: set<Ref>)
    ensures forall ref :: ref in refs <==> exists k :: KeyGoes(db, k, who, trouble) && db.keys[k].ref == ref
  {
    set k | k in db.keys && KeyGoes(db, k, who, trouble) :: db.keys[k].ref
  }

  function RunAt(s: State, now: Time, trouble: int -> Trouble): State {
    Handled(s, DueUsers(s.db, now), trouble)
  }

  /** A run in which nothing fails. */
  function CleanRun(s: State, now: Time): State {
    RunAt(s, now, u => NoTrouble)
  }

  lemma HandledNobody(s: State, trouble: int -> Trouble)
    ensures Handled(s, {}, trouble) == s
  {
    var r := Handled(s, {}, trouble);
    assert r.db.users == s.db.users && r.db.keys == s.db.keys;
    assert GoneRefs(s.db, {}, trouble) == {};
  }

  /** Users are handled independently of each other. */
  lemma OneMore(s: State, who: set<int>, u: int, trouble: int -> Trouble)
    requires u !in who
    ensures Handled(Handled(s, who, trouble), {u}, trouble) == Handled(s, who + {u}, trouble)
  {
    var m := Handled(s, who, trouble);
    var r, w := Handled(m, {u}, trouble), Handled(s, who + {u}, trouble);
    KeyStays(s, who, u, trouble);
    assert r.db.users == w.db.users;
    forall k ensures k in r.db.keys <==> k in w.db.keys {
      assert Dropped(m.db, u, trouble(u)) <==> Dropped(s.db, u, trouble(u));
    }
    assert r.db.keys == w.db.keys;
    OneMoreRef(s, who, u, trouble);
    assert r.live == w.live;
  }

  lemma OneMoreRef(s: State, who: set<int>, u: int, trouble: int -> Trouble)
    requires u !in who
    ensures GoneRefs(s.db, who + {u}, trouble) ==
            GoneRefs(s.db, who, trouble) + GoneRefs(Handled(s, who, trouble).db, {u}, trouble)
  {
    var m := Handled(s, who, trouble);
    KeyStays(s, who, u, trouble);
    assert GoneRefs(m.db, {u}, trouble) == GoneRefs(s.db, {u}, trouble);
    assert GoneRefs(s.db, who + {u}, trouble) == GoneRefs(s.db, who, trouble) + GoneRefs(s.db, {u}, trouble);
  }

  /** Handling others leaves a user's row and key alone. */
  lemma KeyStays(s: State, who: set<int>, u: int, trouble: int -> Trouble)
    requires u !in who
    ensures var m := Handled(s, who, trouble);
            && (u in s.db.users <==> u in m.db.users) && (u in s.db.users ==> m.db.users[u] == s.db.users[u])
            && (forall k :: k in m.db.keys && m.db.keys[k].userId == u <==> k in s.db.keys && s.db.keys[k].userId == u)
            && (HasKey(m.db, u) <==> HasKey(s.db, u))
  {
    var m := Handled(s, who, trouble);
    forall k ensures k in m.db.keys && m.db.keys[k].userId == u <==> k in s.db.keys && s.db.keys[k].userId == u {
    }
  }

  /** Without a key to revoke, only the user's row changes. */
  lemma HandledWithoutKey(s: State, u: int, trouble: int -> Trouble)
    requires u in s.db.users
    requires !s.db.users[u].revokeKeyAtExpiry || !HasKey(s.db, u) || trouble(u).load
    ensures Handled(s, {u}, trouble) ==
            s.(db := s.db.(users := if Moved(s.db, u, trouble(u)) then s.db.users[u := Reverted(s.db.users[u])] else s.db.users))
  {
    var r := Handled(s, {u}, trouble);
    forall k ensures !KeyGoes(s.db, k, {u}, trouble) && !RowGoes(s.db, k, {u}, trouble) {
    }
    assert GoneRefs(s.db, {u}, trouble) == {};
    assert r.db.keys == s.db.keys;
  }

  lemma HandledWithKey(s: State, u: int, key: int, trouble: int -> Trouble)
    requires u in s.db.users && OneKeyEach(s.db) && key in s.db.keys && s.db.keys[key].userId == u
    ensures Handled(s, {u}, trouble) ==
            State(
              s.db.(users := if Moved(s.db, u, trouble(u)) then s.db.users[u := Reverted(s.db.users[u])] else s.db.users,
                    keys := if Dropped(s.db, u, trouble(u)) then s.db.keys - {key} else s.db.keys),
              if Revoked(s.db, u, trouble(u)) then s.live - {s.db.keys[key].ref} else s.live)
  {
    var r := Handled(s, {u}, trouble);
    forall k
      ensures KeyGoes(s.db, k, {u}, trouble) <==> k == key && Revoked(s.db, u, trouble(u))
      ensures RowGoes(s.db, k, {u}, trouble) <==> k == key && Dropped(s.db, u, trouble(u))
    {
    }
    assert GoneRefs(s.db, {u}, trouble) == if Revoked(s.db, u, trouble(u)) then {s.db.keys[key].ref} else {};
    assert r.db.keys == if Dropped(s.db, u, trouble(u)) then s.db.keys - {key} else s.db.keys;
  }

  // ----- Convergence -----

  /** Failures only delay: after a run with trouble, a later clean run ends where it would have without it. */
  lemma TroubleIsMadeUp(s: State, now: Time, trouble: int -> Trouble, later: Time)
    requires OneKeyEach(s.db) && now <= later
    ensures CleanRun(RunAt(s, now, trouble), later) == CleanRun(s, later)
  {
    var m := RunAt(s, now, trouble);
    var r, w := CleanRun(m, later), CleanRun(s, later);
    UsersConverge(s, now, trouble, later);
    KeysConverge(s, now, trouble, later);
    RefsConverge(s, now, trouble, later);
    assert r.db == w.db;
  }

  /** What a run can have made of one user by a later time. */
  lemma UserConverges(s: State, now: Time, trouble: int -> Trouble, later: Time, u: int)
    requires u in s.db.users && now <= later && OneKeyEach(s.db)
    ensures var m := RunAt(s, now, trouble);
            && u in m.db.users
            && (Due(s.db.users[u], now) && Moved(s.db, u, trouble(u)) ==>
                  Due(s.db.users[u], later) && m.db.users[u] == Reverted(s.db.users[u]) && Moved(s.db, u, NoTrouble))
            && (!(Due(s.db.users[u], now) && Moved(s.db, u, trouble(u))) ==> m.db.users[u] == s.db.users[u])
  {
  }

  lemma RowConverges(s: State, now: Time, trouble: int -> Trouble, later: Time, u: int)
    requires u in s.db.users && OneKeyEach(s.db) && now <= later
    ensures u in CleanRun(RunAt(s, now, trouble), later).db.users
    ensures CleanRun(RunAt(s, now, trouble), later).db.users[u] == CleanRun(s, later).db.users[u]
  {
    UserConverges(s, now, trouble, later, u);
  }

  lemma UsersConverge(s: State, now: Time, trouble: int -> Trouble, later: Time)
    requires OneKeyEach(s.db) && now <= later
    ensures CleanRun(RunAt(s, now, trouble), later).db.users == CleanRun(s, later).db.users
  {
    var r, w := CleanRun(RunAt(s, now, trouble), later), CleanRun(s, later);
    assert r.db.users.Keys == s.db.users.Keys == w.db.users.Keys;
    forall u | u in s.db.users ensures r.db.users[u] == w.db.users[u] {
      RowConverges(s, now, trouble, later, u);
    }
  }

  lemma KeysConverge(s: State, now: Time, trouble: int -> Trouble, later: Time)
    requires OneKeyEach(s.db) && now <= later
    ensures CleanRun(RunAt(s, now, trouble), later).db.keys == CleanRun(s, later).db.keys
  {
    var m := RunAt(s, now, trouble);
    var r, w := CleanRun(m, later), CleanRun(s, later);
    forall k ensures k in r.db.keys <==> k in w.db.keys {
      if k in s.db.keys && s.db.keys[k].userId in s.db.users {
        UserConverges(s, now, trouble, later, s.db.keys[k].userId);
      }
    }
  }

  lemma RefsConverge(s: State, now: Time, trouble: int -> Trouble, later: Time)
    requires OneKeyEach(s.db) && now <= later
    ensures CleanRun(RunAt(s, now, trouble), later).live == CleanRun(s, later).live
  {
    var m := RunAt(s, now, trouble);
    var clean := (u: int) => NoTrouble;
    var first, second, all := GoneRefs(s.db, DueUsers(s.db, now), trouble), GoneRefs(m.db, DueUsers(m.db, later), clean),
                              GoneRefs(s.db, DueUsers(s.db, later), clean);
    forall k | k in s.db.keys
      ensures KeyGoes(s.db, k, DueUsers(s.db, later), clean) <==>
              KeyGoes(s.db, k, DueUsers(s.db, now), trouble) || KeyGoes(m.db, k, DueUsers(m.db, later), clean)
    {
      if s.db.keys[k].userId in s.db.users {
        UserConverges(s, now, trouble, later, s.db.keys[k].userId);
      }
    }
    assert first + second == all;
  }

  /** A run: when it was, and what went wrong. */
  datatype Attempt = Attempt(now: Time, trouble: int -> Trouble)

  ghost function Runs(s: State, attempts: seq<Attempt>): State
    decreases |attempts|
  {
    if attempts == [] then s else Runs(RunAt(s, attempts[0].now, attempts[0].trouble), attempts[1..])
  }

  lemma OneKeyEachKept(s: State, who: set<int>, trouble: int -> Trouble)
    requires OneKeyEach(s.db)
    ensures OneKeyEach(Handled(s, who, trouble).db)
  {
  }

  /**
   * Any number of runs with arbitrary failures, then one in which nothing fails,
   * end in the same users, keys and live keys as that last run alone.
   */
  lemma {:induction false} RetriesConverge(s: State, attempts: seq<Attempt>, last: Time)
    requires OneKeyEach(s.db) && forall i :: 0 <= i < |attempts| ==> attempts[i].now <= last
    ensures CleanRun(Runs(s, attempts), last) == CleanRun(s, last)
    decreases |attempts|
  {
    if attempts != [] {
      var m := RunAt(s, attempts[0].now, attempts[0].trouble);
      OneKeyEachKept(s, DueUsers(s.db, attempts[0].now), attempts[0].trouble);
      RetriesConverge(m, attempts[1..], last);
      TroubleIsMadeUp(s, attempts[0].now, attempts[0].trouble, last);
    }
  }

  /** A user whose own steps succeed is reverted, whatever happened to the others. */
  lemma OthersFailuresDoNotMatter(s: State, now: Time, trouble: int -> Trouble, u: int)
    requires u in s.db.users && trouble(u) == NoTrouble
    ensures var r, w := RunAt(s, now, trouble), CleanRun(s, now);
            && r.db.users[u] == w.db.users[u]
            && (forall k :: k in s.db.keys && s.db.keys[k].userId == u ==> (k in r.db.keys <==> k in w.db.keys))
            && (forall k :: KeyGoes(s.db, k, DueUsers(s.db, now), u => NoTrouble) && s.db.keys[k].userId == u ==> s.db.keys[k].ref !in r.live)
  {
    forall k | KeyGoes(s.db, k, DueUsers(s.db, now), u => NoTrouble) && s.db.keys[k].userId == u
      ensures s.db.keys[k].ref !in RunAt(s, now, trouble).live
    {
      assert KeyGoes(s.db, k, DueUsers(s.db, now), trouble);
    }
  }

  /** Who is still due after a clean run: exactly those whose destination does not exist. */
  lemma StillDue(s: State, now: Time, u: int)
    requires OneKeyEach(s.db)
    ensures u in DueUsers(CleanRun(s, now).db, now) <==>
            u in DueUsers(s.db, now) && !Known(s.db, s.db.users[u].profileAfterExpiry)
  {
  }

  // ----- What becomes of a user -----

  /** The user's deadline has passed. */
  ghost predicate IsDue(u: User, now: Time) {
    u.profileExpiresAt.Some? && u.profileExpiresAt.value <= now
  }

  /** The user is on the profile they were to end on, or the default, with nothing left of the deadline. */
  ghost predicate IsMoved(was: User, u: User) {
    && u.profileId == was.profileAfterExpiry
    && u.profileExpiresAt == None && u.profileAfterExpiry == None && !u.revokeKeyAtExpiry
    && u.sub == was.sub && u.email == was.email && u.name == was.name
  }

  ghost predicate RowsStay(a: Db, b: Db, u: int) {
    forall k :: k in a.keys && a.keys[k].userId == u ==> k in b.keys && b.keys[k] == a.keys[k]
  }

  /** No row of the user is left, and no key of theirs is live. */
  ghost predicate KeysGone(s: State, r: State, u: int) {
    && (forall k :: k in r.db.keys ==> r.db.keys[k].userId != u)
    && (forall k :: k in s.db.keys && s.db.keys[k].userId == u ==> s.db.keys[k].ref !in r.live)
  }

  /** What a run makes of a user for whom nothing fails. */
  ghost predicate UserHandled(s: State, r: State, now: Time, u: int)
    requires u in s.db.users && u in r.db.users
  {
    var was := s.db.users[u];
    if !IsDue(was, now) then r.db.users[u] == was && RowsStay(s.db, r.db, u)
    else
      && (if was.profileAfterExpiry.Some? && was.profileAfterExpiry.value !in s.db.profiles then r.db.users[u] == was
          else IsMoved(was, r.db.users[u]))
      && (if was.revokeKeyAtExpiry then KeysGone(s, r, u) else RowsStay(s.db, r.db, u))
  }

  /** What a failure leaves for the next run: the user, and the row unless both the key and the row went. */
  ghost predicate UserLeft(s: State, r: State, u: int, t: Trouble)
    requires u in s.db.users && u in r.db.users
  {
    var was := s.db.users[u];
    && (t.apply ==> r.db.users[u] == was)
    && (was.revokeKeyAtExpiry && t.load ==> r.db.users[u] == was)
    && (was.revokeKeyAtExpiry && (exists k :: k in s.db.keys && s.db.keys[k].userId == u) && (t.delete != Deleted || t.drop) ==>
          r.db.users[u] == was)
    && (was.revokeKeyAtExpiry && (t.load || t.delete != Deleted || t.drop) ==> RowsStay(s.db, r.db, u))
  }

  /** A key goes only with a row of a user who is due and whose key is to be revoked, unless that failed. */
  ghost predicate OnlyRevokedGo(s: State, r: State, now: Time, trouble: int -> Trouble) {
    && r.live <= s.live
    && forall ref :: ref in s.live && ref !in r.live ==>
         exists k :: IsRevoked(s, k, now, trouble) && s.db.keys[k].ref == ref
  }

  ghost predicate IsRevoked(s: State, k: int, now: Time, trouble: int -> Trouble) {
    && k in s.db.keys && s.db.keys[k].userId in s.db.users
    && var u, t := s.db.users[s.db.keys[k].userId], trouble(s.db.keys[k].userId);
    IsDue(u, now) && u.revokeKeyAtExpiry && !t.load && t.delete != Refused
  }

  /** What a run comes to for each user, whatever fails for the others. */
  ghost predicate IsRunOf(s: State, r: State, now: Time, trouble: int -> Trouble) {
    && r.db.users.Keys == s.db.users.Keys
    && (forall u :: u in s.db.users && trouble(u) == Trouble(false, Deleted, false, false) ==> UserHandled(s, r, now, u))
    && (forall u :: u in s.db.users ==> UserLeft(s, r, u, trouble(u)))
    && OnlyRevokedGo(s, r, now, trouble)
    && r.db.profiles == s.db.profiles && r.db.quotas == s.db.quotas && r.db.keys.Keys <= s.db.keys.Keys
  }

  /** The user is due, keeps the key, and is moved. */
  ghost predicate IsSwitched(db: Db, u: int, now: Time, trouble: int -> Trouble) {
    && u in db.users && IsDue(db.users[u], now) && !db.users[u].revokeKeyAtExpiry && !trouble(u).apply
    && (db.users[u].profileAfterExpiry.Some? ==> db.users[u].profileAfterExpiry.value in db.profiles)
  }

  lemma CleanUser(s: State, now: Time, trouble: int -> Trouble, u: int)
    requires u in s.db.users && trouble(u) == Trouble(false, Deleted, false, false)
    ensures u in RunAt(s, now, trouble).db.users && UserHandled(s, RunAt(s, now, trouble), now, u)
  {
    var r := RunAt(s, now, trouble);
    if IsDue(s.db.users[u], now) && s.db.users[u].revokeKeyAtExpiry {
      forall k | k in s.db.keys && s.db.keys[k].userId == u ensures s.db.keys[k].ref !in r.live {
        assert KeyGoes(s.db, k, DueUsers(s.db, now), trouble);
      }
    }
  }

  lemma TroubledUser(s: State, now: Time, trouble: int -> Trouble, u: int)
    requires u in s.db.users
    ensures u in RunAt(s, now, trouble).db.users && UserLeft(s, RunAt(s, now, trouble), u, trouble(u))
  {
  }

  lemma RevokedGo(s: State, now: Time, trouble: int -> Trouble)
    ensures OnlyRevokedGo(s, RunAt(s, now, trouble), now, trouble)
  {
    forall ref | ref in s.live && ref !in RunAt(s, now, trouble).live
      ensures exists k :: IsRevoked(s, k, now, trouble) && s.db.keys[k].ref == ref
    {
      var k :| KeyGoes(s.db, k, DueUsers(s.db, now), trouble) && s.db.keys[k].ref == ref;
      assert IsRevoked(s, k, now, trouble);
    }
  }

  /**
   * A run moves every due user to the profile they were to end on, takes the keys
   * that were to go, and leaves everybody else as they are.
   */
  lemma RunReverts(s: State, now: Time, trouble: int -> Trouble)
    ensures IsRunOf(s, RunAt(s, now, trouble), now, trouble)
  {
    var r := RunAt(s, now, trouble);
    forall u | u in s.db.users && trouble(u) == Trouble(false, Deleted, false, false) ensures UserHandled(s, r, now, u) {
      CleanUser(s, now, trouble, u);
    }
    forall u | u in s.db.users ensures UserLeft(s, r, u, trouble(u)) {
      TroubledUser(s, now, trouble, u);
    }
    RevokedGo(s, now, trouble);
  }

  // ----- The job -----

  /** What the next user finds when those before were handled, and leaves. */
  lemma NextUser(s: State, done: set<int>, id: int, now: Time, trouble: int -> Trouble)
    requires OneKeyEach(s.db) && id !in done && id in s.db.users && Due(s.db.users[id], now)
    ensures var m := Handled(s, done, trouble);
            && OneKeyEach(m.db) && id in m.db.users && m.db.users[id] == s.db.users[id]
            && (!s.db.users[id].revokeKeyAtExpiry && Moved(m.db, id, trouble(id)) <==> IsSwitched(s.db, id, now, trouble))
            && Handled(m, {id}, trouble) == Handled(s, done + {id}, trouble)
  {
    KeyStays(s, done, id, trouble);
    OneKeyEachKept(s, done, trouble);
    OneMore(s, done, id, trouble);
  }

  lemma {:induction false} AllDue(db: Db, due: seq<int>, done: set<int>, now: Time)
    requires forall u :: u in done <==> u in due
    requires forall u :: u in due <==> u in db.users && Due(db.users[u], now)
    ensures done == DueUsers(db, now)
    ensures forall u :: u in done <==> u in db.users && Due(db.users[u], now)
  {
    assert forall u :: u in done <==> u in DueUsers(db, now);
  }

  class Runner {
    const store: Store
    var live: set<Ref>
    /** How often the limit sync was asked to run. */
    var kicks: nat

    constructor (store: Store, live: set<Ref>)
      ensures this.store == store && this.live == live && kicks == 0
    {
      this.store, this.live, this.kicks := store, live, 0;
    }

    function Here(): State
      reads this`live, store
    {
      State(store.Tables(), live)
    }

    /** Reverts every assignment whose deadline has passed; one user's failure does not stop the others. */
    method Run(now: Time, trouble: int -> Trouble)
      requires OneKeyEach(store.Tables())
      modifies this`live, this`kicks, store
      ensures Here() == RunAt(old(Here()), now, trouble) && IsRunOf(old(Here()), Here(), now, trouble)
      ensures kicks == old(kicks) +
                       if exists u :: IsSwitched(old(store.Tables()), u, now, trouble) then 1 else 0
    {
      ghost var before := Here();
      var switched := HandleDue(now, trouble);
      RunReverts(before, now, trouble);
      if switched {
        kicks := kicks + 1;
      }
    }

    /** Handles each due user in turn, and says whether one was switched. */
    method HandleDue(now: Time, trouble: int -> Trouble) returns (switched: bool)
      requires OneKeyEach(store.Tables())
      modifies this`live, store
      ensures Here() == RunAt(old(Here()), now, trouble)
      ensures switched <==> exists u :: IsSwitched(old(store.Tables()), u, now, trouble)
    {
      ghost var before := Here();
      var due := store.UsersWithPassedDeadline(now);
      var rows := store.users;
      switched := false;
      ghost var done: set<int> := {};
      HandledNobody(before, trouble);
      for i := 0 to |due|
        invariant rows == before.db.users
        invariant forall u :: u in done <==> u in due[..i]
        invariant Here() == Handled(before, done, trouble)
        invariant switched <==> exists u :: u in done && IsSwitched(before.db, u, now, trouble)
      {
        var id := due[i];
        NextUser(before, done, id, now, trouble);
        var moved := HandleUser(id, rows[id], trouble(id), trouble);
        switched := switched || moved;
        done := done + {id};
        assert due[..i + 1] == due[..i] + [id];
      }
      assert due[..|due|] == due;
      AllDue(before.db, due, done, now);
    }

    /** Revokes the user's key or switches the user, and says whether it switched. */
    method HandleUser(id: int, u: User, t: Trouble, ghost trouble: int -> Trouble) returns (switched: bool)
      requires OneKeyEach(store.Tables())
      requires id in store.users && store.users[id] == u && t == trouble(id)
      modifies this`live, store
      ensures Here() == Handled(old(Here()), {id}, trouble)
      ensures switched <==> !u.revokeKeyAtExpiry && Moved(old(store.Tables()), id, t)
    {
      if u.revokeKeyAtExpiry {
        var _ := Revoke(id, u, t, trouble);
        return false;
      }
      switched := SwitchProfile(id, u, t, trouble);
    }

    method SwitchProfile(id: int, u: User, t: Trouble, ghost trouble: int -> Trouble) returns (ok: bool)
      requires id in store.users && store.users[id] == u && !u.revokeKeyAtExpiry && t == trouble(id)
      modifies store
      ensures Here() == Handled(old(Here()), {id}, trouble)
      ensures ok <==> Moved(old(store.Tables()), id, t)
      ensures ok <==> !t.apply && (u.profileAfterExpiry.Some? ==> u.profileAfterExpiry.value in store.profiles)
      ensures store.users.Keys == old(store.users).Keys && store.keys == old(store.keys) && live == old(live)
      ensures if ok then IsMoved(u, store.users[id]) else store.users[id] == u
      ensures forall v :: v in store.users && v != id ==> store.users[v] == old(store.users)[v]
    {
      ghost var before := Here();
      if !t.apply {
        var r := store.ApplyProfileExpiry(id, u.profileAfterExpiry);
        ok := r.Ok?;
      } else {
        ok := false;
      }
      HandledWithoutKey(before, id, trouble);
    }

    /** Deletes the key instead: upstream first, so that a key that stays live keeps its row. */
    method Revoke(id: int, u: User, t: Trouble, ghost trouble: int -> Trouble) returns (ok: bool)
      requires OneKeyEach(store.Tables())
      requires id in store.users && store.users[id] == u && u.revokeKeyAtExpiry && t == trouble(id)
      modifies this`live, store
      ensures Here() == Handled(old(Here()), {id}, trouble)
      ensures ok <==> Moved(old(store.Tables()), id, t)
      ensures store.users.Keys == old(store.users).Keys
      ensures if ok then IsMoved(u, store.users[id]) && (forall k :: k in store.keys ==> store.keys[k].userId != id)
              else store.users[id] == u
      ensures forall v :: v in store.users && v != id ==> store.users[v] == old(store.users)[v]
      ensures forall k :: k in old(store.keys) && old(store.keys)[k].userId != id ==> k in store.keys && store.keys[k] == old(store.keys)[k]
      ensures forall k :: k in old(store.keys) && k !in store.keys ==> old(store.keys)[k].ref !in live
    {
      ghost var before := Here();
      if t.load {
        HandledWithoutKey(before, id, trouble);
        return false;
      }
      var key := store.GetAPIKeyByUser(id);
      if key.Some? {
        HandledWithKey(before, id, key.value, trouble);
        var ref := store.keys[key.value].ref;
        if t.delete != Refused {
          live := live - {ref};
        }
        if t.delete != Deleted || t.drop {
          return false;
        }
        store.DeleteAPIKey(key.value);
      } else {
        assert forall k :: k in before.db.keys ==> k !in KeysOfUser(before.db, id);
        HandledWithoutKey(before, id, trouble);
      }
      if t.apply {
        return false;
      }
      var r := store.ApplyProfileExpiry(id, u.profileAfterExpiry);
      return r.Ok?;
    }
  }
}
