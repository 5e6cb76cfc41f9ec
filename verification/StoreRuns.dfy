/**
 * The operations that Profiles and MissingKeys reason about are calls of the
 * store: what they say of every run holds of whatever is called, in any order.
 */
module StoreRuns {
  import opened Options
  import opened KeyProvider
  import opened Database
  import opened Stores
  import opened Profiles
  import opened MissingKeys
  import Freshness
  import KeyIssue

  /** Accounts are numbered up to the last id given out. */
  predicate UsersNumbered(db: Db) {
    forall u :: u in db.users ==> u <= db.lastUser
  }

  /** done is what was asked for; a login finds its account by subject. */
  predicate Carries(op: AdminOp, done: AdminOp) {
    if op.SignIn? then done.SignIn? && done == op.(user := done.user) else done == op
  }

  /** One administrative operation, by a call of the store. */
  method Administer(s: Store, op: AdminOp) returns (done: AdminOp)
    requires UsersNumbered(s.Tables())
    modifies s
    ensures s.Tables() == Apply(old(s.Tables()), done) && Carries(op, done) && UsersNumbered(s.Tables())
    ensures op.SignIn? ==> done.user in s.users && s.users[done.user].sub == op.sub
    ensures Integrity(old(s.Tables())) ==> (Integrity(s.Tables()) <==> DestinationExists(old(s.Tables()), done))
  {
    ghost var before := s.Tables();
    done := op;
    match op {
      case Create(p, quotas) =>
        var _ := s.CreateProfile(p, quotas);
      case Update(id, p, quotas) =>
        var _ := s.UpdateProfile(id, p, quotas);
      case Delete(id) =>
        var _ := s.DeleteProfile(id);
      case Assign(user, profile, expiresAt, after, revokeKey) =>
        var _ := s.SetUserProfileUntil(user, profile, expiresAt, after, revokeKey);
      case Revert(user) =>
        var _ := s.ApplyProfileExpiry(user, if user in s.users then s.users[user].profileAfterExpiry else None);
      case SignIn(user, sub, email, name) =>
        var id := s.GetOrCreateUser(sub, email, name);
        done := SignIn(id, sub, email, name);
    }
    StaysNumbered(before, done);
    if Integrity(before) {
      IntegrityKept(before, done);
    }
  }

  lemma StaysNumbered(db: Db, op: AdminOp)
    requires UsersNumbered(db)
    ensures UsersNumbered(Apply(db, op))
  {
  }

  predicate CarriesOp(op: Op, done: Op) {
    if op.Admin? then done.Admin? && Carries(op.op, done.op) else done == op
  }

  /** Anything that happens to the tables, by a call of the store. */
  method Perform(s: Store, op: Op, grace: int, now: Time) returns (done: Op)
    requires UsersNumbered(s.Tables())
    modifies s
    ensures s.Tables() == Step(old(s.Tables()), done, grace, now) && CarriesOp(op, done) && UsersNumbered(s.Tables())
    ensures Lifecycle(old(s.Tables()), grace) && InOrder(op, now) ==> Lifecycle(s.Tables(), grace)
  {
    ghost var before := s.Tables();
    done := op;
    match op {
      case Admin(a) =>
        var b := Administer(s, a);
        done := Op.Admin(b);
      case Check(key, owner, answer, asked) =>
        Settle(s, key, owner, answer, grace, asked, now);
      case _ =>
        Write(s, op, grace, now);
    }
    if Lifecycle(before, grace) && InOrder(op, now) {
      LifecycleKept(before, done, grace, now);
    }
  }

  /** What the sync makes of an answer for a marked key. */
  method Settle(s: Store, key: int, owner: int, answer: Answer, grace: int, asked: Time, now: Time)
    modifies s`keys, s`audit
    ensures s.Tables() == Checked(old(s.Tables()), key, owner, answer, grace, asked, now)
  {
    match answer {
      case Has =>
        var _ := s.ClearKeyMissing(key, owner, now);
      case NotFound =>
        var _ := s.RemoveMissingKey(key, owner, asked - grace, now);
      case Unknown =>
    }
  }

  /** The writes of single rows. */
  method Write(s: Store, op: Op, grace: int, now: Time)
    requires !op.Admin? && !op.Check?
    modifies s
    ensures s.Tables() == Step(old(s.Tables()), op, grace, now) && s.users == old(s.users) && s.lastUser == old(s.lastUser)
  {
    match op {
      case Issue(user, ref, expiresAt, profile, rev, name, email) =>
        var _ := s.ReplaceAPIKey(NewKeyRow(user, ref, expiresAt, profile, rev, name, email));
      case Drop(key) =>
        s.DeleteAPIKey(key);
      case Extend(key, until) =>
        s.UpdateAPIKeyExpiry(key, until);
      case Notice(key, owner) =>
        var _ := s.MarkKeyMissing(key, owner, now);
      case Synced(key, profile, rev, name, email) =>
        s.MarkLimitsSynced(key, profile, rev, name, email);
      case Failed(key, reason) =>
        s.MarkLimitSyncFailed(key, reason, now);
      case Resync =>
        var _ := s.MarkAllLimitsPending();
    }
  }

  lemma {:induction false} StepsLast(db: Db, ops: seq<(Op, Time)>, last: (Op, Time), grace: int)
    ensures Steps(db, ops + [last], grace) == Step(Steps(db, ops, grace), last.0, grace, last.1)
    decreases |ops|
  {
    if ops == [] {
      assert [last][1..] == [] && ops + [last] == [last];
    } else {
      assert (ops + [last])[1..] == ops[1..] + [last];
      StepsLast(Step(db, ops[0].0, grace, ops[0].1), ops[1..], last, grace);
    }
  }

  /**
   * Whatever is called on the store, in whatever order: the tables and the audit
   * log stay in step, so a key that was removed waited out the grace period.
   */
  method PerformAll(s: Store, ops: seq<(Op, Time)>, grace: int) returns (ghost done: seq<(Op, Time)>)
    requires UsersNumbered(s.Tables()) && Lifecycle(s.Tables(), grace)
    requires forall i :: 0 <= i < |ops| ==> InOrder(ops[i].0, ops[i].1)
    modifies s
    ensures s.Tables() == Steps(old(s.Tables()), done, grace) && Lifecycle(s.Tables(), grace)
    ensures |done| == |ops| && forall i :: 0 <= i < |ops| ==> CarriesOp(ops[i].0, done[i].0) && done[i].1 == ops[i].1
    ensures forall i :: 0 <= i < |s.audit| && s.audit[i].event == Gone ==>
              exists j: nat, t0: Time :: j < i && t0 <= s.audit[i].at - grace && LastMark(s.audit[..i], s.audit[i].key, t0, j)
  {
    ghost var before := s.Tables();
    done := [];
    for i := 0 to |ops|
      invariant UsersNumbered(s.Tables()) && Lifecycle(s.Tables(), grace) && s.Tables() == Steps(before, done, grace)
      invariant |done| == i && forall j :: 0 <= j < i ==> CarriesOp(ops[j].0, done[j].0) && done[j].1 == ops[j].1
    {
      var op := Perform(s, ops[i].0, grace, ops[i].1);
      StepsLast(before, done, (op, ops[i].1), grace);
      done := done + [(op, ops[i].1)];
    }
    RemovalsWaited(before, done, grace);
  }

  lemma RemovalsWaited(db: Db, ops: seq<(Op, Time)>, grace: int)
    requires Lifecycle(db, grace) && forall i :: 0 <= i < |ops| ==> InOrder(ops[i].0, ops[i].1)
    ensures var log := Steps(db, ops, grace).audit;
            forall i :: 0 <= i < |log| && log[i].event == Gone ==>
              exists j: nat, t0: Time :: j < i && t0 <= log[i].at - grace && LastMark(log[..i], log[i].key, t0, j)
  {
    var log := Steps(db, ops, grace).audit;
    forall i | 0 <= i < |log| && log[i].event == Gone
      ensures exists j: nat, t0: Time :: j < i && t0 <= log[i].at - grace && LastMark(log[..i], log[i].key, t0, j)
    {
      RemovalWaitedForGrace(db, ops, grace, i);
    }
  }

  // ----- The steps of the other protocols -----

  /** The call of the store that a step of Freshness is, if it writes the tables, and when it reads the clock. */
  ghost function FreshCall(w: Freshness.World, e: Freshness.Event, now: Time): Option<(Op, Time)>
    requires Freshness.Enabled(w, e)
  {
    match e
    case Admin(op) => Some((Op.Admin(op), now))
    case Resync => Some((Op.Resync, now))
    case Extend(key, until) => Some((Op.Extend(key, until), now))
    case DropRow(key) => Some((Op.Drop(key), now))
    case Notice(key, user, at) => Some((Op.Notice(key, user), at))
    case Check(key, user, answer, _, asked, at) => Some((Op.Check(key, user, answer, asked), at))
    case Record(key) =>
      var k := w.workers[key];
      Some((Op.Synced(key, k.push.reading.profile, k.push.reading.rev, k.name, k.email), now))
    case Fail(key, reason, at) => Some((Op.Failed(key, reason), at))
    case StoreKey(request, expiresAt, name, email) =>
      var q := w.requests[request];
      Some((Op.Issue(q.user, q.ref, expiresAt, q.reading.profile, q.reading.rev, name, email), now))
    case _ => None
  }

  /** A step writes the tables by that one call, or not at all. */
  lemma FreshnessWritesByCalls(w: Freshness.World, e: Freshness.Event, grace: int, now: Time)
    requires Freshness.Enabled(w, e) && (e.Check? ==> e.grace == grace)
    ensures Freshness.Next(w, e).db ==
            match FreshCall(w, e, now)
            case None => w.db
            case Some(c) => Step(w.db, c.0, grace, c.1)
  {
  }

  /** The call that a step of KeyIssue is. A row is stored as the request made it, so StoreKey is not among them. */
  ghost function IssueCall(w: KeyIssue.World, e: KeyIssue.Event, grace: int, now: Time): Option<(Op, Time)>
    requires KeyIssue.Enabled(w, e) && !e.StoreKey?
  {
    match e
    case Admin(op) => Some((Op.Admin(op), now))
    case ExtendKey(h, until) => Some((Op.Extend(w.handlers[h].held.key, until), now))
    case DropRow(h, stored) => if stored then Some((Op.Drop(w.handlers[h].held.key), now)) else None
    case MarkMissing(h, at) => Some((Op.Notice(w.handlers[h].held.key, w.handlers[h].user), at))
    case Unmark(h, at) => Some((Op.Check(w.handlers[h].held.key, w.handlers[h].user, Has, at), at))
    case RemoveMissing(h, cutoff, at) =>
      Some((Op.Check(w.handlers[h].held.key, w.handlers[h].user, NotFound, cutoff + grace), at))
    case _ => None
  }

  lemma IssueWritesByCalls(w: KeyIssue.World, e: KeyIssue.Event, grace: int, now: Time)
    requires KeyIssue.Enabled(w, e) && !e.StoreKey?
    ensures KeyIssue.NextOf(w, e).db ==
            match IssueCall(w, e, grace, now)
            case None => w.db
            case Some(c) => Step(w.db, c.0, grace, c.1)
  {
  }

  /** Storing a key, too, is a call of the store. */
  lemma StoringIsACall(w: KeyIssue.World, e: KeyIssue.Event, profile: int, rev: int, name: string, email: string, grace: int, now: Time)
    requires KeyIssue.Enabled(w, e) && e.StoreKey?
    requires e.row == NewKeyRow(e.row.userId, e.row.ref, e.row.expiresAt, profile, rev, name, email)
    ensures KeyIssue.NextOf(w, e).db ==
            Step(w.db, Issue(e.row.userId, e.row.ref, e.row.expiresAt, profile, rev, name, email), grace, now)
  {
  }
}
