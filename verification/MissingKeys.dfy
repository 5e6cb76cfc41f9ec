/**
 * The life of a key row the gateway stops knowing: marked by whoever notices
 * first, unmarked or removed by the sync alone. The audit log is its history.
 */
module MissingKeys {
  import opened Options
  import opened KeyProvider
  import opened Database
  import opened Profiles

  /** What CheckKey said: the gateway has the key, does not, or could not tell. */
  datatype Answer = Has | NotFound | Unknown

  /** Everything that happens to the tables, by whatever actor. */
  datatype Op =
    | Admin(op: AdminOp)
    | Issue(user: int, ref: Ref, expiresAt: Time, profile: int, rev: int, name: string, email: string)
    | Drop(key: int)
    | Extend(key: int, until: Time)
    | Notice(key: int, owner: int)
    | Check(key: int, owner: int, answer: Answer, asked: Time)
    | Synced(key: int, profile: int, rev: int, name: string, email: string)
    | Failed(key: int, reason: string)
    | Resync

  /** One marked key checked by the sync (checkOne): the cutoff is reckoned first, the entry written later. */
  function Checked(db: Db, key: int, owner: int, answer: Answer, grace: int, asked: Time, now: Time): Db {
    match answer
    case Has => ClearKeyMissing(db, key, owner, now)
    case NotFound => RemoveMissingKey(db, key, owner, asked - grace, now)
    case Unknown => db
  }

  ghost function Step(db: Db, op: Op, grace: int, now: Time): Db {
    match op
    case Admin(a) => Apply(db, a)
    case Issue(user, ref, expiresAt, profile, rev, name, email) =>
      var r := ReplaceAPIKey(db, NewKeyRow(user, ref, expiresAt, profile, rev, name, email));
      if r.Ok? then r.value else db
    case Drop(key) => DeleteAPIKey(db, key)
    case Extend(key, until) => UpdateAPIKeyExpiry(db, key, until)
    case Notice(key, owner) => MarkKeyMissing(db, key, owner, now)
    case Check(key, owner, answer, asked) => Checked(db, key, owner, answer, grace, asked, now)
    case Synced(key, profile, rev, name, email) => MarkLimitsSynced(db, key, profile, rev, name, email)
    case Failed(key, reason) => MarkLimitSyncFailed(db, key, reason, now)
    case Resync => MarkAllLimitsPending(db)
  }

  ghost function Steps(db: Db, ops: seq<(Op, Time)>, grace: int): Db
    decreases |ops|
  {
    if ops == [] then db else Steps(Step(db, ops[0].0, grace, ops[0].1), ops[1..], grace)
  }

  // ----- The history -----

  /** When the log last marked the key, if nothing has settled it since. */
  function Marker(log: seq<KeyAudit>, key: int): Option<Time> {
    if log == [] then None
    else
      var e := log[|log| - 1];
      if e.key != key then Marker(log[..|log| - 1], key)
      else if e.event == Missing then Some(e.at)
      else None
  }

  /** An entry that fits the log before it: marked once, and removed only past the grace period. */
  predicate Fits(before: seq<KeyAudit>, e: KeyAudit, grace: int) {
    var m := Marker(before, e.key);
    match e.event
    case Missing => m.None?
    case Found => m.Some?
    case Gone => m.Some? && m.value <= e.at - grace
  }

  ghost predicate WellFormed(log: seq<KeyAudit>, grace: int) {
    forall i :: 0 <= i < |log| ==> Fits(log[..i], log[i], grace)
  }

  ghost predicate Lifecycle(db: Db, grace: int) {
    && WellFormed(db.audit, grace)
    && (forall k :: k in db.keys ==> k <= db.lastKey && db.keys[k].missingSince == Marker(db.audit, k))
    && (forall i :: 0 <= i < |db.audit| ==> db.audit[i].key <= db.lastKey)
  }

  lemma Logged(log: seq<KeyAudit>, e: KeyAudit, grace: int)
    requires WellFormed(log, grace) && Fits(log, e, grace)
    ensures WellFormed(log + [e], grace)
    ensures forall k :: k != e.key ==> Marker(log + [e], k) == Marker(log, k)
    ensures Marker(log + [e], e.key) == if e.event == Missing then Some(e.at) else None
  {
    var r := log + [e];
    assert r[..|log|] == log;
    forall i | 0 <= i < |r| ensures Fits(r[..i], r[i], grace) {
      if i < |log| {
        assert r[..i] == log[..i];
      }
    }
  }

  lemma {:induction false} UnknownKeyHasNoMarker(log: seq<KeyAudit>, key: int)
    requires forall i :: 0 <= i < |log| ==> log[i].key < key
    ensures Marker(log, key) == None
  {
    if log != [] {
      UnknownKeyHasNoMarker(log[..|log| - 1], key);
    }
  }

  lemma AdminOpKeepsKeys(db: Db, op: AdminOp)
    ensures var r := Apply(db, op); r.keys == db.keys && r.audit == db.audit && r.lastKey == db.lastKey
  {
  }

  lemma NoticeKept(db: Db, key: int, owner: int, grace: int, now: Time)
    requires Lifecycle(db, grace)
    ensures Lifecycle(MarkKeyMissing(db, key, owner, now), grace)
  {
    if key in db.keys && db.keys[key].missingSince.None? {
      Logged(db.audit, KeyAudit(Missing, key, owner, now), grace);
    }
  }

  lemma CheckKept(db: Db, key: int, owner: int, answer: Answer, grace: int, asked: Time, now: Time)
    requires Lifecycle(db, grace) && asked <= now
    ensures Lifecycle(Checked(db, key, owner, answer, grace, asked, now), grace)
  {
    if key in db.keys && db.keys[key].missingSince.Some? {
      match answer
      case Has => Logged(db.audit, KeyAudit(Found, key, owner, now), grace);
      case NotFound =>
        if MissingBefore(db, key, asked - grace) {
          Logged(db.audit, KeyAudit(Gone, key, owner, now), grace);
        }
      case Unknown =>
    }
  }

  /** The clock did not go back between the two readings of a step. */
  predicate InOrder(op: Op, now: Time) {
    op.Check? ==> op.asked <= now
  }

  /** Every step of every actor keeps the rows and the history in step. */
  lemma LifecycleKept(db: Db, op: Op, grace: int, now: Time)
    requires Lifecycle(db, grace) && InOrder(op, now)
    ensures Lifecycle(Step(db, op, grace, now), grace)
  {
    match op
    case Admin(a) => AdminOpKeepsKeys(db, a);
    case Issue(_, _, _, _, _, _, _) => UnknownKeyHasNoMarker(db.audit, db.lastKey + 1);
    case Notice(key, owner) => NoticeKept(db, key, owner, grace, now);
    case Check(key, owner, answer, asked) => CheckKept(db, key, owner, answer, grace, asked, now);
    case _ =>
  }

  lemma {:induction false} LifecycleOfRuns(db: Db, ops: seq<(Op, Time)>, grace: int)
    requires Lifecycle(db, grace) && forall i :: 0 <= i < |ops| ==> InOrder(ops[i].0, ops[i].1)
    ensures Lifecycle(Steps(db, ops, grace), grace)
    decreases |ops|
  {
    if ops != [] {
      LifecycleKept(db, ops[0].0, grace, ops[0].1);
      LifecycleOfRuns(Step(db, ops[0].0, grace, ops[0].1), ops[1..], grace);
    }
  }

  /** Entry j marked the key and nothing in the log has touched it since. */
  ghost predicate LastMark(log: seq<KeyAudit>, key: int, at: Time, j: nat) {
    && j < |log|
    && log[j].event == Missing && log[j].key == key && log[j].at == at
    && forall i :: j < i < |log| ==> log[i].key != key
  }

  lemma {:induction false} MarkerIsLastMark(log: seq<KeyAudit>, key: int)
    requires Marker(log, key).Some?
    ensures exists j: nat :: LastMark(log, key, Marker(log, key).value, j)
  {
    var n := |log| - 1;
    if log[n].key != key {
      MarkerIsLastMark(log[..n], key);
      var j: nat :| LastMark(log[..n], key, Marker(log, key).value, j);
      assert LastMark(log, key, Marker(log, key).value, j);
    } else {
      assert LastMark(log, key, log[n].at, n);
    }
  }

  /**
   * In every reachable history, a key that was removed at T was first marked
   * at some t0 <= T - grace, and nothing unmarked it or marked it again in
   * between.
   */
  lemma RemovalWaitedForGrace(db: Db, ops: seq<(Op, Time)>, grace: int, i: nat)
    requires Lifecycle(db, grace) && forall i :: 0 <= i < |ops| ==> InOrder(ops[i].0, ops[i].1)
    requires var log := Steps(db, ops, grace).audit; i < |log| && log[i].event == Gone
    ensures var log := Steps(db, ops, grace).audit;
            exists j: nat, t0: Time :: j < i && t0 <= log[i].at - grace && LastMark(log[..i], log[i].key, t0, j)
  {
    LifecycleOfRuns(db, ops, grace);
    var log := Steps(db, ops, grace).audit;
    assert Fits(log[..i], log[i], grace);
    MarkerIsLastMark(log[..i], log[i].key);
  }

  function CountOf(log: seq<KeyAudit>, key: int, event: KeyEvent): nat {
    if log == [] then 0
    else
      var e := log[|log| - 1];
      CountOf(log[..|log| - 1], key, event) + if e.key == key && e.event == event then 1 else 0
  }

  /** Marks outnumber what settled them by one exactly while the key is marked, and never otherwise. */
  lemma {:induction false} MarksBalance(log: seq<KeyAudit>, key: int, grace: int)
    requires WellFormed(log, grace)
    ensures CountOf(log, key, Missing) ==
            CountOf(log, key, Found) + CountOf(log, key, Gone) + (if Marker(log, key).Some? then 1 else 0)
  {
    if log != [] {
      var n := |log| - 1;
      assert Fits(log[..n], log[n], grace);
      forall i | 0 <= i < n ensures Fits(log[..n][..i], log[..n][i], grace) {
        assert log[..n][..i] == log[..i];
      }
      MarksBalance(log[..n], key, grace);
    }
  }

  /** What became of the row of key between two states. */
  function Transition(db: Db, r: Db, key: int): Option<KeyEvent>
    requires key in db.keys
  {
    if key !in r.keys then Some(Gone)
    else if db.keys[key].missingSince.None? && r.keys[key].missingSince.Some? then Some(Missing)
    else if db.keys[key].missingSince.Some? && r.keys[key].missingSince.None? then Some(Found)
    else None
  }

  /** What a step from db to r that makes a transition of the key's row must be, and write. */
  ghost predicate OneEntry(db: Db, r: Db, op: Op, grace: int, now: Time, key: int)
    requires key in db.keys
  {
    match Transition(db, r, key)
    case Some(Missing) =>
      && op.Notice? && op.key == key && r.audit == db.audit + [KeyAudit(Missing, key, op.owner, now)]
      && key in r.keys && r.keys[key].missingSince == Some(now)
    case Some(Found) =>
      && op.Check? && op.key == key && op.answer == Has && r.audit == db.audit + [KeyAudit(Found, key, op.owner, now)]
      && key in r.keys && r.keys[key].syncedRev == None
    case Some(Gone) =>
      if op.Check? then
        && op.key == key && op.answer == NotFound && r.audit == db.audit + [KeyAudit(Gone, key, op.owner, now)]
        && db.keys[key].missingSince.Some? && db.keys[key].missingSince.value <= op.asked - grace
      else (op.Drop? || op.Issue?) && r.audit == db.audit
    case None =>
      && key in r.keys && r.keys[key].missingSince == db.keys[key].missingSince
      && (r.audit == db.audit || (r.audit != [] && r.audit[|r.audit| - 1].key != key && r.audit[..|r.audit| - 1] == db.audit))
  }

  /**
   * Each transition writes one entry, and nothing else does. Only the sync
   * unmarks or writes a removal, only after the gateway answered for the key,
   * a removal only past the grace period, and an existing timestamp never moves.
   */
  lemma OneEntryPerTransition(db: Db, op: Op, grace: int, now: Time, key: int)
    requires key in db.keys && key <= db.lastKey
    ensures OneEntry(db, Step(db, op, grace, now), op, grace, now, key)
  {
    match op
    case Admin(a) => AdminOpKeepsKeys(db, a);
    case Notice(k, owner) => NoticeEntry(db, op, grace, now, key);
    case Check(k, owner, answer, asked) => CheckEntry(db, op, grace, now, key);
    case _ =>
  }

  lemma NoticeEntry(db: Db, op: Op, grace: int, now: Time, key: int)
    requires key in db.keys && op.Notice?
    ensures OneEntry(db, Step(db, op, grace, now), op, grace, now, key)
  {
  }

  lemma CheckEntry(db: Db, op: Op, grace: int, now: Time, key: int)
    requires key in db.keys && op.Check?
    ensures OneEntry(db, Step(db, op, grace, now), op, grace, now, key)
  {
  }

  /** An inconclusive check, or a not-found within the grace period, changes nothing at all. */
  lemma InconclusiveCheckChangesNothing(db: Db, key: int, owner: int, answer: Answer, grace: int, asked: Time, now: Time)
    requires answer == Unknown || (answer == NotFound && key in db.keys && db.keys[key].missingSince.Some?
                                   && db.keys[key].missingSince.value > asked - grace)
    ensures Step(db, Check(key, owner, answer, asked), grace, now) == db
  {
  }
}
