/**
 * The pushes of a batch overlap: each reads its profile and writes its row while
 * others do (syncBatch in internal/limitsync/limitsync.go). Whatever the order,
 * the batch settles as if they ran one after the other.
 */
module SyncOverlap {
  import opened Options
  import opened Database
  import opened Stores
  import opened MissingKeys
  import opened SyncOutcomes

  /** A worker's key, the answer that decides its push once the profile is read, and the reason if it fails. */
  datatype Worker = Worker(target: SyncTarget, answer: Answer, reason: string)

  /** loaded and stored say whether the statements of the beat worked. */
  datatype Beat = Read(worker: nat, loaded: bool) | Write(worker: nat, now: Time, stored: bool)

  /** The tables, the revision each worker has read if it could, and when those that are done wrote, if they could. */
  datatype World = World(db: Db, read: map<nat, Option<int>>, done: map<nat, Option<Time>>)

  /** The revision of the profile a target goes by. */
  function RevOf(db: Db, t: SyncTarget): Option<int> {
    if t.profileId.Some? && t.profileId.value in db.profiles then Some(db.profiles[t.profileId.value].limitsRev) else None
  }

  function Start(db: Db): World {
    World(db, map[], map[])
  }

  predicate Enabled(batch: seq<Worker>, w: World, b: Beat) {
    match b
    case Read(i, _) => i < |batch| && i !in w.read
    case Write(i, _, _) => i < |batch| && i in w.read && i !in w.done
  }

  /** What becomes of a key: nothing is pushed without a profile, and then the gateway decides. */
  function OutcomeOf(x: Worker, rev: Option<int>): Outcome {
    if rev.None? then PushFailed else Verdict(x.answer)
  }

  /** The statement a worker ends with, on the tables as they are by then. */
  function Written(db: Db, x: Worker, rev: Option<int>, now: Time): Db {
    var t := x.target;
    match OutcomeOf(x, rev)
    case PushSynced => if t.profileId.Some? then MarkLimitsSynced(db, t.key, t.profileId.value, rev.value, t.name, t.email) else db
    case PushMarked => MarkKeyMissing(db, t.key, t.userId, now)
    case PushFailed => MarkLimitSyncFailed(db, t.key, x.reason, now)
  }

  function Next(batch: seq<Worker>, w: World, b: Beat): World
    requires Enabled(batch, w, b)
  {
    match b
    case Read(i, loaded) => w.(read := w.read[i := if loaded then RevOf(w.db, batch[i].target) else None])
    case Write(i, now, stored) =>
      if stored then w.(db := Written(w.db, batch[i], w.read[i], now), done := w.done[i := Some(now)])
      else w.(done := w.done[i := None])
  }

  ghost predicate IsRun(batch: seq<Worker>, w: World, beats: seq<Beat>)
    decreases |beats|
  {
    beats == [] || (Enabled(batch, w, beats[0]) && IsRun(batch, Next(batch, w, beats[0]), beats[1..]))
  }

  ghost function After(batch: seq<Worker>, w: World, beats: seq<Beat>): World
    requires IsRun(batch, w, beats)
    decreases |beats|
  {
    if beats == [] then w else After(batch, Next(batch, w, beats[0]), beats[1..])
  }

  // ----- The invariant -----

  /** The workers are due in the tables they start from, one for each key. */
  ghost predicate AreDue(a: Db, batch: seq<Worker>) {
    && (forall i :: 0 <= i < |batch| ==> IsTarget(a, batch[i].target))
    && (forall i, j :: 0 <= i < j < |batch| ==> batch[i].target.key != batch[j].target.key)
  }

  /** A worker's key as its push alone would leave it. */
  function RowAfter(a: Db, x: Worker, rev: Option<int>, now: Time): KeyRow
    requires x.target.key in a.keys
  {
    Written(a, x, rev, now).keys[x.target.key]
  }

  /** Some worker has written the row of that key. */
  predicate IsDone(batch: seq<Worker>, done: map<nat, Option<Time>>, k: int) {
    exists i :: i in done && i < |batch| && done[i].Some? && batch[i].target.key == k
  }

  /** The key of a worker that has written is as its push alone would have left it. */
  ghost predicate HasWritten(a: Db, batch: seq<Worker>, w: World, i: nat)
    requires i in w.done && i in w.read
  {
    && i < |batch|
    && (w.done[i].Some? ==>
          var key := batch[i].target.key;
          key in a.keys && key in w.db.keys && w.db.keys[key] == RowAfter(a, batch[i], w.read[i], w.done[i].value))
  }

  /** Every key is as its own push left it, or as it was; nothing a push reads has changed. */
  ghost predicate Inv(a: Db, batch: seq<Worker>, w: World) {
    && w.db.profiles == a.profiles && w.db.quotas == a.quotas && w.db.users == a.users
    && w.db.lastProfile == a.lastProfile && w.db.lastUser == a.lastUser && w.db.lastKey == a.lastKey
    && w.db.keys.Keys == a.keys.Keys
    && (forall i :: i in w.done ==> i in w.read)
    && (forall i :: i in w.read ==> i < |batch| && (w.read[i].Some? ==> w.read[i] == RevOf(a, batch[i].target)))
    && (forall i :: i in w.done ==> HasWritten(a, batch, w, i))
    && (forall k :: k in a.keys && !IsDone(batch, w.done, k) ==> w.db.keys[k] == a.keys[k])
  }

  predicate OnlyRow(a: Db, b: Db, key: int) {
    && b.profiles == a.profiles && b.quotas == a.quotas && b.users == a.users
    && b.lastProfile == a.lastProfile && b.lastUser == a.lastUser && b.lastKey == a.lastKey
    && b.keys.Keys == a.keys.Keys
    && forall k :: k in a.keys && k != key ==> b.keys[k] == a.keys[k]
  }

  lemma RowSet(db: Db, key: int, row: KeyRow)
    ensures OnlyRow(db, SetRow(db, key, row), key)
  {
  }

  /** A statement changes no row but its key's. */
  lemma WriteIsLocal(db: Db, x: Worker, rev: Option<int>, now: Time)
    ensures OnlyRow(db, Written(db, x, rev, now), x.target.key)
  {
    var t := x.target;
    if t.key in db.keys {
      var row := db.keys[t.key];
      match OutcomeOf(x, rev)
      case PushSynced =>
        if t.profileId.Some? {
          RowSet(db, t.key, row.(syncedProfile := t.profileId, syncedRev := rev, syncedName := Some(t.name),
                                 syncedEmail := Some(t.email), syncError := "", syncFailedAt := None));
        }
      case PushMarked => RowSet(db, t.key, row.(missingSince := Some(now)));
      case PushFailed => RowSet(db, t.key, row.(syncError := x.reason, syncFailedAt := Some(now)));
    }
  }

  /** The row a statement writes depends on nothing but the row it finds. */
  lemma SameRowWritten(a: Db, b: Db, x: Worker, rev: Option<int>, now: Time)
    requires x.target.key in a.keys && x.target.key in b.keys && a.keys[x.target.key] == b.keys[x.target.key]
    ensures Written(a, x, rev, now).keys[x.target.key] == Written(b, x, rev, now).keys[x.target.key]
  {
    match OutcomeOf(x, rev)
    case PushSynced =>
    case PushMarked =>
    case PushFailed =>
  }

  lemma DoneOnce(batch: seq<Worker>, done: map<nat, Option<Time>>, i: nat, at: Option<Time>, k: int)
    requires i < |batch| && i !in done
    ensures IsDone(batch, done[i := at], k) <==> IsDone(batch, done, k) || (at.Some? && batch[i].target.key == k)
  {
    var more := done[i := at];
    if IsDone(batch, done, k) {
      var j :| j in done && j < |batch| && done[j].Some? && batch[j].target.key == k;
      assert j in more && more[j] == done[j];
    } else if at.Some? && batch[i].target.key == k {
      assert i in more;
    }
  }

  /** The key a worker writes is as it was: only that worker writes it. */
  lemma NotYetWritten(a: Db, batch: seq<Worker>, w: World, i: nat)
    requires AreDue(a, batch) && Inv(a, batch, w) && i < |batch| && i !in w.done
    ensures batch[i].target.key in a.keys && w.db.keys[batch[i].target.key] == a.keys[batch[i].target.key]
  {
    assert IsTarget(a, batch[i].target);
    assert !IsDone(batch, w.done, batch[i].target.key);
  }

  lemma WrittenRow(a: Db, batch: seq<Worker>, w: World, b: Beat, i: nat)
    requires AreDue(a, batch) && Inv(a, batch, w) && Enabled(batch, w, b) && b.Write? && b.stored && i in Next(batch, w, b).done
    ensures HasWritten(a, batch, Next(batch, w, b), i)
  {
    WriteIsLocal(w.db, batch[b.worker], w.read[b.worker], b.now);
    NotYetWritten(a, batch, w, b.worker);
    if i == b.worker {
      SameRowWritten(a, w.db, batch[i], w.read[i], b.now);
    } else {
      assert HasWritten(a, batch, w, i);
      assert batch[i].target.key != batch[b.worker].target.key;
    }
  }

  lemma WriteKeeps(a: Db, batch: seq<Worker>, w: World, b: Beat)
    requires AreDue(a, batch) && Inv(a, batch, w) && Enabled(batch, w, b) && b.Write? && b.stored
    ensures Inv(a, batch, Next(batch, w, b))
  {
    var v := Next(batch, w, b);
    WriteIsLocal(w.db, batch[b.worker], w.read[b.worker], b.now);
    forall i | i in v.done ensures HasWritten(a, batch, v, i) {
      WrittenRow(a, batch, w, b, i);
    }
    forall k | k in a.keys && !IsDone(batch, v.done, k) ensures v.db.keys[k] == a.keys[k] {
      DoneOnce(batch, w.done, b.worker, Some(b.now), k);
    }
  }

  lemma FailedWriteKeeps(a: Db, batch: seq<Worker>, w: World, b: Beat)
    requires Inv(a, batch, w) && Enabled(batch, w, b) && b.Write? && !b.stored
    ensures Inv(a, batch, Next(batch, w, b))
  {
    var v := Next(batch, w, b);
    forall i | i in v.done ensures HasWritten(a, batch, v, i) {
      assert i in w.done ==> HasWritten(a, batch, w, i);
    }
    forall k | k in a.keys && !IsDone(batch, v.done, k) ensures v.db.keys[k] == a.keys[k] {
      DoneOnce(batch, w.done, b.worker, None, k);
    }
  }

  lemma ReadKeeps(a: Db, batch: seq<Worker>, w: World, b: Beat)
    requires Inv(a, batch, w) && Enabled(batch, w, b) && b.Read?
    ensures Inv(a, batch, Next(batch, w, b))
  {
    forall i | i in w.done ensures HasWritten(a, batch, Next(batch, w, b), i) {
      assert HasWritten(a, batch, w, i);
    }
  }

  lemma BeatKeeps(a: Db, batch: seq<Worker>, w: World, b: Beat)
    requires AreDue(a, batch) && Inv(a, batch, w) && Enabled(batch, w, b)
    ensures Inv(a, batch, Next(batch, w, b))
  {
    if b.Read? {
      ReadKeeps(a, batch, w, b);
    } else if b.stored {
      WriteKeeps(a, batch, w, b);
    } else {
      FailedWriteKeeps(a, batch, w, b);
    }
  }

  lemma {:induction false} RunKeeps(a: Db, batch: seq<Worker>, w: World, beats: seq<Beat>)
    requires AreDue(a, batch) && Inv(a, batch, w) && IsRun(batch, w, beats)
    ensures Inv(a, batch, After(batch, w, beats))
    decreases |beats|
  {
    if beats != [] {
      BeatKeeps(a, batch, w, beats[0]);
      RunKeeps(a, batch, Next(batch, w, beats[0]), beats[1..]);
    }
  }

  // ----- What it means -----

  /** The writes took place while the batch was under way. */
  ghost predicate InTime(w: World, clock: nat -> Time, from: nat, to: nat) {
    forall i :: i in w.done && w.done[i].Some? ==> During(clock, from, to, w.done[i].value)
  }

  /** The outcomes that reached the tables. */
  function Outcomes(batch: seq<Worker>, w: World): map<int, Outcome> {
    if batch == [] then map[]
    else
      var n := |batch| - 1;
      var init := Outcomes(batch[..n], w);
      if n in w.read && n in w.done && w.done[n].Some? then init[batch[n].target.key := OutcomeOf(batch[n], w.read[n])] else init
  }

  lemma {:induction false} OutcomeOfWorker(batch: seq<Worker>, w: World, k: int) returns (i: nat)
    requires k in Outcomes(batch, w)
    ensures i < |batch| && i in w.read && i in w.done && w.done[i].Some? && batch[i].target.key == k
    ensures OutcomeOf(batch[i], w.read[i]) == Outcomes(batch, w)[k]
    decreases |batch|
  {
    var n := |batch| - 1;
    if n in w.read && n in w.done && w.done[n].Some? && batch[n].target.key == k {
      i := n;
    } else {
      i := OutcomeOfWorker(batch[..n], w, k);
    }
  }

  lemma {:induction false} WorkerHasOutcome(batch: seq<Worker>, w: World, i: nat)
    requires i < |batch| && i in w.read && i in w.done && w.done[i].Some?
    ensures batch[i].target.key in Outcomes(batch, w)
    decreases |batch|
  {
    if i < |batch| - 1 {
      WorkerHasOutcome(batch[..|batch| - 1], w, i);
    }
  }

  lemma NoneDone(batch: seq<Worker>, w: World, k: int)
    requires k !in Outcomes(batch, w) && forall i :: i in w.done ==> i in w.read
    ensures !IsDone(batch, w.done, k)
  {
    forall i | 0 <= i < |batch| && i in w.done && w.done[i].Some? ensures batch[i].target.key != k {
      WorkerHasOutcome(batch, w, i);
    }
  }

  lemma RowAfterSettles(a: Db, x: Worker, rev: Option<int>, now: Time, clock: nat -> Time, from: nat, to: nat)
    requires IsTarget(a, x.target) && During(clock, from, to, now) && (rev.Some? ==> rev == RevOf(a, x.target))
    ensures RowSettled(a, x.target.key, RowAfter(a, x, rev, now), OutcomeOf(x, rev), clock, from, to)
  {
  }

  /**
   * However the pushes of a batch interleave, and whichever of their statements
   * fail, the batch settles the keys it wrote as pushes one after the other do, and
   * leaves the others alone.
   */
  lemma OverlapSettles(a: Db, batch: seq<Worker>, beats: seq<Beat>, clock: nat -> Time, from: nat, to: nat)
    requires AreDue(a, batch) && IsRun(batch, Start(a), beats) && InTime(After(batch, Start(a), beats), clock, from, to)
    ensures var w := After(batch, Start(a), beats); Settled(a, w.db, Outcomes(batch, w), clock, from, to)
  {
    RunKeeps(a, batch, Start(a), beats);
    var w := After(batch, Start(a), beats);
    var m := Outcomes(batch, w);
    forall k | k in m ensures Stale(a, k) && RowSettled(a, k, w.db.keys[k], m[k], clock, from, to) {
      var i := OutcomeOfWorker(batch, w, k);
      assert IsTarget(a, batch[i].target) && HasWritten(a, batch, w, i);
      RowAfterSettles(a, batch[i], w.read[i], w.done[i].value, clock, from, to);
    }
    forall k | k in a.keys && k !in m ensures w.db.keys[k] == a.keys[k] {
      NoneDone(batch, w, k);
    }
  }

  /** No read fails. */
  ghost predicate AllLoaded(beats: seq<Beat>) {
    forall i :: 0 <= i < |beats| && beats[i].Read? ==> beats[i].loaded
  }

  /** Whoever has read has the revision these tables have. */
  ghost predicate AllRead(a: Db, batch: seq<Worker>, w: World) {
    forall i :: i in w.read ==> i < |batch| && w.read[i] == RevOf(a, batch[i].target)
  }

  /** When no read fails, everybody reads what the tables had when the batch was read, though others wrote meanwhile. */
  lemma ReadsDecide(a: Db, batch: seq<Worker>, beats: seq<Beat>)
    requires AreDue(a, batch) && IsRun(batch, Start(a), beats) && AllLoaded(beats)
    ensures AllRead(a, batch, After(batch, Start(a), beats))
  {
    NoneStarted(a, batch);
    ReadsStay(a, batch, Start(a), beats);
  }

  lemma NoneStarted(a: Db, batch: seq<Worker>)
    ensures Inv(a, batch, Start(a))
  {
  }

  lemma BeatReads(a: Db, batch: seq<Worker>, w: World, b: Beat)
    requires Inv(a, batch, w) && Enabled(batch, w, b) && AllRead(a, batch, w) && (b.Read? ==> b.loaded)
    ensures AllRead(a, batch, Next(batch, w, b))
  {
  }

  lemma {:induction false} ReadsStay(a: Db, batch: seq<Worker>, w: World, beats: seq<Beat>)
    requires AreDue(a, batch) && Inv(a, batch, w) && IsRun(batch, w, beats) && AllLoaded(beats) && AllRead(a, batch, w)
    ensures AllRead(a, batch, After(batch, w, beats))
    decreases |beats|
  {
    if beats != [] {
      BeatKeeps(a, batch, w, beats[0]);
      BeatReads(a, batch, w, beats[0]);
      ReadsStay(a, batch, Next(batch, w, beats[0]), beats[1..]);
    }
  }

  /**
   * Two interleavings in which the same statements fail, and that write at the
   * same times, leave the same rows, and only the audit log in another order.
   */
  lemma OrderDoesNotMatter(a: Db, batch: seq<Worker>, x: seq<Beat>, y: seq<Beat>)
    requires AreDue(a, batch) && IsRun(batch, Start(a), x) && IsRun(batch, Start(a), y)
    requires After(batch, Start(a), x).read == After(batch, Start(a), y).read
    requires After(batch, Start(a), x).done == After(batch, Start(a), y).done
    ensures After(batch, Start(a), x).db.(audit := []) == After(batch, Start(a), y).db.(audit := [])
  {
    RunKeeps(a, batch, Start(a), x);
    RunKeeps(a, batch, Start(a), y);
    SameTables(a, batch, After(batch, Start(a), x), After(batch, Start(a), y));
  }

  lemma SameTables(a: Db, batch: seq<Worker>, v: World, w: World)
    requires Inv(a, batch, v) && Inv(a, batch, w) && v.read == w.read && v.done == w.done
    ensures v.db.(audit := []) == w.db.(audit := [])
  {
    forall k | k in a.keys ensures v.db.keys[k] == w.db.keys[k] {
      SameRowEitherWay(a, batch, v, w, k);
    }
    assert v.db.keys == w.db.keys;
  }

  lemma SameRowEitherWay(a: Db, batch: seq<Worker>, v: World, w: World, k: int)
    requires Inv(a, batch, v) && Inv(a, batch, w) && v.read == w.read && v.done == w.done && k in a.keys
    ensures v.db.keys[k] == w.db.keys[k]
  {
    if IsDone(batch, v.done, k) {
      var i :| i in v.done && i < |batch| && v.done[i].Some? && batch[i].target.key == k;
      assert HasWritten(a, batch, v, i) && HasWritten(a, batch, w, i);
    }
  }
}
