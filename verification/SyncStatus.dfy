/** How far the limit sync has got (GetLimitSyncStatus in internal/database/limitsync.go). */
module SyncStatus {
  import opened Options
  import opened KeyProvider
  import opened Database
  import opened Stores

  /** One row of the grouped query. */
  datatype Group = Group(profile: Option<int>, pending: nat, failed: nat)

  /** A pending key whose last push failed. */
  datatype Failure = Failure(key: int, error: string, at: Time)

  datatype Status = Status(pending: nat, failed: nat, pendingByProfile: map<int, nat>, recent: seq<Failure>)

  const maxListedFailures := 20

  function FailedKeys(db: Db, now: Time): set<int> {
    set k | k in PendingKeys(db, now) && db.keys[k].syncFailedAt.Some?
  }

  function OwnerProfile(db: Db, k: int): Option<int> {
    if k in db.keys && db.keys[k].userId in db.users then EffectiveProfile(db, db.users[db.keys[k].userId]) else None
  }

  /** The keys among ks whose owners have that effective profile. */
  function On(db: Db, ks: set<int>, profile: Option<int>): set<int> {
    set k | k in ks && OwnerProfile(db, k) == profile
  }

  /** rows groups the pending keys by effective profile and counts each group. */
  ghost predicate IsGrouping(db: Db, now: Time, rows: seq<Group>) {
    && (forall i, j :: 0 <= i < j < |rows| ==> rows[i].profile != rows[j].profile)
    && (forall i :: 0 <= i < |rows| ==>
          && rows[i].pending == |On(db, PendingKeys(db, now), rows[i].profile)|
          && rows[i].failed == |On(db, FailedKeys(db, now), rows[i].profile)|)
    && (forall k :: k in PendingKeys(db, now) ==> exists i :: 0 <= i < |rows| && rows[i].profile == OwnerProfile(db, k))
  }

  /** The keys of the first n groups. */
  function Covered(db: Db, ks: set<int>, rows: seq<Group>): set<int> {
    set k | k in ks && exists i :: 0 <= i < |rows| && rows[i].profile == OwnerProfile(db, k)
  }

  lemma GroupAdded(db: Db, ks: set<int>, rows: seq<Group>, g: Group)
    requires forall i :: 0 <= i < |rows| ==> rows[i].profile != g.profile
    ensures |Covered(db, ks, rows + [g])| == |Covered(db, ks, rows)| + |On(db, ks, g.profile)|
  {
    var a, b := Covered(db, ks, rows), On(db, ks, g.profile);
    forall k ensures k in Covered(db, ks, rows + [g]) <==> k in a + b {
      if k in a {
        var i :| 0 <= i < |rows| && rows[i].profile == OwnerProfile(db, k);
        assert (rows + [g])[i].profile == OwnerProfile(db, k);
      } else if k in b {
        assert (rows + [g])[|rows|].profile == OwnerProfile(db, k);
      }
    }
    assert Covered(db, ks, rows + [g]) == a + b && a !! b;
  }

  function FailureOf(db: Db, k: int): Failure
    requires k in db.keys && db.keys[k].syncFailedAt.Some?
  {
    Failure(k, db.keys[k].syncError, db.keys[k].syncFailedAt.value)
  }

  /** The later failure comes first; the id breaks ties. */
  predicate NewerFailure(a: Failure, b: Failure) {
    a.at > b.at || (a.at == b.at && a.key <= b.key)
  }

  /** rows lists the newest failures, as many as there are up to limit. */
  ghost predicate AreNewest(db: Db, now: Time, limit: nat, rows: seq<Failure>) {
    var failed := FailedKeys(db, now);
    && |rows| <= limit
    && (forall i :: 0 <= i < |rows| ==> rows[i].key in failed && rows[i] == FailureOf(db, rows[i].key))
    && (forall i, j :: 0 <= i < j < |rows| ==> rows[i].key != rows[j].key && NewerFailure(rows[i], rows[j]))
    && (forall k :: k in failed && (forall i :: 0 <= i < |rows| ==> rows[i].key != k) ==>
          |rows| == limit && forall i :: 0 <= i < |rows| ==> NewerFailure(rows[i], FailureOf(db, k)))
  }

  method NewestOf(db: Db, ks: set<int>) returns (first: int)
    requires (exists k :: k in ks) && forall k :: k in ks ==> k in db.keys && db.keys[k].syncFailedAt.Some?
    ensures first in ks && forall k :: k in ks ==> NewerFailure(FailureOf(db, first), FailureOf(db, k))
  {
    first :| first in ks;
    var left := ks - {first};
    while exists k :: k in left
      invariant first in ks && left <= ks
      invariant forall k :: k in ks && k !in left ==> NewerFailure(FailureOf(db, first), FailureOf(db, k))
      decreases left
    {
      var k :| k in left;
      if !NewerFailure(FailureOf(db, first), FailureOf(db, k)) {
        first := k;
      }
      left := left - {k};
    }
  }

  method RecentFailures(db: Db, now: Time, limit: nat) returns (rows: seq<Failure>)
    ensures AreNewest(db, now, limit, rows)
  {
    var left := FailedKeys(db, now);
    rows := [];
    while (exists k :: k in left) && |rows| < limit
      invariant left <= FailedKeys(db, now) && |rows| <= limit
      invariant forall i :: 0 <= i < |rows| ==>
                  rows[i].key in FailedKeys(db, now) && rows[i].key !in left && rows[i] == FailureOf(db, rows[i].key)
      invariant forall i, j :: 0 <= i < j < |rows| ==> rows[i].key != rows[j].key && NewerFailure(rows[i], rows[j])
      invariant forall i, k :: 0 <= i < |rows| && k in left ==> NewerFailure(rows[i], FailureOf(db, k))
      invariant forall k :: k in FailedKeys(db, now) ==> k in left || exists i :: 0 <= i < |rows| && rows[i].key == k
      decreases left
    {
      var k := NewestOf(db, left);
      ghost var was := rows;
      rows := rows + [FailureOf(db, k)];
      assert rows[|was|].key == k && forall i :: 0 <= i < |was| ==> rows[i] == was[i];
      left := left - {k};
    }
  }

  // ----- The status by its columns -----

  /** The key at k is out of date: see Stores.NeedsPush. */
  ghost predicate IsPending(db: Db, k: int, p: Option<int>, now: Time) {
    && k in db.keys && db.keys[k].userId in db.users
    && GoesBy(db, db.users[db.keys[k].userId], p) && NeedsPush(db, db.keys[k], db.users[db.keys[k].userId], p, now)
  }

  ghost function PendingOn(db: Db, now: Time, p: Option<int>): set<int> {
    set k | k in db.keys && IsPending(db, k, p, now)
  }

  ghost function AllPending(db: Db, now: Time): set<int> {
    set k | k in db.keys && exists p :: IsPending(db, k, p, now)
  }

  /** The newest failures come first, twenty at most, and each says what its key's row says. */
  ghost predicate Lists(db: Db, now: Time, recent: seq<Failure>) {
    && |recent| <= 20
    && (forall i :: 0 <= i < |recent| ==>
          && recent[i].key in AllPending(db, now) && db.keys[recent[i].key].syncFailedAt == Some(recent[i].at)
          && recent[i].error == db.keys[recent[i].key].syncError)
    && (forall i, j :: 0 <= i < j < |recent| ==>
          recent[i].at > recent[j].at || (recent[i].at == recent[j].at && recent[i].key < recent[j].key))
    && (forall k :: k in AllPending(db, now) && db.keys[k].syncFailedAt.Some? && (forall i :: 0 <= i < |recent| ==> recent[i].key != k) ==>
          |recent| == 20 && forall i :: 0 <= i < |recent| ==> recent[i].at >= db.keys[k].syncFailedAt.value)
  }

  ghost predicate IsStatus(db: Db, now: Time, later: Time, st: Status) {
    && st.pending == |AllPending(db, now)|
    && st.failed == |set k | k in AllPending(db, now) && db.keys[k].syncFailedAt.Some?|
    && (forall p :: p in st.pendingByProfile ==> st.pendingByProfile[p] == |PendingOn(db, now, Some(p))|)
    && (forall p :: p !in st.pendingByProfile ==> |PendingOn(db, now, Some(p))| == 0)
    && (if st.failed > 0 then Lists(db, later, st.recent) else st.recent == [])
  }

  lemma PendingByColumns(db: Db, now: Time)
    ensures AllPending(db, now) == PendingKeys(db, now)
    ensures forall p :: PendingOn(db, now, p) == On(db, PendingKeys(db, now), p)
  {
    forall k, p ensures IsPending(db, k, p, now) <==> k in PendingKeys(db, now) && OwnerProfile(db, k) == p {
      if k in db.keys && db.keys[k].userId in db.users {
        GoesByOne(db, db.users[db.keys[k].userId], p);
      }
    }
    forall k | k in PendingKeys(db, now) ensures exists p :: IsPending(db, k, p, now) {
      assert IsPending(db, k, OwnerProfile(db, k), now);
    }
  }

  lemma NewestByColumns(db: Db, now: Time, rows: seq<Failure>)
    requires AreNewest(db, now, maxListedFailures, rows)
    ensures Lists(db, now, rows)
  {
    PendingByColumns(db, now);
    forall k | k in AllPending(db, now) && db.keys[k].syncFailedAt.Some? && (forall i :: 0 <= i < |rows| ==> rows[i].key != k)
      ensures |rows| == 20 && forall i :: 0 <= i < |rows| ==> rows[i].at >= db.keys[k].syncFailedAt.value
    {
      assert k in FailedKeys(db, now);
      assert forall i :: 0 <= i < |rows| ==> NewerFailure(rows[i], FailureOf(db, k));
    }
  }

  lemma StatusByColumns(db: Db, now: Time, later: Time, st: Status)
    requires st.pending == |PendingKeys(db, now)| && st.failed == |FailedKeys(db, now)|
    requires forall p :: (if p in st.pendingByProfile then st.pendingByProfile[p] else 0) == |On(db, PendingKeys(db, now), Some(p))|
    requires if st.failed > 0 then AreNewest(db, later, maxListedFailures, st.recent) else st.recent == []
    ensures IsStatus(db, now, later, st)
  {
    PendingByColumns(db, now);
    assert FailedKeys(db, now) == set k | k in AllPending(db, now) && db.keys[k].syncFailedAt.Some?;
    if st.failed > 0 {
      NewestByColumns(db, later, st.recent);
    }
  }

  /**
   * The totals are exact, and so is the count of each profile; keys without a
   * profile are in the totals alone. The newest failures are read a little later.
   */
  method GetLimitSyncStatus(db: Db, now: Time, later: Time, rows: seq<Group>) returns (st: Status)
    requires IsGrouping(db, now, rows)
    ensures st.pending == |PendingKeys(db, now)| && st.failed == |FailedKeys(db, now)|
    ensures forall p :: (if p in st.pendingByProfile then st.pendingByProfile[p] else 0) == |On(db, PendingKeys(db, now), Some(p))|
    ensures if st.failed > 0 then AreNewest(db, later, maxListedFailures, st.recent) else st.recent == []
    ensures IsStatus(db, now, later, st)
  {
    st := Status(0, 0, map[], []);
    assert Covered(db, PendingKeys(db, now), rows[..0]) == {} == Covered(db, FailedKeys(db, now), rows[..0]);
    for n := 0 to |rows|
      invariant st.pending == |Covered(db, PendingKeys(db, now), rows[..n])|
      invariant st.failed == |Covered(db, FailedKeys(db, now), rows[..n])|
      invariant st.recent == []
      invariant forall p :: p in st.pendingByProfile <==> exists i :: 0 <= i < n && rows[i].profile == Some(p)
      invariant forall p :: p in st.pendingByProfile ==> st.pendingByProfile[p] == |On(db, PendingKeys(db, now), Some(p))|
    {
      GroupAdded(db, PendingKeys(db, now), rows[..n], rows[n]);
      GroupAdded(db, FailedKeys(db, now), rows[..n], rows[n]);
      assert rows[..n + 1] == rows[..n] + [rows[n]];
      st := st.(pending := st.pending + rows[n].pending, failed := st.failed + rows[n].failed);
      if rows[n].profile.Some? {
        st := st.(pendingByProfile := st.pendingByProfile[rows[n].profile.value := rows[n].pending]);
      }
    }
    assert rows[..|rows|] == rows;
    AllCovered(db, now, rows);
    if st.failed > 0 {
      var recent := RecentFailures(db, later, maxListedFailures);
      st := st.(recent := recent);
    }
    StatusByColumns(db, now, later, st);
  }

  lemma AllCovered(db: Db, now: Time, rows: seq<Group>)
    requires IsGrouping(db, now, rows)
    ensures Covered(db, PendingKeys(db, now), rows) == PendingKeys(db, now)
    ensures Covered(db, FailedKeys(db, now), rows) == FailedKeys(db, now)
    ensures forall p :: On(db, PendingKeys(db, now), Some(p)) != {} ==> exists i :: 0 <= i < |rows| && rows[i].profile == Some(p)
  {
    forall p | On(db, PendingKeys(db, now), Some(p)) != {} ensures exists i :: 0 <= i < |rows| && rows[i].profile == Some(p) {
      var k :| k in On(db, PendingKeys(db, now), Some(p));
      assert k in PendingKeys(db, now);
    }
  }
}
