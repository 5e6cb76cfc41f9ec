/** What runs of the limit sync come to (internal/limitsync/limitsync.go). */
module SyncResults {
  import opened Options
  import opened KeyProvider
  import opened Database
  import opened Stores
  import opened MissingKeys
  import opened SyncOutcomes
  import opened SyncChecks
  import opened SyncRecords
  import opened SyncRun

  // ----- Nothing left -----

  lemma BatchNoLonger(batch: seq<SyncTarget>, failures: set<int>)
    requires KeysOf(batch) <= failures && forall i, j :: 0 <= i < j < |batch| ==> batch[i].key != batch[j].key
    ensures |batch| <= |failures|
    decreases |batch|
  {
    if batch != [] {
      var n := |batch| - 1;
      assert batch[n].key in KeysOf(batch);
      forall k | k in KeysOf(batch[..n]) ensures k in failures - {batch[n].key} {
        var t :| t in batch[..n] && t.key == k;
        assert t in batch;
      }
      BatchNoLonger(batch[..n], failures - {batch[n].key});
    }
  }

  /** Step i pushed key k as a query of the run found it, and failed for a reason the step has. */
  ghost predicate FailedAt(run: RunLog, clock: nat -> Time, fails: nat -> bool, history: seq<Db>, k: int, i: nat) {
    && i < |run.pushes| && run.pushes[i].target.key == k && run.pushes[i].attempted && run.pushes[i].outcome == PushFailed
    && HasReason(run.pushes[i], fails) && WasDue(run.pushes[i], clock, history, clock(run.begun), run.begun)
  }

  /**
   * A run that ends without an error, whatever others wrote meanwhile, leaves
   * nothing to push but keys whose push failed in it: on a statement, at the
   * gateway, or for want of a profile in the tables it read. Unless those fill a
   * whole batch. And each failed once.
   */
  lemma EndsCaughtUp(db: Db, now: Time, limit: nat, t: Tally, run: RunLog, o: Outside, user: (string, string, string) -> Owner, k: int)
    requires CaughtUp(db, now, o.clock(run.begun), limit, run.failures) && |run.failures| < limit
    requires Tallied(t, run.failures, run.pushes) && AllHonest(run.pushes, o, user)
    requires WereDue(run.pushes, o.clock, o.history, o.clock(run.begun), run.begun)
    requires k in Eligible(db, now, o.clock(run.begun))
    ensures k in run.failures
    ensures exists i: nat :: FailedAt(run, o.clock, o.fails, o.history, k, i)
                             && forall j: nat :: FailedAt(run, o.clock, o.fails, o.history, k, j) ==> j == i
  {
    BatchFails(db, now, o.clock(run.begun), limit, run.failures, k);
    FailedAtOnce(run, o, user, k);
  }

  lemma BatchFails(db: Db, now: Time, start: Time, limit: nat, failures: set<int>, k: int)
    requires CaughtUp(db, now, start, limit, failures) && |failures| < limit && k in Eligible(db, now, start)
    ensures k in failures
  {
    var batch: seq<SyncTarget> :| IsBatch(db, now, start, limit, batch) && KeysOf(batch) <= failures;
    BatchNoLonger(batch, failures);
    var i :| 0 <= i < |batch| && batch[i].key == k;
    assert batch[i] in batch;
  }

  lemma FailedAtOnce(run: RunLog, o: Outside, user: (string, string, string) -> Owner, k: int)
    requires k in FailedIn(run.pushes) && FailOnce(run.pushes) && AllHonest(run.pushes, o, user)
    requires WereDue(run.pushes, o.clock, o.history, o.clock(run.begun), run.begun)
    ensures exists i: nat :: FailedAt(run, o.clock, o.fails, o.history, k, i)
                             && forall j: nat :: FailedAt(run, o.clock, o.fails, o.history, k, j) ==> j == i
  {
    var i :| 0 <= i < |run.pushes| && run.pushes[i].attempted && run.pushes[i].outcome == PushFailed && run.pushes[i].target.key == k;
    assert Honest(run.pushes[i], o, user) && WasDue(run.pushes[i], o.clock, o.history, o.clock(run.begun), run.begun);
    assert FailedAt(run, o.clock, o.fails, o.history, k, i);
  }

  /** A key whose last failure is stamped with the moment a run starts is pending, and the run does not try it. */
  lemma SameMomentIsSkipped()
    ensures exists db, t :: 1 in PendingKeys(db, t) && 1 !in Eligible(db, t, t)
  {
    var row := KeyRow(1, "ref", 10, None, None, None, None, "refused", Some(5), None);
    var db := Db(map[], map[], map[1 := User("sub", "mail", "name", None, None, None, false)], map[1 := row], [], 0, 1, 1);
    assert 1 in PendingKeys(db, 5) && 1 !in Eligible(db, 5, 5);
  }

  /** The run skipped no key: none had failed at its very start or later. */
  ghost predicate NoneSkipped(db: Db, start: Time) {
    forall k :: k in PendingKeys(db, start) ==> NotFailedSince(db.keys[k], start)
  }

  /** If no push failed and none was skipped, nothing is pending, at that time or later. */
  lemma NothingPending(a: Db, b: Db, m: map<int, Outcome>, t: Tally, clock: nat -> Time, from: nat, to: nat, now: Time)
    requires Settled(a, b, m, clock, from, to) && from <= to && Calm(a, clock, from, to) && now >= clock(to)
    requires m.Keys == Eligible(a, clock(from), clock(from)) && Counted(t, m)
    requires t.failed == 0 && NoneSkipped(a, clock(from))
    ensures PendingKeys(b, now) == {}
  {
    forall k ensures k in PendingKeys(b, now) ==> k in KeysWith(m, PushFailed) {
      PendingAfterRun(a, b, m, clock, from, to, k);
    }
  }

  lemma PendingBeforeCheck(b: Db, checked: Db, results: map<int, CheckResult>, now: Time, k: int)
    requires Looked(b, checked, results)
    requires forall j :: j in results ==> results[j] != CheckFound
    ensures k in PendingKeys(checked, now) ==> k in PendingKeys(b, now)
  {
    if k in PendingKeys(checked, now) {
      assert k in b.keys;
      assert k !in results ==> RowLooked(b, checked, k, CheckKept);
    }
  }

  /** With nothing pending before it and no marked key found again, a run pushes nothing. */
  lemma IdleRun(b: Db, checked: Db, c: Db, checks: seq<CheckStep>, pushes: seq<PushStep>, t: Tally, failures: set<int>,
                o: Outside, user: (string, string, string) -> Owner, grace: int, begun: nat, to: nat)
    requires begun <= to && PendingKeys(b, o.clock(begun)) == {}
    requires Report(b, checked, checks, o.clock, grace) && ResultCount(checks, CheckFound) == 0
    requires Progress(checked, c, t, pushes, failures, o, user, begun, to) && NotBefore(o.clock, begun, to)
    ensures pushes == []
  {
    forall k ensures k !in Eligible(checked, o.clock(begun), o.clock(begun)) {
      forall j | j in ResultsOf(checks) ensures ResultsOf(checks)[j] != CheckFound {
        assert |KeysWith(ResultsOf(checks), CheckFound)| == 0;
        assert j !in KeysWith(ResultsOf(checks), CheckFound);
      }
      PendingBeforeCheck(b, checked, ResultsOf(checks), o.clock(begun), k);
    }
    PushedKeys(pushes);
    if pushes != [] {
      FirstPushCounts(pushes);
    }
  }

  lemma FirstPushCounts(pushes: seq<PushStep>)
    requires pushes != []
    ensures pushes[0].target.key in KeysOf(TargetsOf(pushes))
  {
    assert TargetsOf(pushes)[0] in TargetsOf(pushes);
  }

  // ----- A gateway that accepts everything -----

  ghost predicate AllFound(steps: seq<CheckStep>) {
    forall i :: 0 <= i < |steps| ==> steps[i].asked.answer == Has
  }

  /** If the gateway has every marked key, none stays marked. */
  lemma NoneStaysMarked(b: Db, checked: Db, checks: seq<CheckStep>, clock: nat -> Time, grace: int)
    requires AllMarked(b, RowsOf(checks)) && Report(b, checked, checks, clock, grace) && AllFound(checks)
    ensures MarkedKeys(checked) == {}
    ensures forall k :: k in checked.keys && checked.keys[k].userId in checked.users ==> checked.keys[k].missingSince == None
  {
    AllResultsFound(checks, clock, grace);
    AllChecked(b, RowsOf(checks));
    forall k ensures k !in MarkedKeys(checked) {
      if k in ResultsOf(checks) {
        assert RowLooked(b, checked, k, CheckFound);
      } else if k in b.keys {
        assert RowLooked(b, checked, k, CheckKept);
      }
    }
    forall k | k in checked.keys && checked.keys[k].userId in checked.users ensures checked.keys[k].missingSince == None {
      assert k !in MarkedKeys(checked);
    }
  }

  lemma AllChecked(b: Db, rows: seq<MissingKey>)
    requires AllMarked(b, rows)
    ensures RowKeys(rows) == MarkedKeys(b)
  {
    forall k | k in MarkedKeys(b) ensures k in RowKeys(rows) {
      var i :| 0 <= i < |rows| && rows[i].key == k;
      assert rows[i] in rows;
    }
  }

  lemma HeadRow(rows: seq<MissingKey>)
    ensures rows != [] ==> rows[0].key in RowKeys(rows)
  {
  }

  lemma {:induction false} AllResultsFound(checks: seq<CheckStep>, clock: nat -> Time, grace: int)
    requires AllFound(checks) && forall i :: 0 <= i < |checks| ==> Decided(checks[i], clock, grace)
    ensures forall k :: k in ResultsOf(checks) ==> ResultsOf(checks)[k] == CheckFound
    decreases |checks|
  {
    if checks != [] {
      var n := |checks| - 1;
      assert Decided(checks[n], clock, grace);
      AllResultsFound(checks[..n], clock, grace);
    }
  }

  /** Pushes that all succeed mark nothing. */
  lemma SyncedMarksNothing(a: Db, b: Db, m: map<int, Outcome>, clock: nat -> Time, from: nat, to: nat)
    requires Settled(a, b, m, clock, from, to) && forall k :: k in m ==> m[k] == PushSynced
    requires MarkedKeys(a) == {}
    ensures MarkedKeys(b) == {}
  {
    forall k ensures k !in MarkedKeys(b) {
      assert k !in MarkedKeys(a);
    }
  }

  lemma NothingToCheck(b: Db, checks: seq<CheckStep>)
    requires AllMarked(b, RowsOf(checks)) && MarkedKeys(b) == {}
    ensures checks == []
  {
    AllChecked(b, RowsOf(checks));
    HeadRow(RowsOf(checks));
    assert |RowsOf(checks)| == |checks|;
  }

  // ----- Two runs -----

  /** A run nobody interfered with, that failed on no key and skipped none. */
  ghost predicate Clean(run: RunLog, t: Tally, clock: nat -> Time, ended: nat) {
    && run.begun <= ended && Calm(run.checked, clock, run.begun, ended)
    && t.failed == 0 && NoneSkipped(run.checked, clock(run.begun))
  }

  /** The gateway had every key it was asked about and accepted all it was told, and there was a profile to tell. */
  ghost predicate AcceptedAll(run: RunLog, o: Outside, ended: nat) {
    && OwnersHaveProfiles(run.checked) && NoneFails(o.fails, run.begun, ended)
    && AllFound(run.checks) && Accepted(Said(run.pushes))
  }

  /** From that time on nothing is pending. */
  ghost predicate NonePending(db: Db, from: Time) {
    forall now :: now >= from ==> PendingKeys(db, now) == {}
  }

  /** What an undisturbed run leaves, and what it does when there is little to do. */
  lemma RunComesTo(before: Db, after: Db, t: Tally, run: RunLog, o: Outside, user: (string, string, string) -> Owner, grace: int, ended: nat)
    requires run.begun <= ended && Asks(before, RowsOf(run.checks), true) && Report(before, run.checked, run.checks, o.clock, grace)
    requires t.found == ResultCount(run.checks, CheckFound)
    requires Progress(run.checked, after, t, run.pushes, run.failures, o, user, run.begun, ended)
    requires Calm(run.checked, o.clock, run.begun, ended) ==>
               OutcomesOf(run.pushes).Keys == Eligible(run.checked, o.clock(run.begun), o.clock(run.begun))
    ensures Clean(run, t, o.clock, ended) ==> NonePending(after, o.clock(ended))
    ensures AcceptedAll(run, o, ended) ==> t.failed == 0 && MarkedKeys(after) == {}
    ensures PendingKeys(before, o.clock(run.begun)) == {} && t.found == 0 && NotBefore(o.clock, run.begun, ended) ==> run.pushes == []
    ensures MarkedKeys(before) == {} ==> run.checks == []
  {
    var m := OutcomesOf(run.pushes);
    AsksMarked(before, RowsOf(run.checks), true);
    if Clean(run, t, o.clock, ended) {
      forall now | now >= o.clock(ended) ensures PendingKeys(after, now) == {} {
        NothingPending(run.checked, after, m, t, o.clock, run.begun, ended, now);
      }
    }
    if AcceptedAll(run, o, ended) {
      AcceptedParts(run.pushes);
      AcceptedMeansSynced(run.checked, run.pushes, o, user, run.begun, ended);
      NoneStaysMarked(before, run.checked, run.checks, o.clock, grace);
      SyncedMarksNothing(run.checked, after, m, o.clock, run.begun, ended);
      NoneFailed(m, t);
    }
    if PendingKeys(before, o.clock(run.begun)) == {} && t.found == 0 && NotBefore(o.clock, run.begun, ended) {
      IdleRun(before, run.checked, after, run.checks, run.pushes, t, run.failures, o, user, grace, run.begun, ended);
    }
    if MarkedKeys(before) == {} {
      NothingToCheck(before, run.checks);
    }
  }

  /** A run, what it leaves for the next one, and what it does if one has left it nothing. */
  method RunOnce(s: Syncer) returns (t: Tally, err: bool, ghost run: RunLog)
    modifies s`running, s`finished, s.store, s.outside`history, s.outside`edits, s.outside`log
    ensures |s.outside.edits| <= old(|s.outside.edits|) && old(s.outside.Tick()) < run.begun <= s.outside.Tick()
    ensures s.outside.log == old(s.outside.log) + AskedIn(run.checks) + Said(run.pushes)
    ensures err ==> s.Excused(old(s.outside.Tick()))
    ensures s.Smooth(old(|s.outside.edits|), err) && Clean(run, t, s.outside.clock, s.outside.Tick()) ==>
              NonePending(s.store.Tables(), s.outside.Now())
    ensures s.Smooth(old(|s.outside.edits|), err) && AcceptedAll(run, s.outside, s.outside.Tick()) ==>
              t.failed == 0 && MarkedKeys(s.store.Tables()) == {}
    ensures s.Smooth(old(|s.outside.edits|), err) && PendingKeys(old(s.store.Tables()), s.outside.clock(run.begun)) == {}
            && t.found == 0 && NotBefore(s.outside.clock, run.begun, s.outside.Tick()) ==>
              run.pushes == []
    ensures s.Smooth(old(|s.outside.edits|), err) && MarkedKeys(old(s.store.Tables())) == {} ==> run.checks == [] && t.found == 0
  {
    ghost var before, edits := s.store.Tables(), |s.outside.edits|;
    t, err, run := s.Run();
    if s.Smooth(edits, err) {
      RunComesTo(before, s.store.Tables(), t, run, s.outside, s.user, s.grace, s.outside.Tick());
    }
  }

  /**
   * After a run that failed on no key, the next one pushes nothing unless a key
   * marked missing is back: it only asks about those. And after a run in which the
   * gateway accepted everything, the next one does not speak to it at all.
   */
  method RunTwice(s: Syncer) returns (first: Tally, second: Tally, err: bool, ghost one: RunLog, ghost two: RunLog, ghost ended: nat,
                                      ghost log: seq<Exchange>)
    modifies s`running, s`finished, s.store, s.outside`history, s.outside`edits, s.outside`log
    ensures s.Smooth(old(|s.outside.edits|), err) && Clean(one, first, s.outside.clock, ended)
            && s.outside.clock(ended) <= s.outside.clock(two.begun) && NotBefore(s.outside.clock, two.begun, s.outside.Tick())
            && second.found == 0 ==>
              two.pushes == [] && s.outside.log == log + AskedIn(two.checks)
    ensures s.Smooth(old(|s.outside.edits|), err) && Calm(one.checked, s.outside.clock, one.begun, ended)
            && NoneSkipped(one.checked, s.outside.clock(one.begun)) && AcceptedAll(one, s.outside, ended)
            && s.outside.clock(ended) <= s.outside.clock(two.begun) && NotBefore(s.outside.clock, two.begun, s.outside.Tick()) ==>
              s.outside.log == log
    ensures log == old(s.outside.log) + AskedIn(one.checks) + Said(one.pushes)
    ensures s.Undisturbed(old(|s.outside.edits|), old(s.outside.Tick())) ==> s.Smooth(old(|s.outside.edits|), err)
  {
    var err1, err2;
    first, err1, one := RunOnce(s);
    ended, log := s.outside.Tick(), s.outside.log;
    second, err2, two := RunOnce(s);
    err := err1 || err2;
    assert err ==> s.Excused(old(s.outside.Tick()));
    assert AskedIn([]) == [] && Said([]) == [];
  }

  lemma NoneFailed(m: map<int, Outcome>, t: Tally)
    requires Counted(t, m) && forall k :: k in m ==> m[k] == PushSynced
    ensures t.failed == 0
  {
    assert forall k :: k !in KeysWith(m, PushFailed);
    assert KeysWith(m, PushFailed) == {};
  }
}
