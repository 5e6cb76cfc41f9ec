/**
 * What checking the keys marked missing makes of the tables (checkMissing and
 * checkOne in internal/limitsync/limitsync.go).
 */
module SyncChecks {
  import opened Options
  import opened Database
  import opened Stores
  import opened MissingKeys
  import opened SyncOutcomes

  datatype CheckResult = CheckKept | CheckFound | CheckRemoved

  function Expected(answer: Answer, since: Time, grace: int, now: Time): CheckResult {
    match answer
    case Has => CheckFound
    case NotFound => if since <= now - grace then CheckRemoved else CheckKept
    case Unknown => CheckKept
  }

  /** One check of a run: the question and its answer, the tables before and after it and as each of its ticks found them. */
  datatype CheckStep = CheckStep(row: MissingKey, result: CheckResult, asked: Exchange, before: Db, after: Db, seen: seq<Db>,
                                 from: nat, to: nat)

  /** What a check made of a marked row. */
  ghost predicate RowLooked(a: Db, b: Db, k: int, r: CheckResult)
    requires k in a.keys
  {
    match r
    case CheckKept => k in b.keys && b.keys[k] == a.keys[k]
    case CheckFound => k in b.keys && b.keys[k] == a.keys[k].(missingSince := None, syncedRev := None)
    case CheckRemoved => k !in b.keys
  }

  /** Only the marked rows that were checked changed, each as its result says. */
  ghost predicate Looked(a: Db, b: Db, results: map<int, CheckResult>) {
    && b.profiles == a.profiles && b.quotas == a.quotas && b.users == a.users
    && b.lastProfile == a.lastProfile && b.lastUser == a.lastUser && b.lastKey == a.lastKey
    && b.keys.Keys <= a.keys.Keys
    && (forall k :: k in a.keys && k !in results ==> RowLooked(a, b, k, CheckKept))
    && (forall k :: k in results ==> k in a.keys && a.keys[k].missingSince.Some? && RowLooked(a, b, k, results[k]))
  }

  predicate IsMarked(db: Db, m: MissingKey) {
    m.key in MarkedKeys(db) && m == MissingOf(db, m.key)
  }

  /** What a check makes of the tables its last tick found: nothing without an answer, or if its statement fails. */
  ghost predicate Acted(s: CheckStep, o: Outside, grace: int) {
    && s.seen != []
    && var m, last, now := s.row, s.seen[|s.seen| - 1], o.clock(s.to);
    if CancelledBy(o.cancelledAt, s.asked.at) || s.asked.answer == Unknown || o.fails(s.to) then
      s.result == CheckKept && s.after == last
    else if s.asked.answer == Has then
      && s.after == ClearKeyMissing(last, m.key, m.userId, now)
      && s.result == if m.key in last.keys && last.keys[m.key].missingSince.Some? then CheckFound else CheckKept
    else
      && s.after == RemoveMissingKey(last, m.key, m.userId, now - grace, now)
      && s.result == if MissingBefore(last, m.key, now - grace) then CheckRemoved else CheckKept
  }

  /** Whatever others write: the gateway was asked about the key, and its answer decides what becomes of the row. */
  ghost predicate CheckHonest(s: CheckStep, o: Outside, grace: int) {
    match s
    case CheckStep(row, _, asked, _, _, seen, from, to) =>
      && from + |seen| == to && from <= asked.at <= to
      && asked.call == CheckKey(row.ref) && asked.answer == o.answers(asked.at)
      && Acted(s, o, grace)
  }

  ghost predicate AllChecksHonest(steps: seq<CheckStep>, o: Outside, grace: int) {
    forall i :: 0 <= i < |steps| ==> CheckHonest(steps[i], o, grace)
  }

  /** What the checks saw is what the tables were. */
  ghost predicate ChecksTraced(steps: seq<CheckStep>, history: seq<Db>) {
    forall i :: 0 <= i < |steps| ==> steps[i].from <= steps[i].to <= |history| && steps[i].seen == history[steps[i].from..steps[i].to]
  }

  /** The result is the one the answer calls for, at a time after it was given. */
  ghost predicate Decided(s: CheckStep, clock: nat -> Time, grace: int) {
    exists now: nat :: s.asked.at <= now <= s.to && s.result == Expected(s.asked.answer, s.row.since, grace, clock(now))
  }

  /** A check nobody interfered with. */
  ghost predicate CheckFits(s: CheckStep, clock: nat -> Time, grace: int) {
    match s
    case CheckStep(row, result, _, before, after, _, from, to) =>
      && from <= to
      && (IsMarked(before, row) ==> Looked(before, after, map[row.key := result]) && Decided(s, clock, grace))
  }

  /** The questions asked, in order. */
  function AskedIn(steps: seq<CheckStep>): (r: seq<Exchange>)
    ensures |r| == |steps| && forall i :: 0 <= i < |r| ==> r[i] == steps[i].asked
  {
    if steps == [] then [] else AskedIn(steps[..|steps| - 1]) + [steps[|steps| - 1].asked]
  }

  function ResultsOf(steps: seq<CheckStep>): map<int, CheckResult> {
    if steps == [] then map[]
    else
      var s := steps[|steps| - 1];
      ResultsOf(steps[..|steps| - 1])[s.row.key := s.result]
  }

  function RowsOf(steps: seq<CheckStep>): (r: seq<MissingKey>)
    ensures |r| == |steps| && forall i :: 0 <= i < |r| ==> r[i] == steps[i].row
  {
    if steps == [] then [] else RowsOf(steps[..|steps| - 1]) + [steps[|steps| - 1].row]
  }

  function ResultCount(steps: seq<CheckStep>, r: CheckResult): nat {
    if steps == [] then 0 else ResultCount(steps[..|steps| - 1], r) + if steps[|steps| - 1].result == r then 1 else 0
  }

  ghost predicate AllChecksFit(steps: seq<CheckStep>, clock: nat -> Time, grace: int) {
    forall i :: 0 <= i < |steps| ==> CheckFits(steps[i], clock, grace)
  }

  ghost predicate ChecksLinked(first: Db, steps: seq<CheckStep>, last: Db) {
    && (if steps == [] then first == last else steps[0].before == first && steps[|steps| - 1].after == last)
    && forall i :: 0 <= i < |steps| - 1 ==> steps[i + 1].before == steps[i].after
  }

  ghost predicate CheckChain(first: Db, steps: seq<CheckStep>, last: Db, clock: nat -> Time, grace: int) {
    AllChecksFit(steps, clock, grace) && ChecksLinked(first, steps, last)
  }

  lemma {:induction false} CheckChainBack(first: Db, steps: seq<CheckStep>, last: Db, clock: nat -> Time, grace: int)
    requires steps != [] && CheckChain(first, steps, last, clock, grace)
    ensures var n := |steps| - 1;
            && CheckChain(first, steps[..n], steps[n].before, clock, grace)
            && CheckFits(steps[n], clock, grace) && steps[n].after == last
  {
    var n := |steps| - 1;
    if n > 0 {
      assert steps[(n - 1) + 1].before == steps[n - 1].after;
    }
  }

  lemma {:induction false} LastCheck(steps: seq<CheckStep>, s: CheckStep)
    ensures AskedIn(steps + [s]) == AskedIn(steps) + [s.asked]
    ensures ResultsOf(steps + [s]) == ResultsOf(steps)[s.row.key := s.result]
    ensures RowsOf(steps + [s]) == RowsOf(steps) + [s.row]
    ensures forall r :: ResultCount(steps + [s], r) == ResultCount(steps, r) + if s.result == r then 1 else 0
  {
    assert (steps + [s])[..|steps|] == steps;
  }

  lemma {:induction false} CheckChainGrows(first: Db, steps: seq<CheckStep>, s: CheckStep, clock: nat -> Time, grace: int)
    requires CheckChain(first, steps, s.before, clock, grace) && CheckFits(s, clock, grace)
    ensures CheckChain(first, steps + [s], s.after, clock, grace)
  {
    var all := steps + [s];
    forall i | 0 <= i < |all| ensures CheckFits(all[i], clock, grace) {
      assert i < |steps| ==> all[i] == steps[i];
    }
  }

  /** The log has grown by these questions, and the history has what the checks saw. */
  ghost predicate ChecksRecount(before: seq<Exchange>, log: seq<Exchange>, steps: seq<CheckStep>, o: Outside, grace: int, history: seq<Db>) {
    log == before + AskedIn(steps) && AllChecksHonest(steps, o, grace) && ChecksTraced(steps, history)
  }

  lemma ChecksTracedLater(steps: seq<CheckStep>, h: seq<Db>, later: seq<Db>)
    requires ChecksTraced(steps, h) && h <= later
    ensures ChecksTraced(steps, later)
  {
    forall i | 0 <= i < |steps| ensures steps[i].seen == later[steps[i].from..steps[i].to] {
      assert steps[i].seen == h[steps[i].from..steps[i].to];
    }
  }

  lemma {:induction false} ChecksRecountStep(before: seq<Exchange>, log: seq<Exchange>, steps: seq<CheckStep>, s: CheckStep,
                                             o: Outside, grace: int, h: seq<Db>, later: seq<Db>)
    requires ChecksRecount(before, log, steps, o, grace, h) && CheckHonest(s, o, grace)
    requires h <= later && s.from <= s.to == |later| && s.seen == later[s.from..]
    ensures ChecksRecount(before, log + [s.asked], steps + [s], o, grace, later)
    ensures RowsOf(steps + [s]) == RowsOf(steps) + [s.row]
    ensures forall r :: ResultCount(steps + [s], r) == ResultCount(steps, r) + if s.result == r then 1 else 0
  {
    LastCheck(steps, s);
    TailIs(later, s.from);
    Associative(before, AskedIn(steps), [s.asked]);
    ChecksTracedLater(steps, h, later);
    ChecksHonestGrow(steps, s, o, grace);
    ChecksTracedGrow(steps, s, later);
  }

  lemma {:induction false} ChecksHonestGrow(steps: seq<CheckStep>, s: CheckStep, o: Outside, grace: int)
    requires AllChecksHonest(steps, o, grace) && CheckHonest(s, o, grace)
    ensures AllChecksHonest(steps + [s], o, grace)
  {
    var all := steps + [s];
    forall i | 0 <= i < |all| ensures CheckHonest(all[i], o, grace) {
      assert i < |steps| ==> all[i] == steps[i];
    }
  }

  lemma {:induction false} ChecksTracedGrow(steps: seq<CheckStep>, s: CheckStep, h: seq<Db>)
    requires ChecksTraced(steps, h) && s.from <= s.to <= |h| && s.seen == h[s.from..s.to]
    ensures ChecksTraced(steps + [s], h)
  {
  }

  lemma MarkerStays(a: Db, b: Db, results: map<int, CheckResult>, m: MissingKey)
    requires Looked(a, b, results) && IsMarked(a, m) && m.key !in results
    ensures IsMarked(b, m)
  {
    assert RowLooked(a, b, m.key, CheckKept);
  }

  lemma LookedThen(a: Db, b: Db, c: Db, results: map<int, CheckResult>, key: int, r: CheckResult)
    requires Looked(a, b, results) && key !in results && key in a.keys && Looked(b, c, map[key := r])
    ensures Looked(a, c, results[key := r])
  {
    assert RowLooked(a, b, key, CheckKept);
    forall k | k in a.keys && k !in results[key := r] ensures RowLooked(a, c, k, CheckKept) {
      assert RowLooked(a, b, k, CheckKept) && RowLooked(b, c, k, CheckKept);
    }
    forall k | k in results[key := r] ensures k in a.keys && a.keys[k].missingSince.Some? && RowLooked(a, c, k, results[key := r][k]) {
      if k != key && k in b.keys {
        assert RowLooked(a, b, k, results[k]) && RowLooked(b, c, k, CheckKept);
      }
    }
  }

  function RowKeys(rows: seq<MissingKey>): set<int> {
    set m | m in rows :: m.key
  }

  lemma RowKeysOfLast(rows: seq<MissingKey>, m: MissingKey)
    ensures RowKeys(rows + [m]) == RowKeys(rows) + {m.key}
  {
  }

  /** What checking some rows of the tables comes to. */
  ghost predicate Report(a: Db, b: Db, steps: seq<CheckStep>, clock: nat -> Time, grace: int) {
    && Looked(a, b, ResultsOf(steps)) && ResultsOf(steps).Keys == RowKeys(RowsOf(steps))
    && (forall i :: 0 <= i < |steps| ==> Decided(steps[i], clock, grace))
    && (forall r :: ResultCount(steps, r) == |KeysWith(ResultsOf(steps), r)|)
  }

  lemma {:induction false} CheckAdds(first: Db, init: seq<CheckStep>, s: CheckStep, clock: nat -> Time, grace: int)
    requires Report(first, s.before, init, clock, grace) && CheckFits(s, clock, grace)
    requires IsMarked(first, s.row) && s.row.key !in ResultsOf(init)
    ensures Report(first, s.after, init + [s], clock, grace)
  {
    LastCheck(init, s);
    MarkerStays(first, s.before, ResultsOf(init), s.row);
    LookedThen(first, s.before, s.after, ResultsOf(init), s.row.key, s.result);
    RowKeysOfLast(RowsOf(init), s.row);
    ResultsCounted(init, s);
  }

  lemma {:induction false} ResultsCounted(init: seq<CheckStep>, s: CheckStep)
    requires s.row.key !in ResultsOf(init) && forall r :: ResultCount(init, r) == |KeysWith(ResultsOf(init), r)|
    ensures forall r :: ResultCount(init + [s], r) == |KeysWith(ResultsOf(init + [s]), r)|
  {
    LastCheck(init, s);
    forall r ensures ResultCount(init + [s], r) == |KeysWith(ResultsOf(init + [s]), r)| {
      KeysWithAdded(ResultsOf(init), s.row.key, s.result, r);
    }
  }

  lemma RowsButLast(db: Db, init: seq<CheckStep>, s: CheckStep)
    requires AreMarked(db, RowsOf(init) + [s.row])
    ensures AreMarked(db, RowsOf(init)) && IsMarked(db, s.row)
    ensures s.row.key !in RowKeys(RowsOf(init))
  {
    var all := RowsOf(init) + [s.row];
    assert all[|init|] == s.row;
    forall i | 0 <= i < |init| ensures all[i] == RowsOf(init)[i] {
    }
  }

  lemma {:induction false} ChecksReport(first: Db, steps: seq<CheckStep>, last: Db, clock: nat -> Time, grace: int)
    requires CheckChain(first, steps, last, clock, grace) && AreMarked(first, RowsOf(steps))
    ensures Report(first, last, steps, clock, grace)
    decreases |steps|
  {
    if steps != [] {
      var n := |steps| - 1;
      var init, s := steps[..n], steps[n];
      assert steps == init + [s];
      LastCheck(init, s);
      RowsButLast(first, init, s);
      CheckChainBack(first, steps, last, clock, grace);
      ChecksReport(first, init, s.before, clock, grace);
      CheckAdds(first, init, s, clock, grace);
    }
  }

  /** Every marked key of the tables is among the rows, once. */
  ghost predicate AllMarked(db: Db, rows: seq<MissingKey>) {
    AreMarked(db, rows) && forall k :: k in MarkedKeys(db) ==> exists i :: 0 <= i < |rows| && rows[i].key == k
  }

  /** These are the rows of a listing of the tables, in its order: all of them, or the first ones. */
  ghost predicate Asks(db: Db, rows: seq<MissingKey>, all: bool) {
    exists listed :: AllMarked(db, listed) && rows <= listed && (all ==> rows == listed)
  }

  lemma AsksFirst(db: Db, listed: seq<MissingKey>, rows: seq<MissingKey>, all: bool)
    requires AllMarked(db, listed) && |rows| <= |listed| && rows == listed[..|rows|] && (all ==> rows == listed)
    ensures Asks(db, rows, all)
  {
  }

  lemma {:induction false} ListedChecks(db: Db, rows: seq<MissingKey>, steps: seq<CheckStep>, all: bool, alone: bool,
                                        last: Db, clock: nat -> Time, grace: int)
    requires AllMarked(db, rows) && |steps| <= |rows| && RowsOf(steps) == rows[..|steps|] && (all ==> RowsOf(steps) == rows)
    requires alone ==> CheckChain(db, steps, last, clock, grace)
    ensures Asks(db, RowsOf(steps), all) && (alone ==> Report(db, last, steps, clock, grace))
  {
    AsksFirst(db, rows, RowsOf(steps), all);
    if alone {
      AsksMarked(db, RowsOf(steps), all);
      ChecksReport(db, steps, last, clock, grace);
    }
  }

  lemma AsksFewer(db: Db, rows: seq<MissingKey>, all: bool, some: bool)
    requires Asks(db, rows, all) && (some ==> all)
    ensures Asks(db, rows, some)
  {
  }

  /** The keys asked about are marked in the tables, and each is asked about once. */
  lemma AsksMarked(db: Db, rows: seq<MissingKey>, all: bool)
    requires Asks(db, rows, all)
    ensures AreMarked(db, rows) && (all ==> AllMarked(db, rows))
  {
    var listed :| AllMarked(db, listed) && rows <= listed && (all ==> rows == listed);
    assert forall i :: 0 <= i < |rows| ==> rows[i] == listed[i];
  }
}
