/**
 * The checks of marked keys overlap: each acts on its row when its answer comes,
 * in any order (checkMissing in internal/limitsync/limitsync.go). Whatever the
 * order, each row ends as its own answer calls for.
 */
module CheckOverlap {
  import opened Options
  import opened Database
  import opened Stores
  import opened MissingKeys
  import opened SyncOutcomes
  import opened SyncChecks

  /** A marked row as the listing had it, and what the gateway answers about its key. */
  datatype Checker = Checker(row: MissingKey, answer: Answer)

  /** A checker acts; stored says whether its statement works. */
  datatype Beat = Beat(checker: nat, now: Time, stored: bool)

  /** The tables, what each checker that is done reports, and when it wrote, if it could. */
  datatype World = World(db: Db, results: map<nat, CheckResult>, done: map<nat, Option<Time>>)

  function Start(db: Db): World {
    World(db, map[], map[])
  }

  predicate Enabled(xs: seq<Checker>, w: World, b: Beat) {
    b.checker < |xs| && b.checker !in w.done
  }

  /** The statement an answer calls for, on the tables as they are by then. */
  function Acted(db: Db, x: Checker, grace: int, now: Time): Db {
    match x.answer
    case Has => ClearKeyMissing(db, x.row.key, x.row.userId, now)
    case NotFound => RemoveMissingKey(db, x.row.key, x.row.userId, now - grace, now)
    case Unknown => db
  }

  /** What the statement says it did. */
  function Reported(db: Db, x: Checker, grace: int, now: Time): CheckResult {
    match x.answer
    case Has => if x.row.key in db.keys && db.keys[x.row.key].missingSince.Some? then CheckFound else CheckKept
    case NotFound => if MissingBefore(db, x.row.key, now - grace) then CheckRemoved else CheckKept
    case Unknown => CheckKept
  }

  function Next(xs: seq<Checker>, w: World, b: Beat, grace: int): World
    requires Enabled(xs, w, b)
  {
    var i, x := b.checker, xs[b.checker];
    if b.stored then World(Acted(w.db, x, grace, b.now), w.results[i := Reported(w.db, x, grace, b.now)], w.done[i := Some(b.now)])
    else w.(results := w.results[i := CheckKept], done := w.done[i := None])
  }

  ghost predicate IsRun(xs: seq<Checker>, w: World, beats: seq<Beat>, grace: int)
    decreases |beats|
  {
    beats == [] || (Enabled(xs, w, beats[0]) && IsRun(xs, Next(xs, w, beats[0], grace), beats[1..], grace))
  }

  ghost function After(xs: seq<Checker>, w: World, beats: seq<Beat>, grace: int): World
    requires IsRun(xs, w, beats, grace)
    decreases |beats|
  {
    if beats == [] then w else After(xs, Next(xs, w, beats[0], grace), beats[1..], grace)
  }

  // ----- The invariant -----

  /** The checkers have different rows of these tables. */
  ghost predicate AreListed(a: Db, xs: seq<Checker>) {
    && (forall i :: 0 <= i < |xs| ==> IsMarked(a, xs[i].row))
    && (forall i, j :: 0 <= i < j < |xs| ==> xs[i].row.key != xs[j].row.key)
  }

  /** What a checker's own answer calls for, at the time it writes. */
  function Called(x: Checker, grace: int, at: Option<Time>): CheckResult {
    if at.None? then CheckKept else Expected(x.answer, x.row.since, grace, at.value)
  }

  /** A checker that is done reports what its own answer calls for, and its row shows it. */
  ghost predicate HasActed(a: Db, xs: seq<Checker>, w: World, grace: int, i: nat)
    requires i in w.done
  {
    && i < |xs| && xs[i].row.key in a.keys && i in w.results
    && w.results[i] == Called(xs[i], grace, w.done[i])
    && RowLooked(a, w.db, xs[i].row.key, w.results[i])
  }

  predicate IsDone(xs: seq<Checker>, done: map<nat, Option<Time>>, k: int) {
    exists i :: i in done && i < |xs| && xs[i].row.key == k
  }

  ghost predicate Inv(a: Db, xs: seq<Checker>, w: World, grace: int) {
    && w.db.profiles == a.profiles && w.db.quotas == a.quotas && w.db.users == a.users
    && w.db.lastProfile == a.lastProfile && w.db.lastUser == a.lastUser && w.db.lastKey == a.lastKey
    && w.db.keys.Keys <= a.keys.Keys && w.results.Keys == w.done.Keys
    && (forall i :: i in w.done ==> HasActed(a, xs, w, grace, i))
    && (forall k :: k in a.keys && !IsDone(xs, w.done, k) ==> RowLooked(a, w.db, k, CheckKept))
  }

  /** A statement changes no row but its key's. */
  lemma ActIsLocal(db: Db, x: Checker, grace: int, now: Time)
    ensures var b := Acted(db, x, grace, now);
            && b.profiles == db.profiles && b.quotas == db.quotas && b.users == db.users
            && b.lastProfile == db.lastProfile && b.lastUser == db.lastUser && b.lastKey == db.lastKey
            && b.keys.Keys <= db.keys.Keys
            && forall k :: k in db.keys && k != x.row.key ==> k in b.keys && b.keys[k] == db.keys[k]
  {
  }

  /** On a row that is as it was listed, it does and reports what the answer calls for. */
  lemma ActOnListed(a: Db, db: Db, x: Checker, grace: int, now: Time)
    requires IsMarked(a, x.row) && RowLooked(a, db, x.row.key, CheckKept)
    ensures Reported(db, x, grace, now) == Called(x, grace, Some(now))
    ensures RowLooked(a, Acted(db, x, grace, now), x.row.key, Called(x, grace, Some(now)))
  {
  }

  lemma DoneOnce(xs: seq<Checker>, done: map<nat, Option<Time>>, i: nat, at: Option<Time>, k: int)
    requires i < |xs|
    ensures IsDone(xs, done[i := at], k) <==> IsDone(xs, done, k) || xs[i].row.key == k
  {
    var more := done[i := at];
    if IsDone(xs, done, k) {
      var j :| j in done && j < |xs| && xs[j].row.key == k;
      assert j in more;
    } else if xs[i].row.key == k {
      assert i in more;
    }
  }

  /** The row a checker acts on is as it was listed: only that checker acts on it. */
  lemma NotYetActed(a: Db, xs: seq<Checker>, w: World, grace: int, i: nat)
    requires AreListed(a, xs) && Inv(a, xs, w, grace) && i < |xs| && i !in w.done
    ensures RowLooked(a, w.db, xs[i].row.key, CheckKept)
  {
    assert IsMarked(a, xs[i].row);
    assert !IsDone(xs, w.done, xs[i].row.key);
  }

  lemma OtherRowLooked(a: Db, xs: seq<Checker>, w: World, b: Beat, grace: int, i: nat)
    requires AreListed(a, xs) && Inv(a, xs, w, grace) && Enabled(xs, w, b) && i in Next(xs, w, b, grace).done
    ensures HasActed(a, xs, Next(xs, w, b, grace), grace, i)
  {
    var x := xs[b.checker];
    NotYetActed(a, xs, w, grace, b.checker);
    ActIsLocal(w.db, x, grace, b.now);
    ActOnListed(a, w.db, x, grace, b.now);
    if i != b.checker {
      assert HasActed(a, xs, w, grace, i);
      assert xs[i].row.key != x.row.key;
    }
  }

  lemma BeatKeeps(a: Db, xs: seq<Checker>, w: World, b: Beat, grace: int)
    requires AreListed(a, xs) && Inv(a, xs, w, grace) && Enabled(xs, w, b)
    ensures Inv(a, xs, Next(xs, w, b, grace), grace)
  {
    var v := Next(xs, w, b, grace);
    ActIsLocal(w.db, xs[b.checker], grace, b.now);
    forall i | i in v.done ensures HasActed(a, xs, v, grace, i) {
      OtherRowLooked(a, xs, w, b, grace, i);
    }
    forall k | k in a.keys && !IsDone(xs, v.done, k) ensures RowLooked(a, v.db, k, CheckKept) {
      DoneOnce(xs, w.done, b.checker, v.done[b.checker], k);
    }
  }

  lemma {:induction false} RunKeeps(a: Db, xs: seq<Checker>, w: World, beats: seq<Beat>, grace: int)
    requires AreListed(a, xs) && Inv(a, xs, w, grace) && IsRun(xs, w, beats, grace)
    ensures Inv(a, xs, After(xs, w, beats, grace), grace)
    decreases |beats|
  {
    if beats != [] {
      BeatKeeps(a, xs, w, beats[0], grace);
      RunKeeps(a, xs, Next(xs, w, beats[0], grace), beats[1..], grace);
    }
  }

  // ----- What it means -----

  /** The results by key. */
  function Results(xs: seq<Checker>, w: World): map<int, CheckResult> {
    if xs == [] then map[]
    else
      var n := |xs| - 1;
      var init := Results(xs[..n], w);
      if n in w.results then init[xs[n].row.key := w.results[n]] else init
  }

  lemma {:induction false} ResultOfChecker(xs: seq<Checker>, w: World, k: int) returns (i: nat)
    requires k in Results(xs, w)
    ensures i < |xs| && i in w.results && xs[i].row.key == k && w.results[i] == Results(xs, w)[k]
    decreases |xs|
  {
    var n := |xs| - 1;
    if n in w.results && xs[n].row.key == k {
      i := n;
    } else {
      i := ResultOfChecker(xs[..n], w, k);
    }
  }

  lemma {:induction false} CheckerHasResult(xs: seq<Checker>, w: World, i: nat)
    requires i < |xs| && i in w.results
    ensures xs[i].row.key in Results(xs, w)
    decreases |xs|
  {
    if i < |xs| - 1 {
      CheckerHasResult(xs[..|xs| - 1], w, i);
    }
  }

  /**
   * However the checks of the listed keys interleave, and whichever of their
   * statements fail: each reports what its own answer calls for, its row ends so,
   * and no other row changes, as with checks one after the other.
   */
  lemma OverlapLooks(a: Db, xs: seq<Checker>, beats: seq<Beat>, grace: int)
    requires AreListed(a, xs) && IsRun(xs, Start(a), beats, grace)
    ensures var w := After(xs, Start(a), beats, grace);
            && Looked(a, w.db, Results(xs, w))
            && forall i :: i in w.done ==> i < |xs| && i in w.results && w.results[i] == Called(xs[i], grace, w.done[i])
  {
    RunKeeps(a, xs, Start(a), beats, grace);
    var w := After(xs, Start(a), beats, grace);
    var m := Results(xs, w);
    forall k | k in m ensures k in a.keys && a.keys[k].missingSince.Some? && RowLooked(a, w.db, k, m[k]) {
      var i := ResultOfChecker(xs, w, k);
      assert IsMarked(a, xs[i].row) && HasActed(a, xs, w, grace, i);
    }
    forall k | k in a.keys && k !in m ensures RowLooked(a, w.db, k, CheckKept) {
      NotChecked(xs, w, k);
    }
    forall i | i in w.done ensures i < |xs| && i in w.results && w.results[i] == Called(xs[i], grace, w.done[i]) {
      assert HasActed(a, xs, w, grace, i);
    }
  }

  lemma NotChecked(xs: seq<Checker>, w: World, k: int)
    requires k !in Results(xs, w) && w.results.Keys == w.done.Keys
    ensures !IsDone(xs, w.done, k)
  {
    forall i | 0 <= i < |xs| && i in w.done ensures xs[i].row.key != k {
      CheckerHasResult(xs, w, i);
    }
  }

  /** Two interleavings that write at the same times report the same and leave the same rows. */
  lemma OrderDoesNotMatter(a: Db, xs: seq<Checker>, x: seq<Beat>, y: seq<Beat>, grace: int)
    requires AreListed(a, xs) && IsRun(xs, Start(a), x, grace) && IsRun(xs, Start(a), y, grace)
    requires After(xs, Start(a), x, grace).done == After(xs, Start(a), y, grace).done
    ensures After(xs, Start(a), x, grace).results == After(xs, Start(a), y, grace).results
    ensures After(xs, Start(a), x, grace).db.(audit := []) == After(xs, Start(a), y, grace).db.(audit := [])
  {
    RunKeeps(a, xs, Start(a), x, grace);
    RunKeeps(a, xs, Start(a), y, grace);
    SameResults(a, xs, After(xs, Start(a), x, grace), After(xs, Start(a), y, grace), grace);
    SameTables(a, xs, After(xs, Start(a), x, grace), After(xs, Start(a), y, grace), grace);
  }

  lemma SameResults(a: Db, xs: seq<Checker>, v: World, w: World, grace: int)
    requires Inv(a, xs, v, grace) && Inv(a, xs, w, grace) && v.done == w.done
    ensures v.results == w.results
  {
    forall i | i in v.done ensures v.results[i] == w.results[i] {
      assert HasActed(a, xs, v, grace, i) && HasActed(a, xs, w, grace, i);
    }
  }

  lemma SameTables(a: Db, xs: seq<Checker>, v: World, w: World, grace: int)
    requires Inv(a, xs, v, grace) && Inv(a, xs, w, grace) && v.done == w.done
    ensures v.db.(audit := []) == w.db.(audit := [])
  {
    forall k | k in a.keys ensures (k in v.db.keys <==> k in w.db.keys) && (k in v.db.keys ==> v.db.keys[k] == w.db.keys[k]) {
      SameRowEitherWay(a, xs, v, w, grace, k);
    }
    assert v.db.keys == w.db.keys;
  }

  lemma SameRowEitherWay(a: Db, xs: seq<Checker>, v: World, w: World, grace: int, k: int)
    requires Inv(a, xs, v, grace) && Inv(a, xs, w, grace) && v.done == w.done && k in a.keys
    ensures (k in v.db.keys <==> k in w.db.keys) && (k in v.db.keys ==> v.db.keys[k] == w.db.keys[k])
  {
    if IsDone(xs, v.done, k) {
      var i :| i in v.done && i < |xs| && xs[i].row.key == k;
      assert HasActed(a, xs, v, grace, i) && HasActed(a, xs, w, grace, i);
    } else {
      assert RowLooked(a, v.db, k, CheckKept) && RowLooked(a, w.db, k, CheckKept);
    }
  }
}
