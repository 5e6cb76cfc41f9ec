/**
 * What a run of the limit sync makes of the tables (internal/limitsync/limitsync.go):
 * the surroundings of a run, the outcomes of its steps, and how they add up.
 */
module SyncOutcomes {
  import opened Options
  import opened KeyProvider
  import opened Database
  import opened Stores
  import opened MissingKeys

  datatype Call =
    | UpdateLimits(ref: Ref, owner: Owner, limits: Limits)
    | UpdateAlias(ref: Ref, sub: string, name: string)
    | CheckKey(ref: Ref)

  /** A call, what it was answered, and in which tick. */
  datatype Exchange = Exchange(call: Call, answer: Answer, at: nat)

  datatype Outcome = PushSynced | PushFailed | PushMarked

  datatype Tally = Tally(synced: nat, failed: nat, marked: nat, found: nat, removed: nat)

  predicate CancelledBy(at: Option<nat>, tick: nat) {
    at.Some? && at.value <= tick
  }

  /**
   * The surroundings of a run, over ticks that pass between its steps. history
   * has the tables as each tick found them, after what others wrote before it.
   */
  class Outside {
    const clock: nat -> Time
    const answers: nat -> Answer
    const fails: nat -> bool
    const cancelledAt: Option<nat>
    /** How many of the transactions of others happen in each tick. */
    const bursts: nat -> nat

    var edits: seq<Db -> Db>
    var history: seq<Db>
    var log: seq<Exchange>

    constructor (clock: nat -> Time, answers: nat -> Answer, fails: nat -> bool, cancelledAt: Option<nat>,
                 bursts: nat -> nat, edits: seq<Db -> Db>)
      ensures this.clock == clock && this.answers == answers && this.fails == fails && this.cancelledAt == cancelledAt
      ensures this.bursts == bursts && this.edits == edits && history == [] && log == []
    {
      this.clock, this.answers, this.fails, this.cancelledAt, this.bursts := clock, answers, fails, cancelledAt, bursts;
      this.edits, history, log := edits, [], [];
    }

    function Tick(): nat
      reads this`history
    {
      |history|
    }

    predicate Cancelled()
      reads this`history
    {
      CancelledBy(cancelledAt, Tick())
    }

    function Now(): Time
      reads this`history
    {
      clock(Tick())
    }

    method Ask(call: Call) returns (answer: Answer)
      modifies this`log
      ensures log == old(log) + [Exchange(call, answer, Tick())] && answer == answers(Tick())
    {
      answer := answers(Tick());
      log := log + [Exchange(call, answer, Tick())];
    }
  }

  // ----- What a push leaves behind -----

  ghost predicate During(clock: nat -> Time, from: nat, to: nat, at: Time) {
    exists i: nat :: from <= i <= to && clock(i) == at
  }

  /** The row of a stale key after it was pushed. */
  ghost predicate RowSettled(db: Db, key: int, row: KeyRow, o: Outcome, clock: nat -> Time, from: nat, to: nat)
    requires Stale(db, key)
  {
    var before := db.keys[key];
    var t := TargetOf(db, key);
    match o
    case PushSynced =>
      && t.profileId.Some? && t.profileId.value in db.profiles
      && row == before.(syncedProfile := t.profileId, syncedRev := Some(db.profiles[t.profileId.value].limitsRev),
                        syncedName := Some(t.name), syncedEmail := Some(t.email), syncError := "", syncFailedAt := None)
    case PushMarked =>
      && row.missingSince.Some? && During(clock, from, to, row.missingSince.value)
      && row == before.(missingSince := row.missingSince)
    case PushFailed =>
      && row.syncFailedAt.Some? && During(clock, from, to, row.syncFailedAt.value)
      && row == before.(syncError := row.syncError, syncFailedAt := row.syncFailedAt)
  }

  /** Only the rows of the pushed keys changed, each as its outcome says. */
  ghost predicate Settled(a: Db, b: Db, outcomes: map<int, Outcome>, clock: nat -> Time, from: nat, to: nat) {
    && b.profiles == a.profiles && b.quotas == a.quotas && b.users == a.users
    && b.lastProfile == a.lastProfile && b.lastUser == a.lastUser && b.lastKey == a.lastKey
    && b.keys.Keys == a.keys.Keys
    && (forall k :: k in a.keys && k !in outcomes ==> b.keys[k] == a.keys[k])
    && (forall k :: k in outcomes ==> Stale(a, k) && RowSettled(a, k, b.keys[k], outcomes[k], clock, from, to))
  }

  lemma RowSettledThen(a: Db, b: Db, key: int, row: KeyRow, o: Outcome, clock: nat -> Time, from: nat, mid: nat, to: nat, end: nat)
    requires Stale(b, key) && key in a.keys && a.keys[key] == b.keys[key]
    requires a.profiles == b.profiles && a.users == b.users && a.lastProfile == b.lastProfile
    requires from <= mid && to <= end && RowSettled(b, key, row, o, clock, mid, to)
    ensures Stale(a, key) && RowSettled(a, key, row, o, clock, from, end)
  {
  }

  lemma SettledThen(a: Db, b: Db, c: Db, m: map<int, Outcome>, n: map<int, Outcome>, clock: nat -> Time,
                    from: nat, mid: nat, to: nat)
    requires from <= mid <= to && m.Keys !! n.Keys
    requires Settled(a, b, m, clock, from, mid) && Settled(b, c, n, clock, mid, to)
    ensures Settled(a, c, m + n, clock, from, to)
  {
    forall k | k in m + n ensures Stale(a, k) && RowSettled(a, k, c.keys[k], (m + n)[k], clock, from, to) {
      if k in n {
        RowSettledThen(a, b, k, c.keys[k], n[k], clock, from, mid, to, to);
      } else {
        RowSettledThen(a, a, k, c.keys[k], m[k], clock, from, from, mid, to);
      }
    }
  }

  /** A pushed key is out of date afterwards exactly if its push failed. */
  lemma StaleAfter(a: Db, b: Db, outcomes: map<int, Outcome>, clock: nat -> Time, from: nat, to: nat, k: int)
    requires Settled(a, b, outcomes, clock, from, to)
    ensures Stale(b, k) <==> Stale(a, k) && (k in outcomes ==> outcomes[k] == PushFailed)
  {
  }

  predicate IsTarget(db: Db, t: SyncTarget) {
    Stale(db, t.key) && t == TargetOf(db, t.key)
  }

  function Verdict(a: Answer): Outcome {
    match a
    case Has => PushSynced
    case NotFound => PushMarked
    case Unknown => PushFailed
  }

  /** What a push says to the gateway: the limits, and the alias if they were accepted and the name is new. */
  ghost predicate Offered(t: SyncTarget, owner: Owner, limits: Limits, said: seq<Exchange>) {
    && said != [] && said[0].call == UpdateLimits(t.ref, owner, limits)
    && if said[0].answer == Has && t.syncedName != Some(t.name)
       then |said| == 2 && said[1].call == UpdateAlias(t.ref, t.sub, t.name)
       else |said| == 1
  }

  ghost predicate FailsDuring(fails: nat -> bool, from: nat, to: nat) {
    exists i: nat :: from < i <= to && fails(i)
  }

  ghost predicate NoneFails(fails: nat -> bool, from: nat, to: nat) {
    forall i: nat :: from < i <= to ==> !fails(i)
  }

  /**
   * The key is offered its owner's current limits, and the last answer decides.
   * Nothing is said only if there is no such profile or a statement failed.
   */
  ghost predicate IsPush(db: Db, t: SyncTarget, owner: Owner, said: seq<Exchange>, o: Outcome,
                         fails: nat -> bool, from: nat, to: nat) {
    if said == [] then
      o == PushFailed && (t.profileId.None? || t.profileId.value !in db.profiles || FailsDuring(fails, from, to))
    else
      && t.profileId.Some? && t.profileId.value in db.profiles
      && Offered(t, owner, LimitsOf(db, t.profileId.value), said)
      && o == Verdict(said[|said| - 1].answer)
  }

  /**
   * One push of a run: what was said for it, the tables before and after it and
   * as each of its ticks found them.
   */
  datatype PushStep = PushStep(target: SyncTarget, outcome: Outcome, attempted: bool, said: seq<Exchange>,
                               before: Db, after: Db, seen: seq<Db>, from: nat, to: nat)

  function OwnerOf(user: (string, string, string) -> Owner, t: SyncTarget): Owner {
    user(t.sub, t.name, t.email)
  }

  ghost predicate Genuine(said: seq<Exchange>, answers: nat -> Answer, from: nat, to: nat) {
    forall i :: 0 <= i < |said| ==> from <= said[i].at <= to && said[i].answer == answers(said[i].at)
  }

  /** The push found its profile: the row in its first tick, and the windows in the next. */
  predicate HasRead(s: PushStep) {
    |s.seen| >= 3 && s.target.profileId.Some? && s.target.profileId.value in s.seen[0].profiles
  }

  function LimitsRead(s: PushStep): Limits
    requires HasRead(s)
  {
    RowLimits(s.seen[0].profiles[s.target.profileId.value], WindowsOf(s.seen[1], s.target.profileId.value))
  }

  function RevRead(s: PushStep): int
    requires HasRead(s)
  {
    s.seen[0].profiles[s.target.profileId.value].limitsRev
  }

  /** Why a push failed: a statement did, the gateway refused, or there was no profile to push. */
  ghost predicate HasReason(s: PushStep, fails: nat -> bool) {
    || FailsDuring(fails, s.from, s.to)
    || (if s.said != [] then Verdict(s.said[|s.said| - 1].answer) == PushFailed
        else s.target.profileId.None? || (s.seen != [] && s.target.profileId.value !in s.seen[0].profiles))
  }

  /** What a push writes, in its last tick, to the tables that tick found. */
  ghost predicate Written(s: PushStep, rev: int, o: Outside) {
    && s.seen != []
    && var t, last, now := s.target, s.seen[|s.seen| - 1], o.clock(s.to);
    if !s.attempted || o.fails(s.to) then s.after == last
    else
      match s.outcome
      case PushSynced => t.profileId.Some? && s.after == MarkLimitsSynced(last, t.key, t.profileId.value, rev, t.name, t.email)
      case PushMarked => s.after == MarkKeyMissing(last, t.key, t.userId, now)
      case PushFailed => exists reason :: s.after == MarkLimitSyncFailed(last, t.key, reason, now)
  }

  /** The calls are made in the ticks that follow the reading. */
  predicate Timed(s: PushStep) {
    forall i :: 0 <= i < |s.said| ==> s.said[i].at == s.from + 3 + i
  }

  /** The key is offered the limits the push read, and the revision it read is what is recorded. */
  ghost predicate Tells(s: PushStep, o: Outside, user: (string, string, string) -> Owner) {
    && HasRead(s) && Timed(s)
    && Offered(s.target, OwnerOf(user, s.target), LimitsRead(s), s.said) && Written(s, RevRead(s), o)
  }

  /**
   * Whatever others write: the answers are the gateway's, a key counts as synced
   * or marked only on its word and as failed only for a reason, is left out only
   * when the context ends, and the tables get what the outcome calls for.
   */
  ghost predicate Honest(s: PushStep, o: Outside, user: (string, string, string) -> Owner) {
    match s
    case PushStep(_, outcome, attempted, said, _, _, seen, from, to) =>
      && from + |seen| == to && Genuine(said, o.answers, from, to)
      && (if said == [] then outcome == PushFailed && Written(s, 0, o) else Tells(s, o, user))
      && (if !attempted then CancelledBy(o.cancelledAt, to)
          else if outcome == PushFailed then HasReason(s, o.fails)
          else said != [] && outcome == Verdict(said[|said| - 1].answer))
  }

  lemma ToldIsHonest(s: PushStep, o: Outside, user: (string, string, string) -> Owner)
    requires s.from + |s.seen| == s.to && HasRead(s) && Timed(s)
    requires Offered(s.target, OwnerOf(user, s.target), LimitsRead(s), s.said) && Genuine(s.said, o.answers, s.from, s.to)
    requires Written(s, RevRead(s), o)
    requires if !s.attempted then CancelledBy(o.cancelledAt, s.to)
             else s.outcome == Verdict(s.said[|s.said| - 1].answer) || (s.outcome == PushFailed && FailsDuring(o.fails, s.from, s.to))
    ensures Honest(s, o, user)
  {
  }

  lemma SilentIsHonest(s: PushStep, o: Outside, user: (string, string, string) -> Owner)
    requires s.said == [] && s.outcome == PushFailed && s.from + |s.seen| == s.to && Written(s, 0, o)
    requires if s.attempted then HasReason(s, o.fails) else CancelledBy(o.cancelledAt, s.to)
    ensures Honest(s, o, user)
  {
  }

  ghost predicate AllHonest(steps: seq<PushStep>, o: Outside, user: (string, string, string) -> Owner) {
    forall i :: 0 <= i < |steps| ==> Honest(steps[i], o, user)
  }

  /** What the steps saw is what the tables were. */
  ghost predicate Traced(steps: seq<PushStep>, history: seq<Db>) {
    forall i :: 0 <= i < |steps| ==> steps[i].from <= steps[i].to <= |history| && steps[i].seen == history[steps[i].from..steps[i].to]
  }

  /** A push nobody interfered with. */
  ghost predicate StepFits(s: PushStep, o: Outside, user: (string, string, string) -> Owner) {
    match s
    case PushStep(t, outcome, attempted, said, before, after, _, from, to) =>
      && from <= to && attempted
      && (IsTarget(before, t) ==>
            && Settled(before, after, map[t.key := outcome], o.clock, from, to)
            && IsPush(before, t, OwnerOf(user, t), said, outcome, o.fails, from, to))
  }

  lemma ToldFits(s: PushStep, l: Limits, mid: nat, o: Outside, user: (string, string, string) -> Owner)
    requires s.from <= mid <= s.to && s.attempted && s.target.profileId.Some?
    requires Offered(s.target, OwnerOf(user, s.target), l, s.said) && s.outcome == Verdict(s.said[|s.said| - 1].answer)
    requires s.target.profileId.value in s.before.profiles && l == LimitsOf(s.before, s.target.profileId.value)
    requires IsTarget(s.before, s.target) ==> Settled(s.before, s.after, map[s.target.key := s.outcome], o.clock, mid, s.to)
    ensures StepFits(s, o, user)
  {
    if IsTarget(s.before, s.target) {
      SettledSooner(s.before, s.after, map[s.target.key := s.outcome], o.clock, s.from, mid, s.to);
    }
  }

  lemma SilentFits(s: PushStep, mid: nat, o: Outside, user: (string, string, string) -> Owner)
    requires s.from <= mid <= s.to && s.attempted && s.said == [] && s.outcome == PushFailed
    requires s.target.profileId.None? || s.target.profileId.value !in s.before.profiles || FailsDuring(o.fails, s.from, s.to)
    requires IsTarget(s.before, s.target) ==> Settled(s.before, s.after, map[s.target.key := s.outcome], o.clock, mid, s.to)
    ensures StepFits(s, o, user)
  {
    if IsTarget(s.before, s.target) {
      SettledSooner(s.before, s.after, map[s.target.key := s.outcome], o.clock, s.from, mid, s.to);
    }
  }

  /** All that was said in these steps, in order. */
  function Said(steps: seq<PushStep>): seq<Exchange> {
    if steps == [] then [] else Said(steps[..|steps| - 1]) + steps[|steps| - 1].said
  }

  /** What became of each key that was attempted. */
  function OutcomesOf(steps: seq<PushStep>): map<int, Outcome> {
    if steps == [] then map[]
    else
      var init, s := OutcomesOf(steps[..|steps| - 1]), steps[|steps| - 1];
      if s.attempted then init[s.target.key := s.outcome] else init
  }

  function TargetsOf(steps: seq<PushStep>): (r: seq<SyncTarget>)
    ensures |r| == |steps| && forall i :: 0 <= i < |r| ==> r[i] == steps[i].target
  {
    if steps == [] then [] else TargetsOf(steps[..|steps| - 1]) + [steps[|steps| - 1].target]
  }

  ghost predicate AllFit(steps: seq<PushStep>, o: Outside, user: (string, string, string) -> Owner) {
    forall i :: 0 <= i < |steps| ==> StepFits(steps[i], o, user)
  }

  /** Each step begins where and when the one before it ended. */
  ghost predicate Linked(first: Db, steps: seq<PushStep>, last: Db, from: nat, to: nat) {
    && (if steps == [] then first == last && from <= to
        else steps[0].before == first && from <= steps[0].from && steps[|steps| - 1].after == last && steps[|steps| - 1].to <= to)
    && forall i :: 0 <= i < |steps| - 1 ==> steps[i + 1].before == steps[i].after && steps[i].to <= steps[i + 1].from
  }

  /** The steps lead from one state of the tables to another, undisturbed. */
  ghost predicate Chain(first: Db, steps: seq<PushStep>, last: Db, o: Outside, user: (string, string, string) -> Owner,
                        from: nat, to: nat) {
    AllFit(steps, o, user) && Linked(first, steps, last, from, to)
  }

  lemma {:induction false} ChainBack(first: Db, steps: seq<PushStep>, last: Db, o: Outside,
                                     user: (string, string, string) -> Owner, from: nat, to: nat)
    requires steps != [] && Chain(first, steps, last, o, user, from, to)
    ensures var n := |steps| - 1;
            && Chain(first, steps[..n], steps[n].before, o, user, from, steps[n].from)
            && StepFits(steps[n], o, user) && steps[n].after == last && steps[n].to <= to
  {
    var n := |steps| - 1;
    if n > 0 {
      assert steps[(n - 1) + 1].before == steps[n - 1].after;
    }
  }

  lemma SplitLast<T>(s: seq<T>)
    requires s != []
    ensures s == s[..|s| - 1] + [s[|s| - 1]]
  {
  }

  lemma TakeAll<T>(s: seq<T>)
    ensures s[..|s|] == s
  {
  }

  lemma {:induction false} LastStep(steps: seq<PushStep>, s: PushStep)
    ensures Said(steps + [s]) == Said(steps) + s.said
    ensures OutcomesOf(steps + [s]) == if s.attempted then OutcomesOf(steps)[s.target.key := s.outcome] else OutcomesOf(steps)
    ensures TargetsOf(steps + [s]) == TargetsOf(steps) + [s.target]
  {
    assert (steps + [s])[..|steps|] == steps;
  }

  lemma {:induction false} ChainGrows(first: Db, steps: seq<PushStep>, s: PushStep, o: Outside, user: (string, string, string) -> Owner, from: nat)
    requires Chain(first, steps, s.before, o, user, from, s.from) && StepFits(s, o, user)
    ensures Chain(first, steps + [s], s.after, o, user, from, s.to)
  {
    var all := steps + [s];
    forall i | 0 <= i < |all| ensures StepFits(all[i], o, user) {
      assert i < |steps| ==> all[i] == steps[i];
    }
  }

  // ----- Batches -----

  function KeysOf(batch: seq<SyncTarget>): set<int> {
    set t | t in batch :: t.key
  }

  lemma KeysOfLast(batch: seq<SyncTarget>, t: SyncTarget)
    ensures KeysOf(batch + [t]) == KeysOf(batch) + {t.key}
  {
  }

  lemma HeadKey(batch: seq<SyncTarget>)
    ensures batch != [] ==> batch[0].key in KeysOf(batch)
  {
  }

  ghost predicate AreTargets(db: Db, batch: seq<SyncTarget>) {
    && (forall i :: 0 <= i < |batch| ==> IsTarget(db, batch[i]))
    && (forall i, j :: 0 <= i < j < |batch| ==> batch[i].key != batch[j].key)
  }

  /** A target read before others were pushed is still up to date. */
  lemma TargetStays(a: Db, b: Db, outcomes: map<int, Outcome>, clock: nat -> Time, from: nat, to: nat, t: SyncTarget)
    requires Settled(a, b, outcomes, clock, from, to) && IsTarget(a, t) && t.key !in outcomes
    ensures IsTarget(b, t)
  {
  }

  lemma {:induction false} PushedKeys(steps: seq<PushStep>)
    requires forall i :: 0 <= i < |steps| ==> steps[i].attempted
    ensures OutcomesOf(steps).Keys == KeysOf(TargetsOf(steps))
  {
    if steps != [] {
      var init, s := steps[..|steps| - 1], steps[|steps| - 1];
      assert steps == init + [s];
      PushedKeys(init);
      LastStep(init, s);
      KeysOfLast(TargetsOf(init), s.target);
    }
  }

  /** The log has grown by what these steps said, and the history has what they saw. */
  ghost predicate Recounts(before: seq<Exchange>, log: seq<Exchange>, steps: seq<PushStep>, o: Outside,
                           user: (string, string, string) -> Owner, history: seq<Db>) {
    log == before + Said(steps) && AllHonest(steps, o, user) && Traced(steps, history)
  }

  lemma RecountsNothing(log: seq<Exchange>, o: Outside, user: (string, string, string) -> Owner, history: seq<Db>)
    ensures Recounts(log, log, [], o, user, history)
  {
    assert log + [] == log;
  }

  lemma TracedLater(steps: seq<PushStep>, h: seq<Db>, later: seq<Db>)
    requires Traced(steps, h) && h <= later
    ensures Traced(steps, later)
  {
    forall i | 0 <= i < |steps| ensures steps[i].seen == later[steps[i].from..steps[i].to] {
      assert steps[i].seen == h[steps[i].from..steps[i].to];
    }
  }

  lemma {:induction false} RecountsThen(before: seq<Exchange>, log: seq<Exchange>, after: seq<Exchange>, x: seq<PushStep>,
                                        y: seq<PushStep>, o: Outside, user: (string, string, string) -> Owner,
                                        h: seq<Db>, later: seq<Db>)
    requires Recounts(before, log, x, o, user, h) && Recounts(log, after, y, o, user, later) && h <= later
    ensures Recounts(before, after, x + y, o, user, later)
  {
    StepsJoin(x, y);
    Associative(before, Said(x), Said(y));
    HonestJoin(x, y, o, user);
    TracedLater(x, h, later);
    TracedJoin(x, y, later);
  }

  lemma Associative<T>(x: seq<T>, y: seq<T>, z: seq<T>)
    ensures (x + y) + z == x + (y + z)
  {
  }

  lemma {:induction false} HonestJoin(x: seq<PushStep>, y: seq<PushStep>, o: Outside, user: (string, string, string) -> Owner)
    requires AllHonest(x, o, user) && AllHonest(y, o, user)
    ensures AllHonest(x + y, o, user)
  {
    var z := x + y;
    forall i | 0 <= i < |z| ensures Honest(z[i], o, user) {
      if i < |x| {
        assert z[i] == x[i];
      } else {
        assert z[i] == y[i - |x|];
      }
    }
  }

  lemma {:induction false} TracedJoin(x: seq<PushStep>, y: seq<PushStep>, h: seq<Db>)
    requires Traced(x, h) && Traced(y, h)
    ensures Traced(x + y, h)
  {
  }

  lemma {:induction false} RecountsStep(before: seq<Exchange>, log: seq<Exchange>, after: seq<Exchange>, steps: seq<PushStep>,
                                        s: PushStep, o: Outside, user: (string, string, string) -> Owner,
                                        h: seq<Db>, later: seq<Db>)
    requires Recounts(before, log, steps, o, user, h) && after == log + s.said && Honest(s, o, user)
    requires h <= later && s.from <= s.to == |later| && s.seen == later[s.from..]
    ensures Recounts(before, after, steps + [s], o, user, later)
    ensures OutcomesOf(steps + [s]) == if s.attempted then OutcomesOf(steps)[s.target.key := s.outcome] else OutcomesOf(steps)
    ensures TargetsOf(steps + [s]) == TargetsOf(steps) + [s.target]
  {
    LastStep(steps, s);
    TailIs(later, s.from);
    Associative(before, Said(steps), s.said);
    TracedLater(steps, h, later);
    HonestJoin(steps, [s], o, user);
    TracedJoin(steps, [s], later);
  }

  lemma TailIs<T>(s: seq<T>, i: nat)
    requires i <= |s|
    ensures s[i..] == s[i..|s|]
  {
  }

  /** The query for keys to push has that target in these tables. */
  ghost predicate IsDue(db: Db, t: SyncTarget, now: Time, since: Time) {
    IsTarget(db, t) && t.key in Eligible(db, now, since)
  }

  /** The query had the step's target in the tables some tick found, after the run began and before the step. */
  ghost predicate WasDue(s: PushStep, clock: nat -> Time, history: seq<Db>, start: Time, begun: nat) {
    exists j :: begun <= j < |history| && j < s.from && IsDue(history[j], s.target, clock(j + 1), start)
  }

  /** Every key pushed was read, with its ref, its owner and its profile, from tables the run found. */
  ghost predicate WereDue(steps: seq<PushStep>, clock: nat -> Time, history: seq<Db>, start: Time, begun: nat) {
    forall i :: 0 <= i < |steps| ==> WasDue(steps[i], clock, history, start, begun)
  }

  lemma WasDueLater(s: PushStep, clock: nat -> Time, h: seq<Db>, later: seq<Db>, start: Time, begun: nat, asked: nat)
    requires WasDue(s, clock, h, start, asked) && begun <= asked && h <= later
    ensures WasDue(s, clock, later, start, begun)
  {
    var j :| asked <= j < |h| && j < s.from && IsDue(h[j], s.target, clock(j + 1), start);
    assert later[j] == h[j];
  }

  lemma {:induction false} DueThen(x: seq<PushStep>, y: seq<PushStep>, clock: nat -> Time, h: seq<Db>, later: seq<Db>,
                                   start: Time, begun: nat, asked: nat)
    requires WereDue(x, clock, h, start, begun) && WereDue(y, clock, later, start, asked) && begun <= asked && h <= later
    ensures WereDue(x + y, clock, later, start, begun)
  {
    var all := x + y;
    forall i | 0 <= i < |all| ensures WasDue(all[i], clock, later, start, begun) {
      if i < |x| {
        assert all[i] == x[i];
        WasDueLater(x[i], clock, h, later, start, begun, begun);
      } else {
        assert all[i] == y[i - |x|];
        WasDueLater(y[i - |x|], clock, later, later, start, begun, asked);
      }
    }
  }

  /** The targets the query has, less those whose key failed before. */
  function Without(rows: seq<SyncTarget>, failed: set<int>): seq<SyncTarget> {
    if rows == [] then []
    else
      var init, t := Without(rows[..|rows| - 1], failed), rows[|rows| - 1];
      if t.key in failed then init else init + [t]
  }

  lemma {:induction false} WithoutNext(rows: seq<SyncTarget>, failed: set<int>, i: nat)
    requires i < |rows|
    ensures Without(rows[..i + 1], failed) == if rows[i].key in failed then Without(rows[..i], failed) else Without(rows[..i], failed) + [rows[i]]
  {
    assert rows[..i + 1][..i] == rows[..i];
  }

  lemma {:induction false} WithoutKeys(rows: seq<SyncTarget>, failed: set<int>)
    ensures KeysOf(Without(rows, failed)) == KeysOf(rows) - failed
    ensures forall t :: t in Without(rows, failed) ==> t in rows
    decreases |rows|
  {
    if rows != [] {
      var n := |rows| - 1;
      WithoutKeys(rows[..n], failed);
      SplitLast(rows);
      KeysOfLast(rows[..n], rows[n]);
      KeysOfLast(Without(rows[..n], failed), rows[n]);
    }
  }

  lemma {:induction false} WithoutDistinct(rows: seq<SyncTarget>, failed: set<int>)
    requires DistinctKeys(rows)
    ensures DistinctKeys(Without(rows, failed))
    decreases |rows|
  {
    if rows != [] {
      var n := |rows| - 1;
      WithoutDistinct(rows[..n], failed);
      WithoutKeys(rows[..n], failed);
      assert forall t :: t in rows[..n] ==> t.key != rows[n].key;
    }
  }

  ghost predicate DistinctKeys(batch: seq<SyncTarget>) {
    forall i, j :: 0 <= i < j < |batch| ==> batch[i].key != batch[j].key
  }

  /** What the query answers, less the keys that failed before. */
  ghost predicate IsUntried(db: Db, now: Time, start: Time, limit: nat, failed: set<int>, untried: seq<SyncTarget>) {
    exists rows :: IsBatch(db, now, start, limit, rows) && untried == Without(rows, failed)
  }

  lemma {:induction false} UntriedFacts(db: Db, now: Time, start: Time, limit: nat, failed: set<int>, untried: seq<SyncTarget>)
    requires IsUntried(db, now, start, limit, failed, untried)
    ensures AreTargets(db, untried) && DistinctKeys(untried)
    ensures KeysOf(untried) <= Eligible(db, now, start) && KeysOf(untried) !! failed
  {
    var rows :| IsBatch(db, now, start, limit, rows) && untried == Without(rows, failed);
    WithoutKeys(rows, failed);
    WithoutDistinct(rows, failed);
    BatchTargets(db, now, start, limit, rows, untried);
  }

  lemma {:induction false} NoneUntried(db: Db, now: Time, start: Time, limit: nat, failed: set<int>, untried: seq<SyncTarget>)
    requires IsUntried(db, now, start, limit, failed, untried)
    ensures untried == [] ==> CaughtUp(db, now, start, limit, failed)
  {
    var rows :| IsBatch(db, now, start, limit, rows) && untried == Without(rows, failed);
    WithoutKeys(rows, failed);
    if untried == [] {
      forall k | k in KeysOf(rows) ensures k in failed {
        assert k !in KeysOf(untried);
      }
    }
  }

  /** A batch read from the tables of one tick, and pushed after it. */
  lemma {:induction false} BatchWasDue(steps: seq<PushStep>, untried: seq<SyncTarget>, clock: nat -> Time, history: seq<Db>,
                                       start: Time, asked: nat, to: nat)
    requires 0 < asked <= |history| && Within(steps, asked, to) && TargetsOf(steps) <= untried
    requires AreTargets(history[asked - 1], untried) && KeysOf(untried) <= Eligible(history[asked - 1], clock(asked), start)
    ensures WereDue(steps, clock, history, start, asked - 1)
  {
    forall i | 0 <= i < |steps| ensures WasDue(steps[i], clock, history, start, asked - 1) {
      assert steps[i].target == TargetsOf(steps)[i] == untried[i] && untried[i] in untried;
      assert untried[i].key in KeysOf(untried);
      assert IsDue(history[asked - 1], steps[i].target, clock(asked - 1 + 1), start);
    }
  }

  /** The targets are those the query answers, less the keys that failed before: all of them, or the first ones. */
  ghost predicate Takes(db: Db, now: Time, start: Time, limit: nat, failed: set<int>, targets: seq<SyncTarget>, all: bool) {
    exists untried :: IsUntried(db, now, start, limit, failed, untried) && targets <= untried && (all ==> targets == untried)
  }

  /** What was taken of the untried; and if there are none, the run has caught up. */
  lemma {:induction false} TakesFirst(db: Db, now: Time, start: Time, limit: nat, failed: set<int>, untried: seq<SyncTarget>,
                                      targets: seq<SyncTarget>, all: bool)
    requires IsUntried(db, now, start, limit, failed, untried) && |targets| <= |untried| && targets == untried[..|targets|]
    requires all ==> targets == untried
    ensures Takes(db, now, start, limit, failed, targets, all)
    ensures untried == [] ==> CaughtUp(db, now, start, limit, failed)
  {
    NoneUntried(db, now, start, limit, failed, untried);
  }

  lemma {:induction false} TakenWereDue(db: Db, steps: seq<PushStep>, clock: nat -> Time, history: seq<Db>,
                                        start: Time, limit: nat, failed: set<int>, all: bool, asked: nat, to: nat)
    requires 0 < asked <= |history| && db == history[asked - 1] && Within(steps, asked, to)
    requires Takes(db, clock(asked), start, limit, failed, TargetsOf(steps), all)
    ensures WereDue(steps, clock, history, start, asked - 1)
    ensures DistinctKeys(TargetsOf(steps)) && KeysOf(TargetsOf(steps)) !! failed
  {
    var untried :| IsUntried(db, clock(asked), start, limit, failed, untried) && TargetsOf(steps) <= untried;
    UntriedFacts(db, clock(asked), start, limit, failed, untried);
    BatchWasDue(steps, untried, clock, history, start, asked, to);
    FirstTargets(TargetsOf(steps), untried);
  }

  lemma FirstTargets(targets: seq<SyncTarget>, batch: seq<SyncTarget>)
    requires targets <= batch && DistinctKeys(batch)
    ensures DistinctKeys(targets) && KeysOf(targets) <= KeysOf(batch)
  {
    forall t | t in targets ensures t in batch {
      var i :| 0 <= i < |targets| && targets[i] == t;
      assert batch[i] == t;
    }
  }

  /** A batch nobody interfered with: its keys are settled and told of, and there is less left to do. */
  lemma {:induction false} TakenSettle(db: Db, steps: seq<PushStep>, last: Db, o: Outside, user: (string, string, string) -> Owner,
                                       start: Time, limit: nat, failed: set<int>, from: nat, asked: nat, to: nat)
    requires from <= asked && Takes(db, o.clock(asked), start, limit, failed, TargetsOf(steps), true)
    requires steps != [] && Chain(db, steps, last, o, user, asked, to)
    ensures Settled(db, last, OutcomesOf(steps), o.clock, from, to) && Told(db, steps, o, user)
    ensures OutcomesOf(steps).Keys !! failed && OutcomesOf(steps).Keys <= Eligible(db, o.clock(asked), start)
    ensures StaleKeys(last) - (failed + KeysWith(OutcomesOf(steps), PushFailed)) < StaleKeys(db) - failed
  {
    UntriedFacts(db, o.clock(asked), start, limit, failed, TargetsOf(steps));
    BatchSettles(db, steps, last, o, user, asked, to);
    HeadKey(TargetsOf(steps));
    assert TargetsOf(steps)[0].key in OutcomesOf(steps);
    BatchShrinks(db, last, OutcomesOf(steps), o.clock, asked, to, failed);
    SettledSooner(db, last, OutcomesOf(steps), o.clock, from, asked, to);
  }

  /** The step of a key that was due, told in full. */
  ghost predicate StepTold(db: Db, s: PushStep, o: Outside, user: (string, string, string) -> Owner) {
    match s
    case PushStep(t, outcome, attempted, said, _, _, _, from, to) =>
      IsTarget(db, t) && attempted && IsPush(db, t, OwnerOf(user, t), said, outcome, o.fails, from, to)
  }

  /** Every step is the only one of its key, and says to the gateway what the tables call for. */
  ghost predicate Told(db: Db, steps: seq<PushStep>, o: Outside, user: (string, string, string) -> Owner) {
    && (forall i :: 0 <= i < |steps| ==> StepTold(db, steps[i], o, user))
    && (forall i, j :: 0 <= i < j < |steps| ==> steps[i].target.key != steps[j].target.key)
  }

  /** A step told of later tables is told of earlier ones in which its key was not yet pushed. */
  lemma StepToldBefore(a: Db, b: Db, m: map<int, Outcome>, s: PushStep, o: Outside, user: (string, string, string) -> Owner,
                       from: nat, mid: nat)
    requires Settled(a, b, m, o.clock, from, mid) && s.target.key !in m && StepTold(b, s, o, user)
    ensures StepTold(a, s, o, user)
  {
  }

  /** The steps took place within those ticks. */
  predicate Within(steps: seq<PushStep>, from: nat, to: nat) {
    forall i :: 0 <= i < |steps| ==> from <= steps[i].from <= steps[i].to <= to
  }

  lemma {:induction false} ChainWithin(first: Db, steps: seq<PushStep>, last: Db, o: Outside,
                                       user: (string, string, string) -> Owner, from: nat, to: nat)
    requires Chain(first, steps, last, o, user, from, to)
    ensures from <= to && Within(steps, from, to)
    decreases |steps|
  {
    if steps != [] {
      var n := |steps| - 1;
      ChainBack(first, steps, last, o, user, from, to);
      ChainWithin(first, steps[..n], steps[n].before, o, user, from, steps[n].from);
      assert forall i :: 0 <= i < n ==> steps[i] == steps[..n][i];
    }
  }

  /** Pushing a batch settles its keys and tells the gateway about each one. */
  lemma {:induction false} BatchSettles(first: Db, steps: seq<PushStep>, last: Db, o: Outside,
                                        user: (string, string, string) -> Owner, from: nat, to: nat)
    requires Chain(first, steps, last, o, user, from, to) && AreTargets(first, TargetsOf(steps))
    ensures from <= to && Settled(first, last, OutcomesOf(steps), o.clock, from, to) && Told(first, steps, o, user)
    ensures OutcomesOf(steps).Keys == KeysOf(TargetsOf(steps))
    decreases |steps|
  {
    if steps != [] {
      var n := |steps| - 1;
      ChainBack(first, steps, last, o, user, from, to);
      ChainWithin(first, steps, last, o, user, from, to);
      TargetsBack(first, steps);
      BatchSettles(first, steps[..n], steps[n].before, o, user, from, steps[n].from);
      BatchGrows(first, steps[..n], steps[n], o, user, from, to);
      SplitLast(steps);
    }
  }

  lemma {:induction false} TargetsBack(db: Db, steps: seq<PushStep>)
    requires steps != [] && AreTargets(db, TargetsOf(steps))
    ensures var init, s := steps[..|steps| - 1], steps[|steps| - 1];
            && AreTargets(db, TargetsOf(init)) && IsTarget(db, s.target) && s.target.key !in KeysOf(TargetsOf(init))
  {
    var n := |steps| - 1;
    SplitLast(steps);
    LastStep(steps[..n], steps[n]);
    TargetsButLast(db, steps[..n], steps[n]);
  }

  lemma {:induction false} BatchGrows(first: Db, init: seq<PushStep>, s: PushStep, o: Outside,
                                      user: (string, string, string) -> Owner, from: nat, to: nat)
    requires from <= s.from && s.to <= to
    requires Settled(first, s.before, OutcomesOf(init), o.clock, from, s.from) && Told(first, init, o, user)
    requires OutcomesOf(init).Keys == KeysOf(TargetsOf(init)) && s.target.key !in KeysOf(TargetsOf(init))
    requires StepFits(s, o, user) && IsTarget(first, s.target)
    ensures Settled(first, s.after, OutcomesOf(init + [s]), o.clock, from, to) && Told(first, init + [s], o, user)
    ensures OutcomesOf(init + [s]).Keys == KeysOf(TargetsOf(init + [s]))
  {
    LastStep(init, s);
    LastSettled(first, init, s, o, user, from, to);
    LastTold(first, init, s, o, user, from);
    KeysOfLast(TargetsOf(init), s.target);
  }

  lemma TargetsButLast(db: Db, init: seq<PushStep>, s: PushStep)
    requires AreTargets(db, TargetsOf(init) + [s.target])
    ensures AreTargets(db, TargetsOf(init)) && IsTarget(db, s.target)
    ensures s.target.key !in KeysOf(TargetsOf(init))
  {
    var all := TargetsOf(init) + [s.target];
    assert all[|init|] == s.target;
    forall i | 0 <= i < |init| ensures all[i] == TargetsOf(init)[i] {
    }
  }

  lemma {:induction false} LastSettled(first: Db, init: seq<PushStep>, s: PushStep, o: Outside,
                                       user: (string, string, string) -> Owner, from: nat, to: nat)
    requires from <= s.from && Settled(first, s.before, OutcomesOf(init), o.clock, from, s.from)
    requires StepFits(s, o, user) && IsTarget(first, s.target) && s.target.key !in OutcomesOf(init) && s.to <= to
    ensures Settled(first, s.after, OutcomesOf(init)[s.target.key := s.outcome], o.clock, from, to)
  {
    var m := OutcomesOf(init);
    TargetStays(first, s.before, m, o.clock, from, s.from, s.target);
    SettledThen(first, s.before, s.after, m, map[s.target.key := s.outcome], o.clock, from, s.from, s.to);
    assert m[s.target.key := s.outcome] == m + map[s.target.key := s.outcome];
    SettledLonger(first, s.after, m[s.target.key := s.outcome], o.clock, from, s.to, to);
  }

  lemma {:induction false} LastTold(first: Db, init: seq<PushStep>, s: PushStep, o: Outside,
                                    user: (string, string, string) -> Owner, from: nat)
    requires Settled(first, s.before, OutcomesOf(init), o.clock, from, s.from) && Told(first, init, o, user)
    requires StepFits(s, o, user) && IsTarget(first, s.target) && s.target.key !in OutcomesOf(init)
    requires s.target.key !in KeysOf(TargetsOf(init))
    ensures Told(first, init + [s], o, user)
  {
    TargetStays(first, s.before, OutcomesOf(init), o.clock, from, s.from, s.target);
    StepToldBefore(first, s.before, OutcomesOf(init), s, o, user, from, s.from);
    forall i | 0 <= i < |init| ensures init[i].target.key != s.target.key {
      assert TargetsOf(init)[i] in TargetsOf(init);
    }
  }

  lemma SettledLonger(a: Db, b: Db, m: map<int, Outcome>, clock: nat -> Time, from: nat, mid: nat, to: nat)
    requires Settled(a, b, m, clock, from, mid) && mid <= to
    ensures Settled(a, b, m, clock, from, to)
  {
    forall k | k in m ensures Stale(a, k) && RowSettled(a, k, b.keys[k], m[k], clock, from, to) {
      RowSettledThen(a, a, k, b.keys[k], m[k], clock, from, from, mid, to);
    }
  }

  lemma SettledSooner(a: Db, b: Db, m: map<int, Outcome>, clock: nat -> Time, from: nat, mid: nat, to: nat)
    requires Settled(a, b, m, clock, mid, to) && from <= mid
    ensures Settled(a, b, m, clock, from, to)
  {
    forall k | k in m ensures Stale(a, k) && RowSettled(a, k, b.keys[k], m[k], clock, from, to) {
      RowSettledThen(a, a, k, b.keys[k], m[k], clock, from, mid, to, to);
    }
  }

  lemma {:induction false} OutcomeKeys(steps: seq<PushStep>, batch: seq<SyncTarget>)
    requires |steps| <= |batch| && TargetsOf(steps) == batch[..|steps|]
    ensures OutcomesOf(steps).Keys <= KeysOf(batch)
  {
    if steps != [] {
      var n := |steps| - 1;
      assert steps == steps[..n] + [steps[n]];
      LastStep(steps[..n], steps[n]);
      assert TargetsOf(steps)[..n] == TargetsOf(steps[..n]);
      OutcomeKeys(steps[..n], batch);
      assert batch[n] == steps[n].target;
    }
  }

  /** Two batches of a run, told of the tables the run began with. */
  lemma {:induction false} ToldThen(a: Db, b: Db, x: seq<PushStep>, y: seq<PushStep>, o: Outside, user: (string, string, string) -> Owner,
                 from: nat, mid: nat)
    requires Told(a, x, o, user) && Told(b, y, o, user) && Settled(a, b, OutcomesOf(x), o.clock, from, mid)
    requires OutcomesOf(x).Keys !! OutcomesOf(y).Keys
    ensures Told(a, x + y, o, user) && OutcomesOf(x + y) == OutcomesOf(x) + OutcomesOf(y)
  {
    StepsJoin(x, y);
    PushedKeys(x);
    PushedKeys(y);
    forall i | 0 <= i < |y| ensures y[i].target.key !in OutcomesOf(x) && StepTold(a, y[i], o, user) {
      assert TargetsOf(y)[i] == y[i].target && y[i].target.key in KeysOf(TargetsOf(y));
      StepToldBefore(a, b, OutcomesOf(x), y[i], o, user, from, mid);
    }
    forall i | 0 <= i < |x| ensures x[i].target.key in OutcomesOf(x) {
      assert TargetsOf(x)[i] == x[i].target && x[i].target.key in KeysOf(TargetsOf(x));
    }
  }

  lemma {:induction false} StepsJoin(x: seq<PushStep>, y: seq<PushStep>)
    ensures Said(x + y) == Said(x) + Said(y) && OutcomesOf(x + y) == OutcomesOf(x) + OutcomesOf(y)
    decreases |y|
  {
    if y == [] {
      assert x + y == x;
    } else {
      var n := |y| - 1;
      assert (x + y)[..|x| + n] == x + y[..n];
      StepsJoin(x, y[..n]);
    }
  }

  /** The keys whose push failed in one of the steps. */
  function FailedIn(steps: seq<PushStep>): set<int> {
    set i | 0 <= i < |steps| && steps[i].attempted && steps[i].outcome == PushFailed :: steps[i].target.key
  }

  function KeysWith<T(==)>(m: map<int, T>, v: T): set<int> {
    set k | k in m && m[k] == v
  }

  lemma KeysWithAdded<T>(m: map<int, T>, k: int, v: T, w: T)
    requires k !in m
    ensures |KeysWith(m[k := v], w)| == |KeysWith(m, w)| + if v == w then 1 else 0
  {
    assert KeysWith(m[k := v], w) == KeysWith(m, w) + if v == w then {k} else {};
  }

  lemma KeysWithUnion<T>(m: map<int, T>, n: map<int, T>, w: T)
    requires m.Keys !! n.Keys
    ensures KeysWith(m + n, w) == KeysWith(m, w) + KeysWith(n, w) && |KeysWith(m + n, w)| == |KeysWith(m, w)| + |KeysWith(n, w)|
  {
    assert KeysWith(m + n, w) == KeysWith(m, w) + KeysWith(n, w);
  }

  /** What the outcomes add up to. */
  predicate Counted(t: Tally, outcomes: map<int, Outcome>) {
    && t.synced == |KeysWith(outcomes, PushSynced)|
    && t.failed == |KeysWith(outcomes, PushFailed)|
    && t.marked == |KeysWith(outcomes, PushMarked)|
  }

  function StaleKeys(db: Db): set<int> {
    set k | k in db.keys && Stale(db, k)
  }

  /** A batch that was pushed leaves less to do. */
  lemma BatchShrinks(a: Db, b: Db, outcomes: map<int, Outcome>, clock: nat -> Time, from: nat, to: nat, failed: set<int>)
    requires Settled(a, b, outcomes, clock, from, to) && outcomes.Keys !! failed && (exists k :: k in outcomes)
    ensures StaleKeys(b) - (failed + KeysWith(outcomes, PushFailed)) < StaleKeys(a) - failed
  {
    forall k ensures k in StaleKeys(b) <==> k in StaleKeys(a) && (k in outcomes ==> outcomes[k] == PushFailed) {
      StaleAfter(a, b, outcomes, clock, from, to, k);
    }
    var k :| k in outcomes;
    assert k in StaleKeys(a) - failed;
    assert k !in StaleKeys(b) - (failed + KeysWith(outcomes, PushFailed));
  }

  /** The clock never shows a time before the one it showed first. */
  ghost predicate NotBefore(clock: nat -> Time, from: nat, to: nat) {
    forall i: nat :: from <= i <= to ==> clock(from) <= clock(i)
  }

  ghost predicate NoneExpire(db: Db, clock: nat -> Time, from: nat, to: nat) {
    forall k, i: nat :: k in db.keys && from <= i <= to && db.keys[k].expiresAt > clock(from) ==> db.keys[k].expiresAt > clock(i)
  }

  /** The clock did not go back, and no key expired meanwhile. */
  ghost predicate Calm(db: Db, clock: nat -> Time, from: nat, to: nat) {
    NotBefore(clock, from, to) && NoneExpire(db, clock, from, to)
  }

  lemma BatchEligible(a: Db, b: Db, m: map<int, Outcome>, clock: nat -> Time, from: nat, to: nat, now: Time, k: int)
    requires Settled(a, b, m, clock, from, to) && clock(from) <= now
    requires k in Eligible(b, now, clock(from)) && k !in m
    ensures k in Eligible(a, clock(from), clock(from))
  {
  }

  /** Once the query finds nothing new, every key there was to push has been tried. */
  lemma Exhausted(a: Db, b: Db, m: map<int, Outcome>, clock: nat -> Time, from: nat, to: nat, limit: nat, batch: seq<SyncTarget>)
    requires Settled(a, b, m, clock, from, to) && from <= to && Calm(a, clock, from, to)
    requires IsBatch(b, clock(to), clock(from), limit, batch) && limit > 0
    requires KeysOf(batch) <= KeysWith(m, PushFailed)
    ensures Eligible(a, clock(from), clock(from)) <= m.Keys
  {
    forall k ensures k in KeysWith(m, PushFailed) ==> k !in Eligible(b, clock(to), clock(from)) {
      if k in KeysWith(m, PushFailed) {
        FailedNotEligible(a, b, m, clock, from, to, k);
      }
    }
    assert KeysOf(batch) == {};
    HeadKey(batch);
    forall k | k in Eligible(a, clock(from), clock(from)) && k !in m ensures k in Eligible(b, clock(to), clock(from)) {
    }
  }

  lemma FailedNotEligible(a: Db, b: Db, m: map<int, Outcome>, clock: nat -> Time, from: nat, to: nat, k: int)
    requires Settled(a, b, m, clock, from, to) && NotBefore(clock, from, to) && k in KeysWith(m, PushFailed)
    ensures forall now :: k !in Eligible(b, now, clock(from))
  {
    assert RowSettled(a, k, b.keys[k], m[k], clock, from, to);
  }

  lemma BatchTargets(db: Db, now: Time, since: Time, limit: nat, batch: seq<SyncTarget>, some: seq<SyncTarget>)
    requires IsBatch(db, now, since, limit, batch)
    requires forall i :: 0 <= i < |some| ==> some[i] in batch
    requires forall i, j :: 0 <= i < j < |some| ==> some[i].key != some[j].key
    ensures AreTargets(db, some) && KeysOf(some) <= Eligible(db, now, since)
  {
  }

  /** The query, asked now, has no key that did not fail in this run: all of them, or as many as fit a batch. */
  ghost predicate CaughtUp(db: Db, now: Time, start: Time, limit: nat, failures: set<int>) {
    exists batch :: IsBatch(db, now, start, limit, batch) && KeysOf(batch) <= failures
  }

  /** A round that finds nothing new leaves the progress as it is, and completes it if the run was calm. */
  lemma NothingNew(a: Db, b: Db, t: Tally, steps: seq<PushStep>, failed: set<int>, o: Outside,
                   user: (string, string, string) -> Owner, from: nat, mid: nat, to: nat, limit: nat)
    requires from <= mid <= to && limit > 0 && Progress(a, b, t, steps, failed, o, user, from, mid)
    requires CaughtUp(b, o.clock(to), o.clock(from), limit, failed)
    ensures Progress(a, b, t, steps, failed, o, user, from, to)
    ensures Calm(a, o.clock, from, to) ==> OutcomesOf(steps).Keys == Eligible(a, o.clock(from), o.clock(from))
  {
    var m := OutcomesOf(steps);
    SettledLonger(a, b, m, o.clock, from, mid, to);
    assert NotBefore(o.clock, from, to) ==> NotBefore(o.clock, from, mid);
    if Calm(a, o.clock, from, to) {
      var batch :| IsBatch(b, o.clock(to), o.clock(from), limit, batch) && KeysOf(batch) <= failed;
      Exhausted(a, b, m, o.clock, from, to, limit, batch);
    }
  }

  /** How many pushes came out that way. */
  function Count(steps: seq<PushStep>, o: Outcome): nat {
    if steps == [] then 0
    else
      var s := steps[|steps| - 1];
      Count(steps[..|steps| - 1], o) + if s.attempted && s.outcome == o then 1 else 0
  }

  /** No key is pushed again after its push failed. */
  ghost predicate FailOnce(steps: seq<PushStep>) {
    forall i, j :: 0 <= i < j < |steps| && steps[i].attempted && steps[i].outcome == PushFailed ==> steps[j].target.key != steps[i].target.key
  }

  /** The counters are the number of pushes that came out each way; failed has the keys of those that failed. */
  ghost predicate Tallied(t: Tally, failed: set<int>, steps: seq<PushStep>) {
    && t.synced == Count(steps, PushSynced) && t.failed == Count(steps, PushFailed) && t.marked == Count(steps, PushMarked)
    && failed == FailedIn(steps) && |failed| == t.failed && FailOnce(steps)
  }

  lemma {:induction false} CountJoin(x: seq<PushStep>, y: seq<PushStep>, o: Outcome)
    ensures Count(x + y, o) == Count(x, o) + Count(y, o)
    decreases |y|
  {
    if y == [] {
      assert x + y == x;
    } else {
      var n := |y| - 1;
      assert (x + y)[..|x| + n] == x + y[..n];
      CountJoin(x, y[..n], o);
    }
  }

  lemma {:induction false} CountInBatch(steps: seq<PushStep>, o: Outcome)
    requires DistinctKeys(TargetsOf(steps))
    ensures Count(steps, o) == |KeysWith(OutcomesOf(steps), o)|
    decreases |steps|
  {
    if steps != [] {
      var n := |steps| - 1;
      DistinctButLast(steps);
      CountInBatch(steps[..n], o);
      OutcomeKeys(steps[..n], TargetsOf(steps[..n]));
      KeysWithAdded(OutcomesOf(steps[..n]), steps[n].target.key, steps[n].outcome, o);
    }
  }

  lemma {:induction false} DistinctButLast(steps: seq<PushStep>)
    requires steps != [] && DistinctKeys(TargetsOf(steps))
    ensures var init, s := steps[..|steps| - 1], steps[|steps| - 1];
            DistinctKeys(TargetsOf(init)) && s.target.key !in KeysOf(TargetsOf(init)) && TargetsOf(init)[..|init|] == TargetsOf(init)
  {
    var n := |steps| - 1;
    SplitLast(steps);
    LastStep(steps[..n], steps[n]);
    assert TargetsOf(steps)[n] == steps[n].target;
    assert forall i :: 0 <= i < n ==> TargetsOf(steps)[i] == TargetsOf(steps[..n])[i];
  }

  lemma {:induction false} FailedInBatch(steps: seq<PushStep>)
    requires DistinctKeys(TargetsOf(steps))
    ensures KeysWith(OutcomesOf(steps), PushFailed) == FailedIn(steps)
    decreases |steps|
  {
    if steps != [] {
      var n := |steps| - 1;
      DistinctButLast(steps);
      FailedInBatch(steps[..n]);
      OutcomeKeys(steps[..n], TargetsOf(steps[..n]));
      SplitLast(steps);
      FailedJoin(steps[..n], [steps[n]]);
      FailedAlone(steps[n]);
    }
  }

  lemma FailedAlone(s: PushStep)
    ensures FailedIn([s]) == if s.attempted && s.outcome == PushFailed then {s.target.key} else {}
  {
    assert [s][0] == s;
  }

  lemma FailedJoin(x: seq<PushStep>, y: seq<PushStep>)
    ensures FailedIn(x + y) == FailedIn(x) + FailedIn(y)
  {
    forall k | k in FailedIn(x) ensures k in FailedIn(x + y) {
      var i :| 0 <= i < |x| && x[i].attempted && x[i].outcome == PushFailed && x[i].target.key == k;
      assert (x + y)[i] == x[i];
    }
    forall k | k in FailedIn(y) ensures k in FailedIn(x + y) {
      var i :| 0 <= i < |y| && y[i].attempted && y[i].outcome == PushFailed && y[i].target.key == k;
      assert (x + y)[|x| + i] == y[i];
    }
  }

  lemma {:induction false} FailOnceJoin(x: seq<PushStep>, y: seq<PushStep>)
    requires FailOnce(x) && DistinctKeys(TargetsOf(y)) && KeysOf(TargetsOf(y)) !! FailedIn(x)
    ensures FailOnce(x + y)
  {
    var all := x + y;
    forall i, j | 0 <= i < j < |all| && all[i].attempted && all[i].outcome == PushFailed ensures all[j].target.key != all[i].target.key {
      if j >= |x| {
        assert TargetsOf(y)[j - |x|] == all[j].target && TargetsOf(y)[j - |x|] in TargetsOf(y);
        assert all[j].target.key in KeysOf(TargetsOf(y));
        if i < |x| {
          assert all[i] == x[i] && all[i].target.key in FailedIn(x);
        } else {
          assert TargetsOf(y)[i - |x|] == all[i].target;
        }
      }
    }
  }

  /** A batch without the keys that failed before joins the count. */
  lemma {:induction false} BatchTallied(t: Tally, r: Tally, failed: set<int>, x: seq<PushStep>, y: seq<PushStep>)
    requires Tallied(t, failed, x) && DistinctKeys(TargetsOf(y)) && KeysOf(TargetsOf(y)) !! failed && AddsUp(t, OutcomesOf(y), r)
    ensures Tallied(r, failed + KeysWith(OutcomesOf(y), PushFailed), x + y)
  {
    CountInBatch(y, PushSynced);
    CountInBatch(y, PushFailed);
    CountInBatch(y, PushMarked);
    CountJoin(x, y, PushSynced);
    CountJoin(x, y, PushFailed);
    CountJoin(x, y, PushMarked);
    FailedInBatch(y);
    FailedJoin(x, y);
    FailOnceJoin(x, y);
    OutcomeKeys(y, TargetsOf(y));
    TakeAll(TargetsOf(y));
    assert failed !! KeysWith(OutcomesOf(y), PushFailed);
  }

  /** How far a run has come: what it counted, what it did to the tables it found, and what it said. */
  ghost predicate Progress(a: Db, b: Db, t: Tally, steps: seq<PushStep>, failed: set<int>, o: Outside,
                           user: (string, string, string) -> Owner, from: nat, to: nat) {
    var m := OutcomesOf(steps);
    && Counted(t, m) && failed == KeysWith(m, PushFailed) && Settled(a, b, m, o.clock, from, to)
    && (NotBefore(o.clock, from, to) ==> m.Keys <= Eligible(a, o.clock(from), o.clock(from)))
    && Told(a, steps, o, user) && Within(steps, from, to)
  }

  predicate AddsUp(t: Tally, n: map<int, Outcome>, r: Tally) {
    && r.synced == t.synced + |KeysWith(n, PushSynced)|
    && r.failed == t.failed + |KeysWith(n, PushFailed)|
    && r.marked == t.marked + |KeysWith(n, PushMarked)|
    && r.found == t.found && r.removed == t.removed
  }

  lemma OutcomeCounts(t: Tally, m: map<int, Outcome>, r: Tally, k: int, o: Outcome)
    requires AddsUp(t, m, r) && k !in m
    ensures AddsUp(t, m[k := o],
                   match o
                   case PushSynced => r.(synced := r.synced + 1)
                   case PushMarked => r.(marked := r.marked + 1)
                   case PushFailed => r.(failed := r.failed + 1))
    ensures KeysWith(m[k := o], PushFailed) == KeysWith(m, PushFailed) + if o == PushFailed then {k} else {}
  {
    KeysWithAdded(m, k, o, PushSynced);
    KeysWithAdded(m, k, o, PushFailed);
    KeysWithAdded(m, k, o, PushMarked);
  }

  lemma CountsJoin(t: Tally, r: Tally, m: map<int, Outcome>, n: map<int, Outcome>)
    requires m.Keys !! n.Keys && Counted(t, m) && AddsUp(t, n, r)
    ensures Counted(r, m + n) && KeysWith(m + n, PushFailed) == KeysWith(m, PushFailed) + KeysWith(n, PushFailed)
  {
    KeysWithUnion(m, n, PushSynced);
    KeysWithUnion(m, n, PushFailed);
    KeysWithUnion(m, n, PushMarked);
  }

  lemma CountsPartition(t: Tally, m: map<int, Outcome>)
    requires Counted(t, m)
    ensures t.synced + t.failed + t.marked == |m|
  {
    var all := KeysWith(m, PushSynced) + KeysWith(m, PushFailed) + KeysWith(m, PushMarked);
    forall k | k in m ensures k in all {
      match m[k]
      case PushSynced => assert k in KeysWith(m, PushSynced);
      case PushFailed => assert k in KeysWith(m, PushFailed);
      case PushMarked => assert k in KeysWith(m, PushMarked);
    }
    assert m.Keys == all;
  }

  lemma BatchDisjoint(a: Db, b: Db, m: map<int, Outcome>, clock: nat -> Time, from: nat, mid: nat, keys: set<int>)
    requires Settled(a, b, m, clock, from, mid) && keys !! KeysWith(m, PushFailed)
    requires forall k :: k in keys ==> Stale(b, k)
    ensures m.Keys !! keys
  {
    forall k | k in keys ensures k !in m {
      StaleAfter(a, b, m, clock, from, mid, k);
    }
  }

  lemma BatchesEligible(a: Db, b: Db, m: map<int, Outcome>, keys: set<int>, clock: nat -> Time, from: nat, mid: nat, now: Time)
    requires Settled(a, b, m, clock, from, mid) && clock(from) <= now && m.Keys !! keys
    requires keys <= Eligible(b, now, clock(from))
    ensures keys <= Eligible(a, clock(from), clock(from))
  {
    forall k | k in keys ensures k in Eligible(a, clock(from), clock(from)) {
      BatchEligible(a, b, m, clock, from, mid, now, k);
    }
  }

  /** A pushed batch joins what the run did before: it tries no key again. */
  lemma BatchAdds(a: Db, b: Db, c: Db, t: Tally, r: Tally, x: seq<PushStep>, y: seq<PushStep>, failed: set<int>, o: Outside,
                  user: (string, string, string) -> Owner, from: nat, mid: nat, asked: nat, to: nat)
    requires from <= mid <= asked <= to
    requires Progress(a, b, t, x, failed, o, user, from, mid)
    requires Settled(b, c, OutcomesOf(y), o.clock, mid, to) && Told(b, y, o, user) && Within(y, mid, to)
    requires failed !! OutcomesOf(y).Keys && OutcomesOf(y).Keys <= Eligible(b, o.clock(asked), o.clock(from))
    requires AddsUp(t, OutcomesOf(y), r)
    ensures Progress(a, c, r, x + y, failed + KeysWith(OutcomesOf(y), PushFailed), o, user, from, to)
  {
    var m, n := OutcomesOf(x), OutcomesOf(y);
    BatchDisjoint(a, b, m, o.clock, from, mid, n.Keys);
    ToldThen(a, b, x, y, o, user, from, mid);
    CountsJoin(t, r, m, n);
    SettledThen(a, b, c, m, n, o.clock, from, mid, to);
    if NotBefore(o.clock, from, to) {
      EarlierNotBefore(o.clock, from, mid, asked, to);
      BatchesEligible(a, b, m, n.Keys, o.clock, from, mid, o.clock(asked));
    }
    WithinJoin(x, y, from, mid, to);
  }

  lemma EarlierNotBefore(clock: nat -> Time, from: nat, mid: nat, asked: nat, to: nat)
    requires from <= mid <= asked <= to && NotBefore(clock, from, to)
    ensures NotBefore(clock, from, mid) && clock(from) <= clock(asked)
  {
  }

  lemma {:induction false} WithinStep(steps: seq<PushStep>, s: PushStep, from: nat)
    requires Within(steps, from, s.from) && from <= s.from <= s.to
    ensures Within(steps + [s], from, s.to)
  {
  }

  lemma {:induction false} WithinJoin(x: seq<PushStep>, y: seq<PushStep>, from: nat, mid: nat, to: nat)
    requires from <= mid <= to && Within(x, from, mid) && Within(y, mid, to)
    ensures Within(x + y, from, to)
  {
  }

  // ----- What a run comes to -----

  /**
   * After an undisturbed run exactly these keys are pending: those whose push
   * failed, and those it skipped because their last failure is not older than
   * the run (the query compares strictly).
   */
  lemma PendingAfterRun(a: Db, b: Db, outcomes: map<int, Outcome>, clock: nat -> Time, from: nat, to: nat, k: int)
    requires Settled(a, b, outcomes, clock, from, to) && from <= to && Calm(a, clock, from, to)
    requires outcomes.Keys == Eligible(a, clock(from), clock(from))
    ensures k in PendingKeys(b, clock(to)) <==>
            k in PendingKeys(a, clock(from))
            && if NotFailedSince(a.keys[k], clock(from)) then outcomes[k] == PushFailed else true
  {
    StaleAfter(a, b, outcomes, clock, from, to, k);
  }
}
