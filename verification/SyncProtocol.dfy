/**
 * Why what is proved of the protocol holds for runs of the sync: each push of a
 * run (SyncRun), in whatever surroundings, takes the steps of a worker of the
 * protocol (Freshness), with the steps of others in between.
 */
module SyncProtocol {
  import opened Options
  import opened KeyProvider
  import opened Database
  import opened Stores
  import opened MissingKeys
  import opened SyncOutcomes
  import opened SyncChecks
  import opened Freshness
  import Agreement
  import Gateway
  import LiteLLM

  /** A step of one of the workers that have those keys. */
  predicate ByWorkers(e: Event, keys: set<int>) {
    match e
    case Target(k, _) => k in keys
    case ReadRow(k) => k in keys
    case ReadWindows(k, _) => k in keys
    case PushLimits(k, _) => k in keys
    case Record(k) => k in keys
    case GiveUp(k) => k in keys
    case Fail(k, _, _) => k in keys
    case _ => false
  }

  ghost predicate ByOthers(trace: seq<Event>, keys: set<int>) {
    forall i :: 0 <= i < |trace| ==> !ByWorkers(trace[i], keys)
  }

  /** A run leads from u to v in which the workers with those keys wait. */
  ghost predicate Meanwhile(keys: set<int>, u: World, v: World) {
    exists trace :: ByOthers(trace, keys) && IsRun(u, trace) && After(u, trace) == v
  }

  lemma {:induction false} MeanwhileReaches(keys: set<int>, u: World, v: World)
    requires Meanwhile(keys, u, v)
    ensures Reaches(u, v)
  {
  }

  lemma {:induction false} NoTime(keys: set<int>, w: World)
    ensures Meanwhile(keys, w, w)
  {
    assert ByOthers([], keys) && IsRun(w, []) && After(w, []) == w;
  }

  lemma {:induction false} MeanwhileThen(keys: set<int>, u: World, v: World, w: World)
    requires Meanwhile(keys, u, v) && Meanwhile(keys, v, w)
    ensures Meanwhile(keys, u, w)
  {
    var a :| ByOthers(a, keys) && IsRun(u, a) && After(u, a) == v;
    var b :| ByOthers(b, keys) && IsRun(v, b) && After(v, b) == w;
    RunsCompose(u, a, b);
    assert ByOthers(a + b, keys);
  }

  lemma {:induction false} MeanwhileFewer(keys: set<int>, fewer: set<int>, u: World, v: World)
    requires Meanwhile(keys, u, v) && fewer <= keys
    ensures Meanwhile(fewer, u, v)
  {
    var a :| ByOthers(a, keys) && IsRun(u, a) && After(u, a) == v;
    forall i | 0 <= i < |a| ensures !ByWorkers(a[i], fewer) {
      assert !ByWorkers(a[i], keys);
    }
  }

  lemma {:induction false} OneStep(keys: set<int>, u: World, e: Event, v: World)
    requires Goes(u, e, v) && !ByWorkers(e, keys)
    ensures Meanwhile(keys, u, v)
  {
    assert [e][1..] == [];
    assert IsRun(v, []) && After(v, []) == v;
    assert ByOthers([e], keys) && IsRun(u, [e]) && After(u, [e]) == v;
  }

  lemma {:induction false} OtherStepLeavesWorkers(u: World, e: Event, keys: set<int>)
    requires Enabled(u, e) && !ByWorkers(e, keys)
    ensures Next(u, e).prefix == u.prefix
    ensures forall k :: k in keys && k in u.workers ==> k in Next(u, e).workers && Next(u, e).workers[k] == u.workers[k]
  {
  }

  lemma {:induction false} OthersLeaveWorkers(u: World, trace: seq<Event>, keys: set<int>)
    requires IsRun(u, trace) && ByOthers(trace, keys)
    ensures After(u, trace).prefix == u.prefix
    ensures forall k :: k in keys && k in u.workers ==> k in After(u, trace).workers && After(u, trace).workers[k] == u.workers[k]
    decreases |trace|
  {
    if trace != [] {
      OtherStepLeavesWorkers(u, trace[0], keys);
      OthersLeaveWorkers(Next(u, trace[0]), trace[1..], keys);
    }
  }

  lemma {:induction false} PrefixStays(keys: set<int>, u: World, v: World)
    requires Meanwhile(keys, u, v)
    ensures v.prefix == u.prefix
  {
    var trace :| ByOthers(trace, keys) && IsRun(u, trace) && After(u, trace) == v;
    OthersLeaveWorkers(u, trace, keys);
  }

  // ----- Where a worker is -----

  function WorkerFor(t: SyncTarget, push: Push): Worker {
    Worker(t.ref, t.sub, t.name, t.email, push)
  }

  /** The world in which the target's worker has got that far. */
  function At(w: World, t: SyncTarget, push: Push): World {
    w.(workers := w.workers[t.key := WorkerFor(t, push)])
  }

  predicate IsAt(w: World, t: SyncTarget, push: Push) {
    t.key in w.workers && w.workers[t.key] == WorkerFor(t, push)
  }

  lemma {:induction false} Waits(keys: set<int>, t: SyncTarget, push: Push, u: World, v: World)
    requires Meanwhile(keys, u, v) && t.key in keys
    ensures v.prefix == u.prefix && (IsAt(u, t, push) ==> IsAt(v, t, push))
  {
    var trace :| ByOthers(trace, keys) && IsRun(u, trace) && After(u, trace) == v;
    OthersLeaveWorkers(u, trace, keys);
  }

  // ----- The worlds a push passes through -----

  /** What a push has read, as the protocol has it. */
  function ReadingOf(s: PushStep, prefix: string): Reading
    requires HasRead(s)
  {
    Reading(OwnerId(prefix, s.target.sub), s.target.profileId.value, RevRead(s), LimitsRead(s))
  }

  /** The gateway's keys once the call took effect. */
  function KeysAfter(keys: map<Ref, Gateway.Key>, call: Call): map<Ref, Gateway.Key>
    requires call.UpdateLimits?
  {
    LiteLLM.LimitsUpdated(Gateway.State(keys, map[]), call.ref, call.owner, call.limits).keys
  }

  /** The limits that were offered reached the key. */
  function Arrived(w: World, s: PushStep, r: Reading, push: Push): World
    requires s.said != [] && s.said[0].call.UpdateLimits?
  {
    At(w.(keys := KeysAfter(w.keys, s.said[0].call), pushed := w.pushed[s.target.ref := r], unrecorded := w.unrecorded + {s.target.ref}),
       s.target, push)
  }

  /** What the gateway made of the limits, going by its answer; any other answer than the two leaves it open. */
  ghost predicate Answered(w: World, s: PushStep, v: World)
    requires HasRead(s) && s.said != [] && s.said[0].call.UpdateLimits?
  {
    var r := ReadingOf(s, w.prefix);
    match s.said[0].answer
    case Has => s.target.ref in w.keys && v == Arrived(w, s, r, Landed(r))
    case NotFound => s.target.ref !in w.keys && v == w
    case Unknown => v == w || (s.target.ref in w.keys && v == Arrived(w, s, r, Lost))
  }

  /** The worlds a push passes through: as it reads the profile's row and windows and sends the limits, and in its last tick. */
  datatype Course = Course(row: World, windows: World, sent: World, heard: World, last: World)

  /**
   * From w, in which the push has its target, to its last tick: the worlds have
   * the tables the push saw, and from each to the next the workers with those keys
   * wait, its own among them.
   */
  ghost predicate Follows(keys: set<int>, w: World, c: Course, s: PushStep) {
    && s.target.key in keys && s.seen != [] && c.last.db == s.seen[|s.seen| - 1]
    && if s.said == [] then Meanwhile(keys, w, c.last) else FollowsOffer(keys, w, c, s)
  }

  ghost predicate FollowsOffer(keys: set<int>, w: World, c: Course, s: PushStep) {
    && HasRead(s) && s.said != [] && s.said[0].call.UpdateLimits?
    && c.row.db == s.seen[0] && c.windows.db == s.seen[1] && c.sent.db == s.seen[2]
    && var t, r := s.target, ReadingOf(s, w.prefix);
    && Meanwhile(keys, w, c.row)
    && Meanwhile(keys, At(c.row, t, RowRead(r.profile, s.seen[0].profiles[r.profile])), c.windows)
    && Meanwhile(keys, At(c.windows, t, Loaded(r)), c.sent)
    && Answered(c.sent, s, c.heard) && Meanwhile(keys, c.heard, c.last)
  }

  /** The world a push leaves: the tables it left, and its worker gone. */
  function Ended(c: Course, s: PushStep, fails: nat -> bool): World {
    c.last.(db := s.after, workers := c.last.workers - {s.target.key},
            unrecorded := if IsRecorded(s, fails) then c.last.unrecorded - {s.target.ref} else c.last.unrecorded)
  }

  /** The push was recorded as synced. */
  predicate IsRecorded(s: PushStep, fails: nat -> bool) {
    s.attempted && s.outcome == PushSynced && !fails(s.to)
  }

  /** The gateway user of a person goes by the portal's prefix (internal/config/config.go). */
  ghost predicate NamesPeople(user: (string, string, string) -> Owner, prefix: string) {
    forall sub, name, email :: user(sub, name, email).id == OwnerId(prefix, sub)
  }

  // ----- The steps -----

  lemma {:induction false} TargetGoes(w: World, t: SyncTarget, now: Time, start: Time)
    requires IsDue(w.db, t, now, start) && t.key !in w.workers
    ensures Goes(w, Target(t.key, now), At(w, t, Targeted(t.profileId)))
  {
  }

  lemma {:induction false} RowGoes(w: World, t: SyncTarget)
    requires IsAt(w, t, Targeted(t.profileId)) && t.profileId.Some? && t.profileId.value in w.db.profiles
    ensures Goes(w, ReadRow(t.key), At(w, t, RowRead(t.profileId.value, w.db.profiles[t.profileId.value])))
  {
  }

  lemma {:induction false} WindowsGo(w: World, t: SyncTarget, p: int, row: Profile)
    requires IsAt(w, t, RowRead(p, row))
    ensures Goes(w, ReadWindows(t.key, WindowsOf(w.db, p)),
                 At(w, t, Loaded(Reading(OwnerId(w.prefix, t.sub), p, row.limitsRev, RowLimits(row, WindowsOf(w.db, p))))))
  {
  }

  /** What the call does to the keys is what the protocol's push does. */
  lemma {:induction false} CallIsPush(keys: map<Ref, Gateway.Key>, call: Call, r: Reading)
    requires call.UpdateLimits? && call.ref in keys && call.owner.id == r.owner && call.limits == r.limits
    ensures KeysAfter(keys, call) == keys[call.ref := Updated(keys[call.ref], r)]
  {
  }

  lemma {:induction false} LimitsGo(w: World, s: PushStep, r: Reading, owner: Owner, reported: bool)
    requires HasRead(s) && s.said != [] && s.said[0].call == UpdateLimits(s.target.ref, owner, r.limits) && owner.id == r.owner
    requires IsAt(w, s.target, Loaded(r)) && s.target.ref in w.keys
    ensures Goes(w, PushLimits(s.target.key, reported), Arrived(w, s, r, if reported then Landed(r) else Lost))
  {
    CallIsPush(w.keys, s.said[0].call, r);
  }

  /** However the gateway answers, the worker goes on. */
  lemma {:induction false} AnswerGoes(keys: set<int>, w: World, s: PushStep, owner: Owner, v: World)
    requires HasRead(s) && s.said != [] && s.said[0].call == UpdateLimits(s.target.ref, owner, LimitsRead(s))
    requires owner.id == OwnerId(w.prefix, s.target.sub) && IsAt(w, s.target, Loaded(ReadingOf(s, w.prefix))) && Answered(w, s, v)
    requires s.target.key !in keys
    ensures Meanwhile(keys, w, v) && v.prefix == w.prefix
    ensures exists push :: IsAt(v, s.target, push) && (s.said[0].answer == Has ==> push == Landed(ReadingOf(s, w.prefix)))
  {
    var r := ReadingOf(s, w.prefix);
    if v == w {
      NoTime(keys, w);
      assert IsAt(v, s.target, Loaded(r));
    } else {
      var reported := s.said[0].answer == Has;
      LimitsGo(w, s, r, owner, reported);
      OneStep(keys, w, PushLimits(s.target.key, reported), v);
      assert IsAt(v, s.target, if reported then Landed(r) else Lost);
    }
  }

  /** And it ends as the push does: it records, notices that the key is missing, records a failure, or gives up. */
  lemma {:induction false} EndGoes(keys: set<int>, c: Course, s: PushStep, push: Push, rev: int, o: Outside)
    requires IsAt(c.last, s.target, push) && s.seen != [] && c.last.db == s.seen[|s.seen| - 1] && Written(s, rev, o)
    requires IsRecorded(s, o.fails) ==>
               push.Landed? && s.target.profileId == Some(push.reading.profile) && push.reading.rev == rev
    requires s.target.key !in keys
    ensures Meanwhile(keys, c.last, Ended(c, s, o.fails))
  {
    var t, now, v := s.target, o.clock(s.to), Ended(c, s, o.fails);
    if !s.attempted || o.fails(s.to) {
      OneStep(keys, c.last, GiveUp(t.key), v);
    } else {
      match s.outcome
      case PushSynced => OneStep(keys, c.last, Record(t.key), v);
      case PushMarked =>
        var noticed := c.last.(db := s.after);
        OneStep(keys, noticed, GiveUp(t.key), v);
        OneStep(keys, c.last, Event.Notice(t.key, t.userId, now), noticed);
        MeanwhileThen(keys, c.last, noticed, v);
      case PushFailed =>
        var reason :| s.after == MarkLimitSyncFailed(c.last.db, t.key, reason, now);
        OneStep(keys, c.last, Fail(t.key, reason, now), v);
    }
  }

  // ----- A push is a run of the protocol -----

  /** As far as the limits are read. */
  lemma {:induction false} ReadingGoes(keys: set<int>, w: World, c: Course, s: PushStep)
    requires IsAt(w, s.target, Targeted(s.target.profileId)) && s.target.key in keys && FollowsOffer(keys, w, c, s)
    ensures Meanwhile(keys - {s.target.key}, w, c.sent)
    ensures c.sent.prefix == w.prefix && IsAt(c.sent, s.target, Loaded(ReadingOf(s, w.prefix)))
  {
    var t, r, rest := s.target, ReadingOf(s, w.prefix), keys - {s.target.key};
    var row := At(c.row, t, RowRead(r.profile, s.seen[0].profiles[r.profile]));
    var windows := At(c.windows, t, Loaded(r));
    Waits(keys, t, Targeted(t.profileId), w, c.row);
    RowGoes(c.row, t);
    Waits(keys, t, row.workers[t.key].push, row, c.windows);
    WindowsGo(c.windows, t, r.profile, s.seen[0].profiles[r.profile]);
    Waits(keys, t, Loaded(r), windows, c.sent);
    MeanwhileFewer(keys, rest, windows, c.sent);
    OneStep(rest, c.windows, ReadWindows(t.key, WindowsOf(c.windows.db, r.profile)), windows);
    MeanwhileThen(rest, c.windows, windows, c.sent);
    MeanwhileFewer(keys, rest, row, c.windows);
    MeanwhileThen(rest, row, c.windows, c.sent);
    OneStep(rest, c.row, ReadRow(t.key), row);
    MeanwhileThen(rest, c.row, row, c.sent);
    MeanwhileFewer(keys, rest, w, c.row);
    MeanwhileThen(rest, w, c.row, c.sent);
  }

  /** Limits count as synced only if the gateway accepted them. */
  lemma {:induction false} AcceptedIfRecorded(s: PushStep, o: Outside, user: (string, string, string) -> Owner)
    requires Honest(s, o, user) && s.said != []
    ensures HasRead(s) && s.said[0].call == UpdateLimits(s.target.ref, OwnerOf(user, s.target), LimitsRead(s))
    ensures Written(s, RevRead(s), o) && (IsRecorded(s, o.fails) ==> s.said[0].answer == Has)
  {
  }

  /** As far as the last tick. */
  lemma {:induction false} OfferGoes(keys: set<int>, w: World, c: Course, s: PushStep, owner: Owner)
    requires s.target.key in keys && FollowsOffer(keys, w, c, s)
    requires s.said[0].call == UpdateLimits(s.target.ref, owner, LimitsRead(s))
    requires IsAt(c.sent, s.target, Loaded(ReadingOf(s, c.sent.prefix))) && owner.id == OwnerId(c.sent.prefix, s.target.sub)
    ensures Meanwhile(keys - {s.target.key}, c.sent, c.last)
    ensures exists push :: IsAt(c.last, s.target, push) && (s.said[0].answer == Has ==> push == Landed(ReadingOf(s, c.sent.prefix)))
  {
    var rest := keys - {s.target.key};
    AnswerGoes(rest, c.sent, s, owner, c.heard);
    var push :| IsAt(c.heard, s.target, push) && (s.said[0].answer == Has ==> push == Landed(ReadingOf(s, c.sent.prefix)));
    Waits(keys, s.target, push, c.heard, c.last);
    MeanwhileFewer(keys, rest, c.heard, c.last);
    MeanwhileThen(rest, c.sent, c.heard, c.last);
  }

  lemma {:induction false} SpokenPushGoes(keys: set<int>, w: World, c: Course, s: PushStep, o: Outside, user: (string, string, string) -> Owner)
    requires Honest(s, o, user) && s.said != [] && Follows(keys, w, c, s) && IsAt(w, s.target, Targeted(s.target.profileId))
    requires NamesPeople(user, w.prefix)
    ensures HasRead(s) && Meanwhile(keys - {s.target.key}, w, c.last)
    ensures Meanwhile(keys - {s.target.key}, c.last, Ended(c, s, o.fails))
    ensures IsRecorded(s, o.fails) ==> IsAt(c.last, s.target, Landed(ReadingOf(s, w.prefix)))
  {
    var rest := keys - {s.target.key};
    AcceptedIfRecorded(s, o, user);
    ReadingGoes(keys, w, c, s);
    OfferGoes(keys, w, c, s, OwnerOf(user, s.target));
    MeanwhileThen(rest, w, c.sent, c.last);
    var push :| IsAt(c.last, s.target, push) && (s.said[0].answer == Has ==> push == Landed(ReadingOf(s, c.sent.prefix)));
    EndGoes(rest, c, s, push, RevRead(s), o);
  }

  /**
   * Every push of a run, however it comes out, is a run of the protocol in which
   * its worker takes the steps: from a world in which it has its target, with
   * whatever others do between the steps, to the world it leaves.
   */
  lemma {:induction false} PushIsProtocol(keys: set<int>, w: World, c: Course, s: PushStep, o: Outside, user: (string, string, string) -> Owner)
    requires Honest(s, o, user) && Follows(keys, w, c, s) && IsAt(w, s.target, Targeted(s.target.profileId))
    requires NamesPeople(user, w.prefix)
    ensures Meanwhile(keys - {s.target.key}, w, Ended(c, s, o.fails))
  {
    var rest, v := keys - {s.target.key}, Ended(c, s, o.fails);
    if s.said == [] {
      Waits(keys, s.target, Targeted(s.target.profileId), w, c.last);
      MeanwhileFewer(keys, rest, w, c.last);
      EndGoes(rest, c, s, Targeted(s.target.profileId), 0, o);
    } else {
      SpokenPushGoes(keys, w, c, s, o, user);
    }
    MeanwhileThen(rest, w, c.last, v);
  }

  /** The gateway has the key if it accepts limits for it, and not if it says so. */
  predicate AnswersFor(w: World, s: PushStep) {
    s.said != [] ==> match s.said[0].answer
                     case Has => s.target.ref in w.keys
                     case NotFound => s.target.ref !in w.keys
                     case Unknown => true
  }

  /** If nobody else writes during a push, there are such worlds for it. */
  lemma {:induction false} AlonePushFollows(keys: set<int>, w: World, s: PushStep, o: Outside, user: (string, string, string) -> Owner)
    requires Honest(s, o, user) && s.target.key in keys && AnswersFor(w, s)
    requires s.seen != [] && forall i :: 0 <= i < |s.seen| ==> s.seen[i] == w.db
    ensures exists c :: Follows(keys, w, c, s)
  {
    NoTime(keys, w);
    if s.said == [] {
      assert Follows(keys, w, Course(w, w, w, w, w), s);
    } else {
      AcceptedIfRecorded(s, o, user);
      AloneOfferFollows(keys, w, s);
    }
  }

  lemma {:induction false} AloneOfferFollows(keys: set<int>, w: World, s: PushStep)
    requires HasRead(s) && s.said != [] && s.said[0].call.UpdateLimits? && s.target.key in keys && AnswersFor(w, s)
    requires forall i :: 0 <= i < |s.seen| ==> s.seen[i] == w.db
    ensures exists c :: Follows(keys, w, c, s)
  {
    var t, r := s.target, ReadingOf(s, w.prefix);
    var windows := At(w, t, RowRead(r.profile, s.seen[0].profiles[r.profile]));
    var sent := At(windows, t, Loaded(r));
    var heard := if s.said[0].answer == Has then Arrived(sent, s, r, Landed(r)) else sent;
    NoTime(keys, w);
    NoTime(keys, windows);
    NoTime(keys, sent);
    NoTime(keys, heard);
    assert Follows(keys, w, Course(w, windows, sent, heard, heard), s);
  }

  /** Every check of a run is a step of the protocol, or none. */
  lemma {:induction false} CheckIsProtocol(w: World, s: CheckStep, o: Outside, grace: int)
    requires CheckHonest(s, o, grace) && w.db == s.seen[|s.seen| - 1] && w.workers == map[]
    ensures Reaches(w, w.(db := s.after))
  {
    var m, now, v := s.row, o.clock(s.to), w.(db := s.after);
    Stays(v);
    if v != w {
      Prepend(w, Event.Check(m.key, m.userId, s.asked.answer, grace, now, now), v, v);
    }
  }

  // ----- A batch is a run of the protocol -----

  /** The worlds as the batch's workers get their targets, all from one answer to the query. */
  function AllTargeted(w: World, targets: seq<SyncTarget>): World {
    if targets == [] then w
    else
      var t := targets[|targets| - 1];
      At(AllTargeted(w, targets[..|targets| - 1]), t, Targeted(t.profileId))
  }

  ghost predicate AllDue(db: Db, targets: seq<SyncTarget>, now: Time, start: Time) {
    forall i :: 0 <= i < |targets| ==> IsDue(db, targets[i], now, start)
  }

  /** Those workers have their targets, and the rest of the world is as it was. */
  ghost predicate AreTargeted(w: World, v: World, targets: seq<SyncTarget>) {
    && Reaches(w, v) && v.db == w.db && v.prefix == w.prefix && v.workers.Keys == w.workers.Keys + KeysOf(targets)
    && forall i :: 0 <= i < |targets| ==> IsAt(v, targets[i], Targeted(targets[i].profileId))
  }

  lemma {:induction false} TargetsGo(w: World, targets: seq<SyncTarget>, now: Time, start: Time)
    requires AllDue(w.db, targets, now, start) && DistinctKeys(targets) && w.workers.Keys !! KeysOf(targets)
    ensures AreTargeted(w, AllTargeted(w, targets), targets)
    decreases |targets|
  {
    if targets == [] {
      Stays(w);
    } else {
      var n := |targets| - 1;
      var init, t := targets[..n], targets[n];
      SplitLast(targets);
      KeysOfLast(init, t);
      LastKeyIsNew(targets);
      TargetsGo(w, init, now, start);
      LastTargetGoes(w, AllTargeted(w, init), init, t, now, start);
    }
  }

  lemma {:induction false} LastTargetGoes(w: World, u: World, init: seq<SyncTarget>, t: SyncTarget, now: Time, start: Time)
    requires AreTargeted(w, u, init) && IsDue(w.db, t, now, start) && t.key !in u.workers && t.key !in KeysOf(init)
    ensures AreTargeted(w, At(u, t, Targeted(t.profileId)), init + [t])
  {
    var v := At(u, t, Targeted(t.profileId));
    TargetGoes(u, t, now, start);
    Stays(v);
    Prepend(u, Target(t.key, now), v, v);
    ReachesThen(w, u, v);
    KeysOfLast(init, t);
    forall i | 0 <= i < |init| ensures IsAt(v, init[i], Targeted(init[i].profileId)) {
      assert init[i] in init && init[i].key in KeysOf(init);
    }
  }

  lemma {:induction false} LastKeyIsNew(targets: seq<SyncTarget>)
    requires targets != [] && DistinctKeys(targets)
    ensures DistinctKeys(targets[..|targets| - 1]) && targets[|targets| - 1].key !in KeysOf(targets[..|targets| - 1])
  {
  }

  lemma {:induction false} ReachesThen(u: World, v: World, w: World)
    requires Reaches(u, v) && Reaches(v, w)
    ensures Reaches(u, w)
  {
    var a :| IsRun(u, a) && After(u, a) == v;
    var b :| IsRun(v, b) && After(v, b) == w;
    RunsCompose(u, a, b);
  }

  /** Each push goes on from where the one before it ended, while the workers yet to come wait. */
  ghost predicate FollowOn(w: World, cs: seq<Course>, steps: seq<PushStep>, fails: nat -> bool)
    decreases |steps|
  {
    && |cs| == |steps|
    && (steps != [] ==>
          && Follows(KeysOf(TargetsOf(steps)), w, cs[0], steps[0])
          && FollowOn(Ended(cs[0], steps[0], fails), cs[1..], steps[1..], fails))
  }

  /** The world the last of them leaves. */
  function Left(w: World, cs: seq<Course>, steps: seq<PushStep>, fails: nat -> bool): World {
    if cs == [] || |steps| != |cs| then w else Ended(cs[|cs| - 1], steps[|cs| - 1], fails)
  }

  /** The workers of the pushes have their targets, and have not begun. */
  ghost predicate StillToCome(w: World, steps: seq<PushStep>) {
    forall i :: 0 <= i < |steps| ==> IsAt(w, steps[i].target, Targeted(steps[i].target.profileId))
  }

  lemma {:induction false} OthersStillToCome(u: World, v: World, steps: seq<PushStep>)
    requires StillToCome(u, steps) && Meanwhile(KeysOf(TargetsOf(steps)), u, v)
    ensures StillToCome(v, steps) && v.prefix == u.prefix
  {
    var keys := KeysOf(TargetsOf(steps));
    var trace :| ByOthers(trace, keys) && IsRun(u, trace) && After(u, trace) == v;
    OthersLeaveWorkers(u, trace, keys);
    forall i | 0 <= i < |steps| ensures steps[i].target.key in keys {
      assert TargetsOf(steps)[i] == steps[i].target;
    }
  }

  lemma {:induction false} KeysOfFirst(t: SyncTarget, rest: seq<SyncTarget>)
    ensures KeysOf([t] + rest) == {t.key} + KeysOf(rest)
  {
  }

  lemma {:induction false} FirstKeyIsNew(targets: seq<SyncTarget>)
    requires targets != [] && DistinctKeys(targets)
    ensures DistinctKeys(targets[1..]) && targets[0].key !in KeysOf(targets[1..])
  {
    forall i | 0 <= i < |targets[1..]| ensures targets[1..][i].key != targets[0].key {
      assert targets[1..][i] == targets[i + 1];
    }
  }

  lemma {:induction false} FirstTarget(targets: seq<SyncTarget>)
    requires targets != [] && DistinctKeys(targets)
    ensures DistinctKeys(targets[1..]) && KeysOf(targets[1..]) == KeysOf(targets) - {targets[0].key}
  {
    FirstKeyIsNew(targets);
    KeysOfFirst(targets[0], targets[1..]);
    assert targets == [targets[0]] + targets[1..];
  }

  lemma {:induction false} TargetsOfRest(steps: seq<PushStep>)
    requires steps != []
    ensures TargetsOf(steps[1..]) == TargetsOf(steps)[1..] && TargetsOf(steps)[0] == steps[0].target
  {
  }

  /** The first of several pushes. */
  lemma {:induction false} HeadGoes(keys: set<int>, w: World, c: Course, steps: seq<PushStep>, o: Outside,
                                    user: (string, string, string) -> Owner)
    requires steps != [] && AllHonest(steps, o, user) && NamesPeople(user, w.prefix)
    requires StillToCome(w, steps) && Follows(keys, w, c, steps[0])
    ensures Meanwhile(keys - {steps[0].target.key}, w, Ended(c, steps[0], o.fails))
  {
    var s := steps[0];
    assert Honest(s, o, user);
    PushIsProtocol(keys, w, c, s, o, user);
  }

  lemma {:induction false} FirstStepGoes(w: World, c: Course, steps: seq<PushStep>, o: Outside, user: (string, string, string) -> Owner)
    requires steps != [] && DistinctKeys(TargetsOf(steps)) && AllHonest(steps, o, user) && NamesPeople(user, w.prefix)
    requires StillToCome(w, steps) && Follows(KeysOf(TargetsOf(steps)), w, c, steps[0])
    ensures var v := Ended(c, steps[0], o.fails);
            Reaches(w, v) && v.prefix == w.prefix && StillToCome(v, steps[1..])
    ensures DistinctKeys(TargetsOf(steps[1..])) && AllHonest(steps[1..], o, user)
  {
    var v := Ended(c, steps[0], o.fails);
    TargetsOfRest(steps);
    FirstTarget(TargetsOf(steps));
    HeadGoes(KeysOf(TargetsOf(steps)), w, c, steps, o, user);
    MeanwhileReaches(KeysOf(TargetsOf(steps[1..])), w, v);
    RestToCome(w, steps);
    OthersStillToCome(w, v, steps[1..]);
  }

  lemma {:induction false} RestToCome(w: World, steps: seq<PushStep>)
    requires steps != [] && StillToCome(w, steps)
    ensures StillToCome(w, steps[1..])
  {
  }

  lemma {:induction false} StepsGo(w: World, cs: seq<Course>, steps: seq<PushStep>, o: Outside, user: (string, string, string) -> Owner)
    requires AllHonest(steps, o, user) && FollowOn(w, cs, steps, o.fails) && DistinctKeys(TargetsOf(steps))
    requires StillToCome(w, steps) && NamesPeople(user, w.prefix)
    ensures Reaches(w, Left(w, cs, steps, o.fails))
    decreases |steps|
  {
    if steps == [] {
      Stays(w);
    } else {
      var v := Ended(cs[0], steps[0], o.fails);
      FirstStepGoes(w, cs[0], steps, o, user);
      StepsGo(v, cs[1..], steps[1..], o, user);
      ReachesThen(w, v, Left(v, cs[1..], steps[1..], o.fails));
    }
  }

  /**
   * So is a whole batch: the query gives its workers their targets, and each takes
   * its steps while the rest wait and others do as they like.
   */
  lemma {:induction false} BatchIsProtocol(w: World, cs: seq<Course>, steps: seq<PushStep>, o: Outside,
                                           user: (string, string, string) -> Owner, now: Time, start: Time)
    requires AllHonest(steps, o, user) && FollowOn(AllTargeted(w, TargetsOf(steps)), cs, steps, o.fails)
    requires AllDue(w.db, TargetsOf(steps), now, start) && DistinctKeys(TargetsOf(steps))
    requires w.workers.Keys !! KeysOf(TargetsOf(steps)) && NamesPeople(user, w.prefix)
    ensures Reaches(w, Left(AllTargeted(w, TargetsOf(steps)), cs, steps, o.fails))
  {
    var u := AllTargeted(w, TargetsOf(steps));
    TargetsGo(w, TargetsOf(steps), now, start);
    forall i | 0 <= i < |steps| ensures IsAt(u, steps[i].target, Targeted(steps[i].target.profileId)) {
      assert TargetsOf(steps)[i] == steps[i].target;
    }
    StepsGo(u, cs, steps, o, user);
    ReachesThen(w, u, Left(u, cs, steps, o.fails));
  }

  // ----- What that comes to -----

  /** The key's row names the limits the push read, and the gateway key carries them. */
  ghost predicate IsTold(w: World, s: PushStep)
    requires HasRead(s)
  {
    var t, r := s.target, ReadingOf(s, w.prefix);
    && t.key in w.db.keys && w.db.keys[t.key].ref == t.ref && w.db.keys[t.key].userId in w.db.users
    && w.db.keys[t.key].syncedProfile == Some(r.profile) && w.db.keys[t.key].syncedRev == Some(r.rev)
    && t.ref in w.pushed && w.pushed[t.ref] == r && t.ref in w.keys && Agreement.Carries(w.keys[t.ref], r.owner, r.limits)
  }

  lemma {:induction false} LandedWorker(first: World, w: World, t: SyncTarget, r: Reading)
    requires Init(first) && Reaches(first, w) && IsAt(w, t, Landed(r)) && t.key in w.db.keys
    ensures w.db.keys[t.key].ref == t.ref
    ensures w.db.keys[t.key].missingSince.None? && t.ref in w.keys ==> t.ref in w.pushed && w.pushed[t.ref] == r
  {
    var trace :| IsRun(first, trace) && After(first, trace) == w;
    RunKeeps(first, trace);
    assert WorkerFits(w, t.key);
  }

  lemma {:induction false} RecordedRow(s: PushStep, o: Outside, user: (string, string, string) -> Owner)
    requires Honest(s, o, user) && IsRecorded(s, o.fails)
    ensures s.said != [] && HasRead(s) && s.seen[|s.seen| - 1].keys.Keys == s.after.keys.Keys
    ensures s.target.key in s.after.keys ==>
              var row, k := s.after.keys[s.target.key], s.seen[|s.seen| - 1].keys[s.target.key];
              && row.ref == k.ref && row.missingSince == k.missingSince
              && row.syncedProfile == s.target.profileId && row.syncedRev == Some(RevRead(s))
  {
    assert s.said != [];
    AcceptedIfRecorded(s, o, user);
  }

  lemma {:induction false} CarriesWhatLanded(first: World, v: World, key: int, r: Reading)
    requires Init(first) && Reaches(first, v) && key in v.db.keys && v.db.keys[key].ref in v.keys
    requires v.db.keys[key].ref in v.pushed && v.pushed[v.db.keys[key].ref] == r
    ensures var k := v.db.keys[key];
            && k.userId in v.db.users && Agreement.Carries(v.keys[k.ref], r.owner, r.limits)
            && (r.profile in v.db.profiles && v.db.profiles[r.profile].limitsRev == r.rev && Agreement.FormWindows(v.db, r.profile) ==>
                  Agreement.Carries(v.keys[k.ref], r.owner, LimitsOf(v.db, r.profile)))
  {
    var trace :| IsRun(first, trace) && After(first, trace) == v;
    Agreement.CarriesExactly(first, trace, key, r.limits);
    if r.profile in v.db.profiles && v.db.profiles[r.profile].limitsRev == r.rev && Agreement.FormWindows(v.db, r.profile) {
      Agreement.LandedCurrentCarries(first, trace, key, r.profile);
    }
  }

  /** The key of a push that is recorded as synced received the limits that were read. */
  lemma {:induction false} RecordedReceived(first: World, c: Course, s: PushStep, fails: nat -> bool, r: Reading)
    requires s.seen != [] && c.last.db == s.seen[|s.seen| - 1] && s.after.keys.Keys == c.last.db.keys.Keys
    requires s.target.key in s.after.keys ==>
               && s.after.keys[s.target.key].ref == c.last.db.keys[s.target.key].ref
               && s.after.keys[s.target.key].missingSince == c.last.db.keys[s.target.key].missingSince
    requires Init(first) && Reaches(first, c.last) && IsAt(c.last, s.target, Landed(r))
    requires Agreement.IsLive(Ended(c, s, fails), s.target.key)
    ensures var v := Ended(c, s, fails);
            v.db.keys[s.target.key].ref == s.target.ref && s.target.ref in v.pushed && v.pushed[s.target.ref] == r
  {
    LandedWorker(first, c.last, s.target, r);
  }

  lemma {:induction false} RecordedReaches(first: World, keys: set<int>, w: World, c: Course, s: PushStep, o: Outside,
                                           user: (string, string, string) -> Owner)
    requires Reaches(first, w) && NamesPeople(user, w.prefix) && Honest(s, o, user) && s.said != [] && IsRecorded(s, o.fails)
    requires Follows(keys, w, c, s) && IsAt(w, s.target, Targeted(s.target.profileId))
    ensures Reaches(first, c.last) && Reaches(first, Ended(c, s, o.fails))
    ensures HasRead(s) && IsAt(c.last, s.target, Landed(ReadingOf(s, w.prefix))) && Ended(c, s, o.fails).prefix == w.prefix
  {
    var rest := keys - {s.target.key};
    SpokenPushGoes(keys, w, c, s, o, user);
    MeanwhileReaches(rest, w, c.last);
    MeanwhileReaches(rest, c.last, Ended(c, s, o.fails));
    ReachesThen(first, w, c.last);
    ReachesThen(first, c.last, Ended(c, s, o.fails));
    PrefixStays(rest, w, c.last);
  }

  /**
   * From any state a run of the protocol reaches: when a push of the sync is
   * recorded as synced, its key, if it is still live, carries the limits the push
   * read. As long as the profile is at the revision that was read, and its windows
   * are the form's, it carries the profile's.
   */
  lemma {:induction false} SyncedPushCarries(first: World, keys: set<int>, w: World, c: Course, s: PushStep, o: Outside,
                                             user: (string, string, string) -> Owner)
    requires Init(first) && Reaches(first, w) && NamesPeople(user, w.prefix)
    requires Honest(s, o, user) && Follows(keys, w, c, s) && IsAt(w, s.target, Targeted(s.target.profileId))
    requires IsRecorded(s, o.fails) && Agreement.IsLive(Ended(c, s, o.fails), s.target.key)
    ensures HasRead(s) && Reaches(first, Ended(c, s, o.fails)) && IsTold(Ended(c, s, o.fails), s)
    ensures var v, p := Ended(c, s, o.fails), s.target.profileId.value;
            p in v.db.profiles && v.db.profiles[p].limitsRev == RevRead(s) && Agreement.FormWindows(v.db, p) ==>
              Agreement.Carries(v.keys[s.target.ref], OwnerId(v.prefix, s.target.sub), LimitsOf(v.db, p))
  {
    RecordedRow(s, o, user);
    RecordedReaches(first, keys, w, c, s, o, user);
    var v, r := Ended(c, s, o.fails), ReadingOf(s, w.prefix);
    RecordedReceived(first, c, s, o.fails, r);
    CarriesWhatLanded(first, v, s.target.key, r);
  }
}
