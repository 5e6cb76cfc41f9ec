/**
 * One run of the limit sync (internal/limitsync/limitsync.go), with whatever
 * happens around it: what the gateway answers, what the clock shows, which
 * statements fail, when the context ends, and what others write meanwhile.
 */
module SyncRun {
  import opened Options
  import opened KeyProvider
  import opened Database
  import opened Stores
  import opened MissingKeys
  import opened SyncOutcomes
  import opened SyncChecks
  import opened SyncRecords

  const maxErrorLen := 500

  /** The three bytes of the ellipsis. A reason is a string of bytes. */
  const Ellipsis := "\U{E2}\U{80}\U{A6}"

  function Gist(reason: string): string {
    if |reason| > maxErrorLen then reason[..maxErrorLen] + Ellipsis else reason
  }

  /** What a run did: its checks, the tables and the tick when its pushes began, the pushes, and the keys that failed. */
  datatype RunLog = RunLog(checks: seq<CheckStep>, checked: Db, begun: nat, pushes: seq<PushStep>, failures: set<int>)

  /** What an undisturbed run comes to, by the columns of the tables. */
  lemma {:induction false} ByColumns(before: Db, after: Db, t: Tally, run: RunLog, o: Outside, user: (string, string, string) -> Owner,
                                     grace: int, to: nat, log: seq<Exchange>)
    requires Asks(before, RowsOf(run.checks), true) && Report(before, run.checked, run.checks, o.clock, grace)
    requires AllChecksHonest(run.checks, o, grace) && NoneFails(o.fails, run.begun, to)
    requires Progress(run.checked, after, t, run.pushes, run.failures, o, user, run.begun, to)
    requires Calm(run.checked, o.clock, run.begun, to) ==>
               OutcomesOf(run.pushes).Keys == Eligible(run.checked, o.clock(run.begun), o.clock(run.begun))
    ensures var heard := (log + AskedIn(run.checks) + Said(run.pushes))[|log|..];
            && SettlesAll(before, run.checked, heard, o.clock, grace)
            && (Calm(run.checked, o.clock, run.begun, to) && OwnersHaveProfiles(run.checked) && DistinctRefs(run.checked) ==>
                  && DecidesAll(run.checked, after, heard, o.clock, run.begun, to)
                  && (Accepted(Said(run.pushes)) ==> TellsAll(run.checked, after, heard, user, o.clock(run.begun))))
  {
    var asked, said := AskedIn(run.checks), Said(run.pushes);
    SaidSince(log, asked, said);
    AsksMarked(before, RowsOf(run.checks), true);
    ChecksByColumns(before, run.checked, run.checks, o, grace, said);
    ChecksOnlyAsk(run.checks, o, grace);
    if Calm(run.checked, o.clock, run.begun, to) && OwnersHaveProfiles(run.checked) && DistinctRefs(run.checked) {
      PushesDecide(run.checked, after, t, run.pushes, run.failures, o, user, run.begun, to, asked);
      if Accepted(said) {
        PushesTell(run.checked, after, t, run.pushes, run.failures, o, user, run.begun, to, asked);
      }
    }
  }

  class Syncer {
    const store: Store
    const outside: Outside
    const user: (string, string, string) -> Owner
    const workers: nat
    const grace: int
    var running: bool
    var finished: Option<Time>

    constructor (store: Store, outside: Outside, user: (string, string, string) -> Owner, workers: int, grace: int)
      ensures this.store == store && this.outside == outside && this.user == user && this.grace == grace
      ensures this.workers == (if workers < 1 then 1 else workers) && !running && finished == None
    {
      this.store, this.outside, this.user, this.grace := store, outside, user, grace;
      this.workers := if workers < 1 then 1 else workers;
      running, finished := false, None;
    }

    /** Nobody else wrote, the context goes on, and every result was recorded. */
    ghost predicate Smooth(edits: nat, err: bool)
      reads outside
    {
      |outside.edits| == edits && !outside.Cancelled() && !err
    }

    /** The only grounds for an error: the context ended, or a statement failed. */
    ghost predicate Excused(from: nat)
      reads outside
    {
      outside.Cancelled() || FailsDuring(outside.fails, from, outside.Tick())
    }

    /** What a caller can tell: nobody else wrote, the context goes on, and no statement failed. */
    ghost predicate Undisturbed(edits: nat, from: nat)
      reads outside
    {
      |outside.edits| == edits && !outside.Cancelled() && NoneFails(outside.fails, from, outside.Tick())
    }

    /** The tables as the last tick found them. */
    function Found(): Db
      reads outside`history
      requires outside.history != []
    {
      outside.history[|outside.history| - 1]
    }

    /** A moment in which others may write. */
    method Pass()
      modifies store, outside`history, outside`edits
      ensures outside.history == old(outside.history) + [store.Tables()]
      ensures |outside.edits| <= old(|outside.edits|)
      ensures |outside.edits| == old(|outside.edits|) ==> store.Tables() == old(store.Tables())
    {
      var n := outside.bursts(outside.Tick());
      while n > 0 && outside.edits != []
        invariant outside.history == old(outside.history)
        invariant |outside.edits| <= old(|outside.edits|)
        invariant |outside.edits| == old(|outside.edits|) ==> store.Tables() == old(store.Tables())
      {
        var db := outside.edits[0](store.Tables());
        store.profiles, store.quotas, store.users, store.keys := db.profiles, db.quotas, db.users, db.keys;
        store.audit, store.lastProfile, store.lastUser, store.lastKey := db.audit, db.lastProfile, db.lastUser, db.lastKey;
        outside.edits := outside.edits[1..];
        n := n - 1;
      }
      outside.history := outside.history + [store.Tables()];
    }

    /** What a push puts in the tables its last tick found, as in Written. */
    ghost predicate Put(t: SyncTarget, o: Outcome, attempted: bool, rev: int)
      reads outside, store
    {
      && outside.history != []
      && if !attempted || outside.fails(outside.Tick()) then store.Tables() == Found()
         else
           match o
           case PushSynced =>
             t.profileId.Some? && store.Tables() == MarkLimitsSynced(Found(), t.key, t.profileId.value, rev, t.name, t.email)
           case PushMarked => store.Tables() == MarkKeyMissing(Found(), t.key, t.userId, outside.Now())
           case PushFailed => exists reason :: store.Tables() == MarkLimitSyncFailed(Found(), t.key, reason, outside.Now())
    }

    /** Reports only a failure to record. */
    method Fail(t: SyncTarget, reason: string) returns (err: bool)
      modifies store, outside`history, outside`edits
      ensures old(outside.history) < outside.history && outside.Tick() == old(outside.Tick()) + 1
      ensures |outside.edits| <= old(|outside.edits|)
      ensures err <==> outside.fails(outside.Tick()) && !outside.Cancelled()
      ensures store.Tables() == if outside.fails(outside.Tick()) then Found()
                                else MarkLimitSyncFailed(Found(), t.key, Gist(reason), outside.Now())
      ensures !outside.fails(outside.Tick()) && t.key in store.keys ==>
                && store.keys[t.key].syncFailedAt == Some(outside.Now())
                && if |reason| <= 500 then store.keys[t.key].syncError == reason
                   else |store.keys[t.key].syncError| == 503 && store.keys[t.key].syncError[..500] == reason[..500]
      ensures |outside.edits| == old(|outside.edits|) ==> Found() == old(store.Tables())
    {
      Pass();
      if outside.fails(outside.Tick()) {
        return !outside.Cancelled();
      }
      store.MarkLimitSyncFailed(t.key, Gist(reason), outside.Now());
      return false;
    }

    /** Settles a push the gateway did not accept. */
    method PushRefused(t: SyncTarget, answer: Answer) returns (o: Outcome, attempted: bool, err: bool)
      requires answer != Has && outside.history != [] && store.Tables() == Found()
      modifies store, outside`history, outside`edits
      ensures old(outside.history) <= outside.history && |outside.edits| <= old(|outside.edits|)
      ensures Put(t, o, attempted, 0) && (!attempted ==> o == PushFailed && outside.Cancelled() && !err)
      ensures attempted ==> old(outside.history) < outside.history && (o == Verdict(answer) || (o == PushFailed && outside.fails(outside.Tick())))
      ensures err ==> Excused(old(outside.Tick()))
      ensures Smooth(old(|outside.edits|), err) ==> attempted && o == Verdict(answer)
      ensures Smooth(old(|outside.edits|), err) && IsTarget(old(store.Tables()), t) ==>
                Settled(old(store.Tables()), store.Tables(), map[t.key := o], outside.clock, old(outside.Tick()), outside.Tick())
    {
      if outside.Cancelled() {
        return PushFailed, false, false;
      }
      if answer != NotFound {
        o, err := Unpushed(t, "the gateway did not accept the limits");
        return o, true, err;
      }
      Pass();
      if outside.fails(outside.Tick()) {
        if outside.Cancelled() {
          return PushFailed, false, false;
        }
        return PushFailed, true, true;
      }
      var newly := store.MarkKeyMissing(t.key, t.userId, outside.Now());
      assert During(outside.clock, old(outside.Tick()), outside.Tick(), outside.Now());
      return PushMarked, true, false;
    }

    /** Reads the profile's row, then its windows. */
    method LoadProfile(id: int) returns (r: Option<(Profile, Limits)>)
      modifies store, outside`history, outside`edits
      ensures old(outside.history) < outside.history && |outside.edits| <= old(|outside.edits|)
      ensures store.Tables() == Found()
      ensures |outside.edits| == old(|outside.edits|) ==>
                && store.Tables() == old(store.Tables())
                && outside.history[old(outside.Tick())] == store.Tables()
      ensures r.Some? ==>
                && outside.Tick() == old(outside.Tick()) + 2
                && id in outside.history[old(outside.Tick())].profiles
                && r.value.0 == outside.history[old(outside.Tick())].profiles[id]
                && r.value.1 == RowLimits(r.value.0, WindowsOf(Found(), id))
      ensures r.None? ==>
                || FailsDuring(outside.fails, old(outside.Tick()), outside.Tick())
                || id !in outside.history[old(outside.Tick())].profiles
    {
      Pass();
      if outside.fails(outside.Tick()) || id !in store.profiles {
        return None;
      }
      var p := store.profiles[id];
      Pass();
      if outside.fails(outside.Tick()) {
        return None;
      }
      return Some((p, RowLimits(p, WindowsOf(store.Tables(), id))));
    }

    method Offer(t: SyncTarget, limits: Limits) returns (answer: Answer, ghost said: seq<Exchange>)
      modifies store, outside`history, outside`edits, outside`log
      ensures old(outside.history) < outside.history && |outside.edits| <= old(|outside.edits|)
      ensures store.Tables() == Found()
      ensures |outside.edits| == old(|outside.edits|) ==> store.Tables() == old(store.Tables())
      ensures outside.log == old(outside.log) + said && Offered(t, OwnerOf(user, t), limits, said)
      ensures Genuine(said, outside.answers, old(outside.Tick()), outside.Tick()) && answer == said[|said| - 1].answer
      ensures forall i :: 0 <= i < |said| ==> said[i].at == old(outside.Tick()) + 1 + i
    {
      Pass();
      answer := outside.Ask(UpdateLimits(t.ref, user(t.sub, t.name, t.email), limits));
      said := [Exchange(UpdateLimits(t.ref, user(t.sub, t.name, t.email), limits), answer, outside.Tick())];
      if answer == Has && t.syncedName != Some(t.name) {
        Pass();
        answer := outside.Ask(UpdateAlias(t.ref, t.sub, t.name));
        said := said + [Exchange(UpdateAlias(t.ref, t.sub, t.name), answer, outside.Tick())];
      }
    }

    lemma PutIsWritten(s: PushStep, rev: int)
      requires s.from < s.to == outside.Tick() && s.seen == outside.history[s.from..] && s.after == store.Tables()
      requires Put(s.target, s.outcome, s.attempted, rev)
      ensures Written(s, rev, outside)
    {
      assert s.seen[|s.seen| - 1] == Found();
    }

    /** Pushes one key's limits and records the outcome. */
    method SyncOne(t: SyncTarget) returns (o: Outcome, attempted: bool, err: bool, ghost said: seq<Exchange>)
      modifies store, outside`history, outside`edits, outside`log
      ensures old(outside.history) < outside.history && |outside.edits| <= old(|outside.edits|)
      ensures outside.log == old(outside.log) + said && (err ==> Excused(old(outside.Tick())))
      ensures var s := PushStep(t, o, attempted, said, old(store.Tables()), store.Tables(), outside.history[old(outside.Tick())..],
                                old(outside.Tick()), outside.Tick());
              Honest(s, outside, user) && (Smooth(old(|outside.edits|), err) ==> StepFits(s, outside, user))
    {
      if t.profileId.None? {
        ghost var before, from := store.Tables(), outside.Tick();
        o, attempted, err := Unable(t, false);
        said := [];
        ghost var s := StepSince(t, o, attempted, [], before, from);
        PutIsWritten(s, 0);
        SilentIsHonest(s, outside, user);
      } else {
        o, attempted, err, said := LoadAndPush(t);
      }
    }

    /** Records that there was nothing to push: no profile, or it could not be loaded. */
    method Unable(t: SyncTarget, loading: bool) returns (o: Outcome, attempted: bool, err: bool)
      modifies store, outside`history, outside`edits
      ensures old(outside.history) <= outside.history && |outside.edits| <= old(|outside.edits|)
      ensures o == PushFailed && (err ==> Excused(old(outside.Tick())))
      ensures if attempted then old(outside.history) < outside.history && Put(t, o, true, 0)
              else loading && outside.Cancelled() && outside.history == old(outside.history) && store.Tables() == old(store.Tables())
      ensures Smooth(old(|outside.edits|), err) && IsTarget(old(store.Tables()), t) ==>
                Settled(old(store.Tables()), store.Tables(), map[t.key := o], outside.clock, old(outside.Tick()), outside.Tick())
    {
      if loading && outside.Cancelled() {
        return PushFailed, false, false;
      }
      o, err := Unpushed(t, if loading then "load profile" else "the user has no profile and there is no default profile");
      return o, true, err;
    }

    method LoadAndPush(t: SyncTarget) returns (o: Outcome, attempted: bool, err: bool, ghost said: seq<Exchange>)
      requires t.profileId.Some?
      modifies store, outside`history, outside`edits, outside`log
      ensures old(outside.history) < outside.history && |outside.edits| <= old(|outside.edits|)
      ensures outside.log == old(outside.log) + said && (err ==> Excused(old(outside.Tick())))
      ensures var s := PushStep(t, o, attempted, said, old(store.Tables()), store.Tables(), outside.history[old(outside.Tick())..],
                                old(outside.Tick()), outside.Tick());
              Honest(s, outside, user) && (Smooth(old(|outside.edits|), err) ==> StepFits(s, outside, user))
    {
      ghost var before, from, h := store.Tables(), outside.Tick(), outside.history;
      var p := LoadProfile(t.profileId.value);
      ghost var loaded := outside.history;
      if p.None? {
        o, attempted, err := NotLoaded(t, before, from, old(|outside.edits|));
        said := [];
      } else {
        o, attempted, err, said := PushLoaded(t, p.value.0, p.value.1, before, from, old(|outside.edits|));
      }
      PrefixThen(h, loaded, outside.history);
    }

    /** The step of a push that has been under way since from. */
    ghost function StepSince(t: SyncTarget, o: Outcome, attempted: bool, said: seq<Exchange>, before: Db, from: nat): PushStep
      reads outside, store
      requires from <= outside.Tick()
    {
      PushStep(t, o, attempted, said, before, store.Tables(), outside.history[from..], from, outside.Tick())
    }

    method NotLoaded(t: SyncTarget, ghost before: Db, ghost from: nat, ghost edits: nat)
      returns (o: Outcome, attempted: bool, err: bool)
      requires t.profileId.Some? && from < outside.Tick() && |outside.edits| <= edits && store.Tables() == Found()
      requires FailsDuring(outside.fails, from, outside.Tick()) || t.profileId.value !in outside.history[from].profiles
      requires |outside.edits| == edits ==> store.Tables() == before == outside.history[from]
      modifies store, outside`history, outside`edits
      ensures old(outside.history) <= outside.history && |outside.edits| <= old(|outside.edits|) && (err ==> Excused(from))
      ensures Honest(StepSince(t, o, attempted, [], before, from), outside, user)
      ensures Smooth(edits, err) ==> StepFits(StepSince(t, o, attempted, [], before, from), outside, user)
    {
      ghost var h, mid := outside.history, outside.Tick();
      o, attempted, err := Unable(t, true);
      ghost var s := StepSince(t, o, attempted, [], before, from);
      PutIsWritten(s, 0);
      PrefixAt(h, outside.history, from);
      assert s.seen[0] == h[from];
      SilentIsHonest(s, outside, user);
      if Smooth(edits, err) {
        SilentFits(s, mid, outside, user);
      }
    }

    method PushLoaded(t: SyncTarget, p: Profile, limits: Limits, ghost before: Db, ghost from: nat, ghost edits: nat)
      returns (o: Outcome, attempted: bool, err: bool, ghost said: seq<Exchange>)
      requires t.profileId.Some? && from + 2 == outside.Tick() && |outside.edits| <= edits
      requires t.profileId.value in outside.history[from].profiles && p == outside.history[from].profiles[t.profileId.value]
      requires limits == RowLimits(p, WindowsOf(Found(), t.profileId.value))
      requires |outside.edits| == edits ==> store.Tables() == before == outside.history[from] == Found()
      modifies store, outside`history, outside`edits, outside`log
      ensures old(outside.history) < outside.history && |outside.edits| <= old(|outside.edits|) && (err ==> Excused(from))
      ensures outside.log == old(outside.log) + said
      ensures Honest(StepSince(t, o, attempted, said, before, from), outside, user)
      ensures Smooth(edits, err) ==> StepFits(StepSince(t, o, attempted, said, before, from), outside, user)
    {
      ghost var h := outside.history;
      o, attempted, err, said := Push(t, t.profileId.value, p.limitsRev, limits);
      ghost var s := StepSince(t, o, attempted, said, before, from);
      PutIsWritten(s, p.limitsRev);
      PrefixAt(h, outside.history, from);
      PrefixAt(h, outside.history, from + 1);
      assert s.seen[0] == h[from] && s.seen[1] == h[from + 1];
      ToldIsHonest(s, outside, user);
      if Smooth(edits, err) {
        ToldFits(s, limits, |h|, outside, user);
      }
    }

    /** Offers the key limits that were read, and settles or records what the gateway answers. */
    method Push(t: SyncTarget, id: int, rev: int, limits: Limits)
      returns (o: Outcome, attempted: bool, err: bool, ghost said: seq<Exchange>)
      requires t.profileId == Some(id)
      modifies store, outside`history, outside`edits, outside`log
      ensures old(outside.history) < outside.history && |outside.edits| <= old(|outside.edits|)
      ensures outside.log == old(outside.log) + said && Offered(t, OwnerOf(user, t), limits, said)
      ensures Genuine(said, outside.answers, old(outside.Tick()), outside.Tick())
      ensures forall i :: 0 <= i < |said| ==> said[i].at == old(outside.Tick()) + 1 + i
      ensures Put(t, o, attempted, rev) && (!attempted ==> outside.Cancelled())
      ensures attempted ==>
                || o == Verdict(said[|said| - 1].answer)
                || (o == PushFailed && FailsDuring(outside.fails, old(outside.Tick()), outside.Tick()))
      ensures err ==> Excused(old(outside.Tick()))
      ensures Smooth(old(|outside.edits|), err) ==> attempted && o == Verdict(said[|said| - 1].answer)
      ensures Smooth(old(|outside.edits|), err) && IsTarget(old(store.Tables()), t)
              && id in old(store.profiles) && old(store.profiles)[id].limitsRev == rev ==>
                Settled(old(store.Tables()), store.Tables(), map[t.key := o], outside.clock, old(outside.Tick()), outside.Tick())
    {
      var answer;
      answer, said := Offer(t, limits);
      if answer != Has {
        o, attempted, err := PushRefused(t, answer);
      } else {
        o, err := Record(t, id, rev);
        attempted := true;
      }
    }

    method Record(t: SyncTarget, id: int, rev: int) returns (o: Outcome, err: bool)
      requires t.profileId == Some(id)
      modifies store, outside`history, outside`edits
      ensures old(outside.history) < outside.history && |outside.edits| <= old(|outside.edits|)
      ensures Put(t, o, true, rev) && (o == PushSynced || (o == PushFailed && outside.fails(outside.Tick())))
      ensures !err ==> o == PushSynced
      ensures err ==> Excused(old(outside.Tick()))
      ensures Smooth(old(|outside.edits|), err) && IsTarget(old(store.Tables()), t)
              && id in old(store.profiles) && old(store.profiles)[id].limitsRev == rev ==>
                Settled(old(store.Tables()), store.Tables(), map[t.key := o], outside.clock, old(outside.Tick()), outside.Tick())
    {
      Pass();
      if outside.fails(outside.Tick()) {
        if outside.Cancelled() {
          return PushSynced, false;
        }
        return PushFailed, true;
      }
      store.MarkLimitsSynced(t.key, id, rev, t.name, t.email);
      return PushSynced, false;
    }

    method Unpushed(t: SyncTarget, reason: string) returns (o: Outcome, err: bool)
      modifies store, outside`history, outside`edits
      ensures old(outside.history) < outside.history && |outside.edits| <= old(|outside.edits|)
      ensures Put(t, o, true, 0) && o == PushFailed
      ensures err ==> Excused(old(outside.Tick()))
      ensures Smooth(old(|outside.edits|), err) && IsTarget(old(store.Tables()), t) ==>
                Settled(old(store.Tables()), store.Tables(), map[t.key := o], outside.clock, old(outside.Tick()), outside.Tick())
    {
      err := Fail(t, reason);
      assert During(outside.clock, old(outside.Tick()), outside.Tick(), outside.Now());
      return PushFailed, err;
    }

    /** Pushes a batch; a key skipped because the context ended is left out. */
    method SyncBatch(batch: seq<SyncTarget>) returns (outcomes: map<int, Outcome>, err: bool, ghost steps: seq<PushStep>)
      modifies store, outside`history, outside`edits, outside`log
      ensures old(outside.history) <= outside.history && |outside.edits| <= old(|outside.edits|)
      ensures Recounts(old(outside.log), outside.log, steps, outside, user, outside.history)
      ensures outcomes == OutcomesOf(steps) && |steps| <= |batch| && TargetsOf(steps) == batch[..|steps|]
      ensures (outside.Cancelled() || TargetsOf(steps) == batch) && (err ==> Excused(old(outside.Tick())))
      ensures Within(steps, old(outside.Tick()), outside.Tick())
      ensures Smooth(old(|outside.edits|), err) ==>
                && TargetsOf(steps) == batch
                && Chain(old(store.Tables()), steps, store.Tables(), outside, user, old(outside.Tick()), outside.Tick())
    {
      ghost var before := store.Tables();
      outcomes, err, steps := map[], false, [];
      for i := 0 to |batch|
        invariant old(outside.history) <= outside.history && |outside.edits| <= old(|outside.edits|)
        invariant Recounts(old(outside.log), outside.log, steps, outside, user, outside.history)
        invariant outcomes == OutcomesOf(steps) && |steps| == i && TargetsOf(steps) == batch[..i]
        invariant Within(steps, old(outside.Tick()), outside.Tick())
        invariant err ==> Excused(old(outside.Tick()))
        invariant Smooth(old(|outside.edits|), err) ==>
                    Chain(before, steps, store.Tables(), outside, user, old(outside.Tick()), outside.Tick())
      {
        if outside.Cancelled() {
          break;
        }
        var o, attempted, failed;
        ghost var h := outside.history;
        o, attempted, failed, steps := SyncNext(batch[i], old(outside.log), before, steps, old(outside.Tick()), old(|outside.edits|), err);
        PrefixThen(old(outside.history), h, outside.history);
        TakeNext(batch, i);
        if attempted {
          outcomes := outcomes[batch[i].key := o];
        }
        err := err || failed;
      }
      TakeAll(batch);
    }

    /** The push of one key, joined to those before it. */
    method SyncNext(t: SyncTarget, ghost log: seq<Exchange>, ghost first: Db, ghost steps: seq<PushStep>, ghost from: nat,
                    ghost edits: nat, ghost erred: bool)
      returns (o: Outcome, attempted: bool, err: bool, ghost more: seq<PushStep>)
      requires |outside.edits| <= edits && Recounts(log, outside.log, steps, outside, user, outside.history)
      requires Within(steps, from, outside.Tick()) && from <= outside.Tick()
      requires Smooth(edits, erred) ==> Chain(first, steps, store.Tables(), outside, user, from, outside.Tick())
      modifies store, outside`history, outside`edits, outside`log
      ensures old(outside.history) < outside.history && |outside.edits| <= old(|outside.edits|)
      ensures Recounts(log, outside.log, more, outside, user, outside.history) && (err ==> Excused(old(outside.Tick())))
      ensures Within(more, from, outside.Tick())
      ensures TargetsOf(more) == TargetsOf(steps) + [t]
      ensures OutcomesOf(more) == if attempted then OutcomesOf(steps)[t.key := o] else OutcomesOf(steps)
      ensures Smooth(edits, erred || err) ==>
                Chain(first, more, store.Tables(), outside, user, from, outside.Tick())
    {
      ghost var said;
      ghost var tables, tick, before := store.Tables(), outside.Tick(), outside.log;
      o, attempted, err, said := SyncOne(t);
      ghost var s := PushStep(t, o, attempted, said, tables, store.Tables(), outside.history[tick..], tick, outside.Tick());
      more := steps + [s];
      WithinStep(steps, s, from);
      RecountsStep(log, before, outside.log, steps, s, outside, user, old(outside.history), outside.history);
      if Smooth(edits, erred || err) {
        ChainGrows(first, steps, s, outside, user, from);
      }
    }

    /** Checks one marked key. */
    method CheckOne(m: MissingKey) returns (r: CheckResult, err: bool, ghost asked: Exchange)
      modifies store, outside`history, outside`edits, outside`log
      ensures old(outside.history) < outside.history && |outside.edits| <= old(|outside.edits|)
      ensures outside.log == old(outside.log) + [asked] && (err ==> Excused(old(outside.Tick())))
      ensures var s := CheckStep(m, r, asked, old(store.Tables()), store.Tables(), outside.history[old(outside.Tick())..],
                                 old(outside.Tick()), outside.Tick());
              CheckHonest(s, outside, grace) && (Smooth(old(|outside.edits|), err) ==> CheckFits(s, outside.clock, grace))
    {
      Pass();
      var answer := outside.Ask(CheckKey(m.ref));
      asked := Exchange(CheckKey(m.ref), answer, outside.Tick());
      if outside.Cancelled() {
        return CheckKept, false, asked;
      }
      if answer == Unknown {
        assert CheckKept == Expected(asked.answer, m.since, grace, outside.clock(asked.at));
        return CheckKept, false, asked;
      }
      ghost var h := outside.history;
      r, err := Act(m, answer);
      PrefixThen(old(outside.history), h, outside.history);
      assert outside.history[old(outside.Tick())..][1] == Found();
      assert r == Expected(asked.answer, m.since, grace, outside.clock(outside.Tick())) || outside.fails(outside.Tick())
             || |outside.edits| != old(|outside.edits|) || !IsMarked(old(store.Tables()), m);
    }

    /** Does what the gateway's answer calls for. */
    method Act(m: MissingKey, answer: Answer) returns (r: CheckResult, err: bool)
      requires answer != Unknown
      modifies store, outside`history, outside`edits
      ensures old(outside.history) < outside.history && outside.Tick() == old(outside.Tick()) + 1
      ensures |outside.edits| <= old(|outside.edits|)
      ensures |outside.edits| == old(|outside.edits|) ==> Found() == old(store.Tables())
      ensures err <==> outside.fails(outside.Tick()) && !outside.Cancelled()
      ensures var k, now := Found().keys, outside.Now();
              if outside.fails(outside.Tick()) then r == CheckKept && store.Tables() == Found()
              else if answer == Has then
                && store.Tables() == ClearKeyMissing(Found(), m.key, m.userId, now)
                && r == if m.key in k && k[m.key].missingSince.Some? then CheckFound else CheckKept
              else
                && store.Tables() == RemoveMissingKey(Found(), m.key, m.userId, now - grace, now)
                && r == if MissingBefore(Found(), m.key, now - grace) then CheckRemoved else CheckKept
    {
      Pass();
      if outside.fails(outside.Tick()) {
        return CheckKept, !outside.Cancelled();
      }
      if answer == Has {
        var cleared := store.ClearKeyMissing(m.key, m.userId, outside.Now());
        return if cleared then CheckFound else CheckKept, false;
      }
      var removed := store.RemoveMissingKey(m.key, m.userId, outside.Now() - grace, outside.Now());
      return if removed then CheckRemoved else CheckKept, false;
    }

    /** Checks every marked key, and counts those it unmarked and removed. */
    method CheckMissing() returns (found: nat, removed: nat, err: bool, ghost steps: seq<CheckStep>)
      modifies store, outside`history, outside`edits, outside`log
      ensures old(outside.history) < outside.history && |outside.edits| <= old(|outside.edits|)
      ensures ChecksRecount(old(outside.log), outside.log, steps, outside, grace, outside.history)
      ensures found == ResultCount(steps, CheckFound) && removed == ResultCount(steps, CheckRemoved)
      ensures err ==> Excused(old(outside.Tick()))
      ensures (err && steps == []) || Asks(outside.history[old(outside.Tick())], RowsOf(steps), !outside.Cancelled())
      ensures Smooth(old(|outside.edits|), err) ==>
                && outside.history[old(outside.Tick())] == old(store.Tables())
                && Report(old(store.Tables()), store.Tables(), steps, outside.clock, grace)
    {
      steps := [];
      Pass();
      if outside.fails(outside.Tick()) {
        return 0, 0, true, steps;
      }
      found, removed, err, steps := CheckListed();
    }

    /** Checks the keys that are marked in the tables of this tick. */
    method CheckListed() returns (found: nat, removed: nat, err: bool, ghost steps: seq<CheckStep>)
      requires outside.history != [] && store.Tables() == Found()
      modifies store, outside`history, outside`edits, outside`log
      ensures old(outside.history) <= outside.history && |outside.edits| <= old(|outside.edits|)
      ensures ChecksRecount(old(outside.log), outside.log, steps, outside, grace, outside.history)
      ensures found == ResultCount(steps, CheckFound) && removed == ResultCount(steps, CheckRemoved)
      ensures err ==> Excused(old(outside.Tick()))
      ensures Asks(outside.history[old(outside.Tick()) - 1], RowsOf(steps), !outside.Cancelled())
      ensures Smooth(old(|outside.edits|), err) ==> Report(old(store.Tables()), store.Tables(), steps, outside.clock, grace)
    {
      var rows := store.ListMissingKeys();
      ghost var listed, h := store.Tables(), outside.history;
      found, removed, err, steps := CheckEach(rows);
      PrefixAt(h, outside.history, old(outside.Tick()) - 1);
      assert outside.history[old(outside.Tick()) - 1] == listed;
      ListedChecks(listed, rows, steps, !outside.Cancelled(), Smooth(old(|outside.edits|), err), store.Tables(), outside.clock, grace);
    }

    method CheckEach(rows: seq<MissingKey>) returns (found: nat, removed: nat, err: bool, ghost steps: seq<CheckStep>)
      modifies store, outside`history, outside`edits, outside`log
      ensures old(outside.history) <= outside.history && |outside.edits| <= old(|outside.edits|)
      ensures ChecksRecount(old(outside.log), outside.log, steps, outside, grace, outside.history)
      ensures found == ResultCount(steps, CheckFound) && removed == ResultCount(steps, CheckRemoved)
      ensures err ==> Excused(old(outside.Tick()))
      ensures |steps| <= |rows| && RowsOf(steps) == rows[..|steps|] && (outside.Cancelled() || RowsOf(steps) == rows)
      ensures Smooth(old(|outside.edits|), err) ==>
                RowsOf(steps) == rows && CheckChain(old(store.Tables()), steps, store.Tables(), outside.clock, grace)
    {
      ghost var before := store.Tables();
      found, removed, err, steps := 0, 0, false, [];
      for i := 0 to |rows|
        invariant old(outside.history) <= outside.history && |outside.edits| <= old(|outside.edits|)
        invariant ChecksRecount(old(outside.log), outside.log, steps, outside, grace, outside.history)
        invariant err ==> Excused(old(outside.Tick()))
        invariant found == ResultCount(steps, CheckFound) && removed == ResultCount(steps, CheckRemoved)
        invariant RowsOf(steps) == rows[..i]
        invariant Smooth(old(|outside.edits|), err) ==> CheckChain(before, steps, store.Tables(), outside.clock, grace)
      {
        if outside.Cancelled() {
          break;
        }
        var r, failed;
        ghost var h := outside.history;
        r, failed, steps := CheckNext(rows[i], old(outside.log), before, steps, old(|outside.edits|), err);
        PrefixThen(old(outside.history), h, outside.history);
        TakeNext(rows, i);
        found := if r == CheckFound then found + 1 else found;
        removed := if r == CheckRemoved then removed + 1 else removed;
        err := err || failed;
      }
      TakeAll(rows);
    }

    /** The check of one key, joined to those before it. */
    method CheckNext(m: MissingKey, ghost log: seq<Exchange>, ghost first: Db, ghost steps: seq<CheckStep>, ghost edits: nat, ghost erred: bool)
      returns (r: CheckResult, err: bool, ghost more: seq<CheckStep>)
      requires |outside.edits| <= edits && ChecksRecount(log, outside.log, steps, outside, grace, outside.history)
      requires Smooth(edits, erred) ==> CheckChain(first, steps, store.Tables(), outside.clock, grace)
      modifies store, outside`history, outside`edits, outside`log
      ensures old(outside.history) < outside.history && |outside.edits| <= old(|outside.edits|)
      ensures ChecksRecount(log, outside.log, more, outside, grace, outside.history) && (err ==> Excused(old(outside.Tick())))
      ensures RowsOf(more) == RowsOf(steps) + [m]
      ensures ResultCount(more, CheckFound) == ResultCount(steps, CheckFound) + if r == CheckFound then 1 else 0
      ensures ResultCount(more, CheckRemoved) == ResultCount(steps, CheckRemoved) + if r == CheckRemoved then 1 else 0
      ensures Smooth(edits, erred || err) ==> CheckChain(first, more, store.Tables(), outside.clock, grace)
    {
      ghost var asked;
      ghost var tables, tick := store.Tables(), outside.Tick();
      r, err, asked := CheckOne(m);
      ghost var s := CheckStep(m, r, asked, tables, store.Tables(), outside.history[tick..], tick, outside.Tick());
      more := steps + [s];
      ChecksRecountStep(log, old(outside.log), steps, s, outside, grace, old(outside.history), outside.history);
      if Smooth(edits, erred || err) {
        CheckChainGrows(first, steps, s, outside.clock, grace);
      }
    }

    /** Settles a batch's outcomes into the run's result, in whatever order the map yields them. */
    method Settle(res: Tally, failedThisRun: set<int>, outcomes: map<int, Outcome>) returns (r: Tally, failed: set<int>)
      ensures AddsUp(res, outcomes, r)
      ensures failed == failedThisRun + KeysWith(outcomes, PushFailed)
    {
      r, failed := res, failedThisRun;
      var left, done: map<int, Outcome> := outcomes.Keys, map[];
      while exists k :: k in left
        invariant left <= outcomes.Keys && done == map k | k in outcomes && k !in left :: outcomes[k]
        invariant AddsUp(res, done, r)
        invariant failed == failedThisRun + KeysWith(done, PushFailed)
        decreases left
      {
        var k :| k in left;
        OutcomeCounts(res, done, r, k, outcomes[k]);
        done := done[k := outcomes[k]];
        match outcomes[k] {
          case PushSynced => r := r.(synced := r.synced + 1);
          case PushMarked => r := r.(marked := r.marked + 1);
          case PushFailed =>
            r := r.(failed := r.failed + 1);
            failed := failed + {k};
        }
        left := left - {k};
      }
      assert done == outcomes;
    }

    /**
     * Checks the keys marked missing, then pushes limits to every out-of-date
     * key once. It ends whatever the surroundings do: the loop in PushAll has
     * less left to do each time round, or fewer edits to come, or is cancelled.
     *
     * Whatever others write, the log holds just the checks and pushes told of in
     * the RunLog and the counters count them; the keys checked are those the
     * listing found, and the keys pushed those that some query of the run found,
     * none of them again after it failed. A run without an error ends when the
     * query has nothing it has not tried. If nobody interferes, each key was
     * pushed once as the tables call for.
     *
     * By the columns of the tables it found, and by what was said since: each marked
     * key is settled by its one answer; each key that needed a push is recorded,
     * marked or failed by its last answer; and if the gateway accepted everything,
     * such a key was told its owner's profile once, and its owner's name exactly if
     * that is not the one it was last labelled with.
     */
    method Run() returns (res: Tally, err: bool, ghost run: RunLog)
      modifies this`running, this`finished, store, outside`history, outside`edits, outside`log
      ensures !running && finished == Some(outside.Now())
      ensures |outside.edits| <= old(|outside.edits|) && old(outside.Tick()) < run.begun <= outside.Tick()
      ensures outside.log == old(outside.log) + AskedIn(run.checks) + Said(run.pushes)
      ensures AllChecksHonest(run.checks, outside, grace) && ChecksTraced(run.checks, outside.history)
      ensures AllHonest(run.pushes, outside, user) && Traced(run.pushes, outside.history)
      ensures (err && run.checks == []) || Asks(outside.history[old(outside.Tick())], RowsOf(run.checks), !err)
      ensures WereDue(run.pushes, outside.clock, outside.history, outside.clock(run.begun), run.begun)
      ensures res.found == ResultCount(run.checks, CheckFound) && res.removed == ResultCount(run.checks, CheckRemoved)
      ensures Tallied(res, run.failures, run.pushes)
      ensures (err ==> Excused(old(outside.Tick()))) && (outside.Cancelled() ==> err)
      ensures Undisturbed(old(|outside.edits|), old(outside.Tick())) ==> Smooth(old(|outside.edits|), err)
      ensures !err ==> CaughtUp(store.Tables(), outside.Now(), outside.clock(run.begun), BatchSize(), run.failures)
      ensures Smooth(old(|outside.edits|), err) ==>
                && outside.history[old(outside.Tick())] == old(store.Tables())
                && Report(old(store.Tables()), run.checked, run.checks, outside.clock, grace)
      ensures Smooth(old(|outside.edits|), err) ==>
                && Progress(run.checked, store.Tables(), res, run.pushes, run.failures, outside, user, run.begun, outside.Tick())
                && (Calm(run.checked, outside.clock, run.begun, outside.Tick()) ==>
                      OutcomesOf(run.pushes).Keys == Eligible(run.checked, outside.clock(run.begun), outside.clock(run.begun)))
      ensures Undisturbed(old(|outside.edits|), old(outside.Tick())) ==>
                SettlesAll(old(store.Tables()), run.checked, outside.log[|old(outside.log)|..], outside.clock, grace)
      ensures Undisturbed(old(|outside.edits|), old(outside.Tick())) && Calm(run.checked, outside.clock, run.begun, outside.Tick())
              && OwnersHaveProfiles(run.checked) && DistinctRefs(run.checked) ==>
                && DecidesAll(run.checked, store.Tables(), outside.log[|old(outside.log)|..], outside.clock, run.begun, outside.Tick())
                && (Accepted(Said(run.pushes)) ==>
                      TellsAll(run.checked, store.Tables(), outside.log[|old(outside.log)|..], user, outside.clock(run.begun)))
    {
      ghost var before, edits, tick, log := store.Tables(), |outside.edits|, outside.Tick(), outside.log;
      running := true;
      res, err, run := Work();
      running, finished := false, Some(outside.Now());
      if Undisturbed(edits, tick) {
        ByColumns(before, store.Tables(), res, run, outside, user, grace, outside.Tick(), log);
      }
    }

    /** What Run does while it says that it is running. */
    method Work() returns (res: Tally, err: bool, ghost run: RunLog)
      modifies store, outside`history, outside`edits, outside`log
      ensures |outside.edits| <= old(|outside.edits|) && old(outside.Tick()) < run.begun <= outside.Tick()
      ensures outside.log == old(outside.log) + AskedIn(run.checks) + Said(run.pushes)
      ensures AllChecksHonest(run.checks, outside, grace) && ChecksTraced(run.checks, outside.history)
      ensures AllHonest(run.pushes, outside, user) && Traced(run.pushes, outside.history)
      ensures (err && run.checks == []) || Asks(outside.history[old(outside.Tick())], RowsOf(run.checks), !err)
      ensures WereDue(run.pushes, outside.clock, outside.history, outside.clock(run.begun), run.begun)
      ensures res.found == ResultCount(run.checks, CheckFound) && res.removed == ResultCount(run.checks, CheckRemoved)
      ensures Tallied(res, run.failures, run.pushes)
      ensures (err ==> Excused(old(outside.Tick()))) && (outside.Cancelled() ==> err)
      ensures Undisturbed(old(|outside.edits|), old(outside.Tick())) ==> Smooth(old(|outside.edits|), err)
      ensures !err ==> CaughtUp(store.Tables(), outside.Now(), outside.clock(run.begun), BatchSize(), run.failures)
      ensures Smooth(old(|outside.edits|), err) ==>
                && outside.history[old(outside.Tick())] == old(store.Tables())
                && Report(old(store.Tables()), run.checked, run.checks, outside.clock, grace)
      ensures Smooth(old(|outside.edits|), err) ==>
                && Progress(run.checked, store.Tables(), res, run.pushes, run.failures, outside, user, run.begun, outside.Tick())
                && (Calm(run.checked, outside.clock, run.begun, outside.Tick()) ==>
                      OutcomesOf(run.pushes).Keys == Eligible(run.checked, outside.clock(run.begun), outside.clock(run.begun)))
    {
      var found, removed;
      ghost var checks;
      found, removed, err, checks := CheckMissing();
      ghost var all, begun := !outside.Cancelled(), outside.history;
      res, run := Tally(0, 0, 0, found, removed), RunLog(checks, store.Tables(), outside.Tick(), [], {});
      if !err {
        ghost var pushes, failures;
        res, err, pushes, failures := PushAll(res);
        ChecksTracedLater(checks, begun, outside.history);
        run := run.(pushes := pushes, failures := failures);
      }
      PrefixAt(begun, outside.history, old(outside.Tick()));
      if !(err && checks == []) {
        AsksFewer(outside.history[old(outside.Tick())], RowsOf(checks), all, !err);
      }
    }

    /** Ten keys for each worker, and never fewer than fifty. */
    function BatchSize(): (n: nat)
      ensures n >= 50 && n >= workers * 10 && (n == 50 || n == workers * 10)
    {
      if workers * 10 > 50 then workers * 10 else 50
    }

    method PushAll(before: Tally) returns (res: Tally, err: bool, ghost steps: seq<PushStep>, ghost failures: set<int>)
      requires before.synced == before.failed == before.marked == 0
      modifies store, outside`history, outside`edits, outside`log
      ensures (err ==> Excused(old(outside.Tick()))) && (outside.Cancelled() ==> err)
      ensures old(outside.history) <= outside.history && |outside.edits| <= old(|outside.edits|)
      ensures res.found == before.found && res.removed == before.removed
      ensures Recounts(old(outside.log), outside.log, steps, outside, user, outside.history)
      ensures WereDue(steps, outside.clock, outside.history, old(outside.Now()), old(outside.Tick()))
      ensures Tallied(res, failures, steps)
      ensures !err ==> CaughtUp(store.Tables(), outside.Now(), old(outside.Now()), BatchSize(), failures)
      ensures Smooth(old(|outside.edits|), err) ==>
                && Progress(old(store.Tables()), store.Tables(), res, steps, failures, outside, user, old(outside.Tick()), outside.Tick())
                && (Calm(old(store.Tables()), outside.clock, old(outside.Tick()), outside.Tick()) ==>
                      OutcomesOf(steps).Keys == Eligible(old(store.Tables()), old(outside.Now()), old(outside.Now())))
    {
      ghost var first := store.Tables();
      var start := outside.Now();
      var batchSize := if workers * 10 > 50 then workers * 10 else 50;
      var failedThisRun: set<int> := {};
      res, err, steps := before, false, [];
      while !outside.Cancelled()
        invariant old(outside.history) <= outside.history && |outside.edits| <= old(|outside.edits|)
        invariant res.found == before.found && res.removed == before.removed && !err
        invariant Recounts(old(outside.log), outside.log, steps, outside, user, outside.history)
        invariant WereDue(steps, outside.clock, outside.history, start, old(outside.Tick()))
        invariant Tallied(res, failedThisRun, steps)
        invariant Smooth(old(|outside.edits|), err) ==>
                    Progress(first, store.Tables(), res, steps, failedThisRun, outside, user, old(outside.Tick()), outside.Tick())
        decreases |outside.edits|, if outside.Cancelled() then 0 else 1, StaleKeys(store.Tables()) - failedThisRun
      {
        var done;
        ghost var more;
        ghost var log, h := outside.log, outside.history;
        res, failedThisRun, err, done, more :=
          Round(res, failedThisRun, start, batchSize, first, steps, old(outside.Tick()), old(|outside.edits|));
        RecountsThen(old(outside.log), log, outside.log, steps, more, outside, user, h, outside.history);
        DueThen(steps, more, outside.clock, h, outside.history, start, old(outside.Tick()), |h|);
        steps := steps + more;
        if done || err {
          return res, err || outside.Cancelled(), steps, failedThisRun;
        }
      }
      return res, true, steps, failedThisRun;
    }

    /** One time round: a batch, and what became of it. first, begun and edits are as the run began. */
    method Round(res: Tally, failedThisRun: set<int>, start: Time, batchSize: nat,
                 ghost first: Db, ghost steps: seq<PushStep>, ghost begun: nat, ghost edits: nat)
      returns (r: Tally, failed: set<int>, err: bool, done: bool, ghost more: seq<PushStep>)
      requires begun <= outside.Tick() && |outside.edits| <= edits && start == outside.clock(begun) && batchSize > 0
      requires Tallied(res, failedThisRun, steps)
      requires Smooth(edits, false) ==>
                 Progress(first, store.Tables(), res, steps, failedThisRun, outside, user, begun, outside.Tick())
      modifies store, outside`history, outside`edits, outside`log
      ensures err ==> Excused(old(outside.Tick()))
      ensures old(outside.history) <= outside.history && |outside.edits| <= old(|outside.edits|)
      ensures r.found == res.found && r.removed == res.removed
      ensures Recounts(old(outside.log), outside.log, more, outside, user, outside.history)
      ensures WereDue(more, outside.clock, outside.history, start, old(outside.Tick()))
      ensures Tallied(r, failed, steps + more)
      ensures done && !err ==> CaughtUp(store.Tables(), outside.Now(), start, batchSize, failed)
      ensures Smooth(edits, err) ==>
                && Progress(first, store.Tables(), r, steps + more, failed, outside, user, begun, outside.Tick())
                && (done && Calm(first, outside.clock, begun, outside.Tick()) ==>
                      OutcomesOf(steps + more).Keys == Eligible(first, start, start))
      ensures Smooth(old(|outside.edits|), err) && !done ==>
                StaleKeys(store.Tables()) - failed < StaleKeys(old(store.Tables())) - failedThisRun
    {
      ghost var tables, tick := store.Tables(), outside.Tick();
      var pushed;
      ghost var asked;
      pushed, err, done, asked, more := PushBatch(start, batchSize, failedThisRun);
      if done {
        r, failed := res, failedThisRun;
        assert steps + more == steps;
        if Smooth(edits, err) {
          NothingNew(first, tables, res, steps, failed, outside, user, begun, tick, outside.Tick(), batchSize);
        }
        return;
      }
      r, failed := Settle(res, failedThisRun, pushed);
      TakenWereDue(outside.history[tick], more, outside.clock, outside.history, start, batchSize, failedThisRun,
                   !outside.Cancelled(), asked, outside.Tick());
      BatchTallied(res, r, failedThisRun, steps, more);
      if Smooth(old(|outside.edits|), err) {
        TakenSettle(tables, more, store.Tables(), outside, user, start, batchSize, failedThisRun, tick, asked, outside.Tick());
      }
      if Smooth(edits, err) {
        BatchAdds(first, tables, store.Tables(), res, r, steps, more, failedThisRun, outside, user, begun, tick, asked, outside.Tick());
      }
    }

    /** Finds the next batch and pushes what has not failed yet; done if there is no such key. */
    method PushBatch(start: Time, batchSize: nat, failedThisRun: set<int>)
      returns (pushed: map<int, Outcome>, err: bool, done: bool, ghost asked: nat, ghost steps: seq<PushStep>)
      modifies store, outside`history, outside`edits, outside`log
      ensures old(outside.history) < outside.history && (err ==> Excused(old(outside.Tick())))
      ensures old(outside.Tick()) + 1 == asked <= outside.Tick() && |outside.edits| <= old(|outside.edits|)
      ensures Recounts(old(outside.log), outside.log, steps, outside, user, outside.history)
      ensures pushed == OutcomesOf(steps) && Within(steps, asked, outside.Tick())
      ensures (err && done && steps == [])
              || Takes(outside.history[old(outside.Tick())], outside.clock(asked), start, batchSize, failedThisRun,
                       TargetsOf(steps), !outside.Cancelled())
      ensures done ==>
                && steps == [] && asked == outside.Tick()
                && (|outside.edits| == old(|outside.edits|) ==> store.Tables() == old(store.Tables()))
                && (!err ==> CaughtUp(store.Tables(), outside.Now(), start, batchSize, failedThisRun))
      ensures Smooth(old(|outside.edits|), err) && !done ==>
                && outside.history[old(outside.Tick())] == old(store.Tables()) && steps != []
                && Chain(old(store.Tables()), steps, store.Tables(), outside, user, asked, outside.Tick())
    {
      var untried;
      pushed, steps := map[], [];
      untried, err := NextBatch(start, batchSize, failedThisRun);
      asked := outside.Tick();
      ghost var tick, listed, h := old(outside.Tick()), Found(), outside.history;
      assert h[tick] == listed;
      done := err || untried == [];
      if !done {
        pushed, err, steps := SyncBatch(untried);
      } else {
        RecountsNothing(outside.log, outside, user, outside.history);
      }
      PrefixAt(h, outside.history, tick);
      assert outside.history[tick] == listed;
      if !(err && done) {
        TakesFirst(listed, outside.clock(asked), start, batchSize, failedThisRun, untried, TargetsOf(steps), !outside.Cancelled());
      }
    }

    method NextBatch(start: Time, batchSize: nat, failedThisRun: set<int>) returns (untried: seq<SyncTarget>, err: bool)
      modifies store, outside`history, outside`edits
      ensures old(outside.history) < outside.history && (err ==> Excused(old(outside.Tick())))
      ensures outside.Tick() == old(outside.Tick()) + 1 && |outside.edits| <= old(|outside.edits|)
      ensures |outside.edits| == old(|outside.edits|) ==> store.Tables() == old(store.Tables())
      ensures store.Tables() == Found()
      ensures if err then untried == [] else IsUntried(Found(), outside.Now(), start, batchSize, failedThisRun, untried)
    {
      untried := [];
      Pass();
      if outside.fails(outside.Tick()) {
        return untried, true;
      }
      var rows := store.PendingLimitSyncs(outside.Now(), start, batchSize);
      untried := Unfailed(rows, failedThisRun);
      return untried, false;
    }
  }

  lemma PrefixThen<T>(a: seq<T>, b: seq<T>, c: seq<T>)
    requires a <= b <= c
    ensures a <= c && (a < b || b < c ==> a < c)
  {
  }

  lemma PrefixAt<T>(a: seq<T>, b: seq<T>, i: nat)
    requires a <= b && i < |a|
    ensures a[i] == b[i]
  {
    assert b[..|a|][i] == b[i];
  }

  lemma TakeNext<T>(s: seq<T>, i: nat)
    requires i < |s|
    ensures s[..i + 1] == s[..i] + [s[i]]
  {
  }

  /** Leaves out the keys that have failed in this run. */
  method Unfailed(batch: seq<SyncTarget>, failed: set<int>) returns (untried: seq<SyncTarget>)
    ensures untried == Without(batch, failed)
  {
    untried := [];
    for i := 0 to |batch|
      invariant untried == Without(batch[..i], failed)
    {
      WithoutNext(batch, failed, i);
      if batch[i].key !in failed {
        untried := untried + [batch[i]];
      }
    }
    assert batch[..|batch|] == batch;
  }
}
