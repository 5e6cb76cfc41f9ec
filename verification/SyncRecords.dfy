/**
 * What the pushes and checks of an undisturbed run tell the gateway, and what
 * becomes of each row, by the columns of the tables they began from
 * (internal/limitsync/limitsync.go, internal/database/limitsync.go).
 */
module SyncRecords {
  import opened Options
  import opened KeyProvider
  import opened Database
  import opened Stores
  import opened MissingKeys
  import opened SyncOutcomes
  import opened SyncChecks

  // ----- Once each -----

  /** Step i is the only push of key k: its block of the log says what the tables call for, and decides the outcome. */
  ghost predicate PushOf(db: Db, steps: seq<PushStep>, o: Outside, user: (string, string, string) -> Owner, k: int, i: nat) {
    && i < |steps| && Stale(db, k) && steps[i].target == TargetOf(db, k)
    && k in OutcomesOf(steps) && OutcomesOf(steps)[k] == steps[i].outcome
    && IsPush(db, TargetOf(db, k), OwnerOf(user, TargetOf(db, k)), steps[i].said, OutcomesOf(steps)[k], o.fails, steps[i].from, steps[i].to)
    && Said(steps) == Said(steps[..i]) + steps[i].said + Said(steps[i + 1..])
    && forall j :: 0 <= j < |steps| && steps[j].target.key == k ==> j == i
  }

  /** Every key with an outcome has exactly one push. */
  lemma EachKeyPushedOnce(db: Db, steps: seq<PushStep>, o: Outside, user: (string, string, string) -> Owner, k: int)
    requires Told(db, steps, o, user) && k in OutcomesOf(steps)
    ensures exists i: nat :: PushOf(db, steps, o, user, k, i)
  {
    var i := StepOf(steps, k);
    assert StepTold(db, steps[i], o, user);
    BlockOf(steps, i);
    assert PushOf(db, steps, o, user, k, i);
  }

  lemma {:induction false} BlockOf(steps: seq<PushStep>, i: nat)
    requires i < |steps|
    ensures Said(steps) == Said(steps[..i]) + steps[i].said + Said(steps[i + 1..])
  {
    assert steps == steps[..i] + [steps[i]] + steps[i + 1..];
    StepsJoin(steps[..i] + [steps[i]], steps[i + 1..]);
    LastStep(steps[..i], steps[i]);
  }

  lemma {:induction false} StepOf(steps: seq<PushStep>, k: int) returns (i: nat)
    requires k in OutcomesOf(steps)
    ensures i < |steps| && steps[i].target.key == k && steps[i].outcome == OutcomesOf(steps)[k]
    decreases |steps|
  {
    var n := |steps| - 1;
    if steps[n].attempted && steps[n].target.key == k {
      i := n;
    } else {
      i := StepOf(steps[..n], k);
    }
  }

  /** How often limits were sent for a key of the gateway. */
  function LimitsSent(said: seq<Exchange>, ref: Ref): nat {
    if said == [] then 0
    else
      var c := said[|said| - 1].call;
      LimitsSent(said[..|said| - 1], ref) + if c.UpdateLimits? && c.ref == ref then 1 else 0
  }

  ghost predicate DistinctRefs(db: Db) {
    forall j, k :: j in db.keys && k in db.keys && db.keys[j].ref == db.keys[k].ref ==> j == k
  }

  ghost predicate Spoken(steps: seq<PushStep>, ref: Ref) {
    exists i :: 0 <= i < |steps| && steps[i].target.ref == ref && steps[i].said != []
  }

  lemma {:induction false} SentJoin(x: seq<Exchange>, y: seq<Exchange>, ref: Ref)
    ensures LimitsSent(x + y, ref) == LimitsSent(x, ref) + LimitsSent(y, ref)
    decreases |y|
  {
    if y == [] {
      assert x + y == x;
    } else {
      var n := |y| - 1;
      assert (x + y)[..|x| + n] == x + y[..n];
      SentJoin(x, y[..n], ref);
    }
  }

  lemma {:induction false} SentInOffer(t: SyncTarget, owner: Owner, l: Limits, said: seq<Exchange>, ref: Ref)
    requires Offered(t, owner, l, said)
    ensures LimitsSent(said, ref) == if t.ref == ref then 1 else 0
  {
    assert LimitsSent(said[..0], ref) == 0;
    assert said[..1][..0] == said[..0];
    assert LimitsSent(said[..1], ref) == if t.ref == ref then 1 else 0;
    assert said[..|said|] == said;
  }

  lemma {:induction false} SentInStep(db: Db, s: PushStep, o: Outside, user: (string, string, string) -> Owner, ref: Ref)
    requires StepTold(db, s, o, user)
    ensures LimitsSent(s.said, ref) == if s.target.ref == ref && s.said != [] then 1 else 0
  {
    if s.said != [] {
      SentInOffer(s.target, OwnerOf(user, s.target), LimitsOf(db, s.target.profileId.value), s.said, ref);
    }
  }

  /** Each key of the gateway is sent limits at most once, and exactly once if its push said anything. */
  lemma {:induction false} LimitsSentOnce(db: Db, steps: seq<PushStep>, o: Outside, user: (string, string, string) -> Owner, ref: Ref)
    requires Told(db, steps, o, user) && DistinctRefs(db)
    ensures LimitsSent(Said(steps), ref) == if Spoken(steps, ref) then 1 else 0
    decreases |steps|
  {
    if steps != [] {
      var n := |steps| - 1;
      ToldButLast(db, steps, o, user);
      LimitsSentOnce(db, steps[..n], o, user, ref);
      SentInStep(db, steps[n], o, user, ref);
      SentJoin(Said(steps[..n]), steps[n].said, ref);
      SpokenLast(db, steps, o, user, ref);
    }
  }

  lemma {:induction false} ToldButLast(db: Db, steps: seq<PushStep>, o: Outside, user: (string, string, string) -> Owner)
    requires steps != [] && Told(db, steps, o, user)
    ensures Told(db, steps[..|steps| - 1], o, user) && StepTold(db, steps[|steps| - 1], o, user)
  {
  }

  lemma {:induction false} SpokenLast(db: Db, steps: seq<PushStep>, o: Outside, user: (string, string, string) -> Owner, ref: Ref)
    requires steps != [] && Told(db, steps, o, user) && DistinctRefs(db)
    ensures var init, s := steps[..|steps| - 1], steps[|steps| - 1];
            && (Spoken(steps, ref) <==> Spoken(init, ref) || (s.target.ref == ref && s.said != []))
            && !(Spoken(init, ref) && s.target.ref == ref)
  {
    var n := |steps| - 1;
    SpokenSoFar(steps, ref);
    if Spoken(steps[..n], ref) {
      var i :| 0 <= i < n && steps[..n][i].target.ref == ref && steps[..n][i].said != [];
      assert steps[i] == steps[..n][i];
      assert StepTold(db, steps[i], o, user) && StepTold(db, steps[n], o, user);
    }
  }

  lemma {:induction false} SpokenSoFar(steps: seq<PushStep>, ref: Ref)
    requires steps != []
    ensures var init, s := steps[..|steps| - 1], steps[|steps| - 1];
            Spoken(steps, ref) <==> Spoken(init, ref) || (s.target.ref == ref && s.said != [])
  {
    var n := |steps| - 1;
    var init, s := steps[..n], steps[n];
    if Spoken(init, ref) {
      var i :| 0 <= i < n && init[i].target.ref == ref && init[i].said != [];
      assert steps[i] == init[i];
    }
    if Spoken(steps, ref) && !(s.target.ref == ref && s.said != []) {
      var i :| 0 <= i < |steps| && steps[i].target.ref == ref && steps[i].said != [];
      assert init[i] == steps[i];
    }
  }

  ghost predicate Accepted(said: seq<Exchange>) {
    forall i :: 0 <= i < |said| ==> said[i].answer == Has
  }

  /** Every owner has a profile that exists, as Profiles proves of tables with integrity. */
  ghost predicate OwnersHaveProfiles(db: Db) {
    forall u :: u in db.users ==> EffectiveProfile(db, db.users[u]).Some? && EffectiveProfile(db, db.users[u]).value in db.profiles
  }

  lemma AcceptedStep(db: Db, s: PushStep, o: Outside, user: (string, string, string) -> Owner)
    requires StepTold(db, s, o, user) && Accepted(s.said) && OwnersHaveProfiles(db) && NoneFails(o.fails, s.from, s.to)
    ensures s.outcome == PushSynced
  {
    assert db.keys[s.target.key].userId in db.users;
  }

  /** When the gateway accepts what it is told and no statement fails, every key is synced. */
  lemma {:induction false} AcceptedMeansSynced(db: Db, steps: seq<PushStep>, o: Outside, user: (string, string, string) -> Owner,
                                               from: nat, to: nat)
    requires Told(db, steps, o, user) && OwnersHaveProfiles(db) && NoneFails(o.fails, from, to)
    requires forall i :: 0 <= i < |steps| ==> Accepted(steps[i].said) && from <= steps[i].from && steps[i].to <= to
    ensures forall k :: k in OutcomesOf(steps) ==> OutcomesOf(steps)[k] == PushSynced
    decreases |steps|
  {
    if steps != [] {
      var n := |steps| - 1;
      AcceptedMeansSynced(db, steps[..n], o, user, from, to);
      assert StepTold(db, steps[n], o, user);
      AcceptedStep(db, steps[n], o, user);
    }
  }

  lemma {:induction false} AcceptedParts(steps: seq<PushStep>)
    requires Accepted(Said(steps))
    ensures forall i :: 0 <= i < |steps| ==> Accepted(steps[i].said)
    decreases |steps|
  {
    if steps != [] {
      var n := |steps| - 1;
      var x, y := Said(steps[..n]), steps[n].said;
      forall i | 0 <= i < |x| ensures x[i].answer == Has {
        assert x[i] == (x + y)[i];
      }
      forall i | 0 <= i < |y| ensures y[i].answer == Has {
        assert y[i] == (x + y)[|x| + i];
      }
      AcceptedParts(steps[..n]);
      assert forall i :: 0 <= i < n ==> steps[i] == steps[..n][i];
    }
  }

  // ----- A new name brings a new alias -----

  /** How often a key of the gateway was given an alias. */
  function AliasesSent(said: seq<Exchange>, ref: Ref): nat {
    if said == [] then 0
    else
      var c := said[|said| - 1].call;
      AliasesSent(said[..|said| - 1], ref) + if c.UpdateAlias? && c.ref == ref then 1 else 0
  }

  lemma {:induction false} AliasesJoin(x: seq<Exchange>, y: seq<Exchange>, ref: Ref)
    ensures AliasesSent(x + y, ref) == AliasesSent(x, ref) + AliasesSent(y, ref)
    decreases |y|
  {
    if y == [] {
      assert x + y == x;
    } else {
      var n := |y| - 1;
      assert (x + y)[..|x| + n] == x + y[..n];
      AliasesJoin(x, y[..n], ref);
    }
  }

  /** The name the key was last labelled with is not its owner's. */
  predicate IsRenamed(db: Db, k: int)
    requires k in db.keys && db.keys[k].userId in db.users
  {
    db.keys[k].syncedName != Some(db.users[db.keys[k].userId].name)
  }

  /** The alias the key is to have says who owns it, by subject and name. */
  function AliasFor(db: Db, k: int): Call
    requires k in db.keys && db.keys[k].userId in db.users
  {
    UpdateAlias(db.keys[k].ref, db.users[db.keys[k].userId].sub, db.users[db.keys[k].userId].name)
  }

  /** An accepted push gives its key the alias once if it was renamed, and no key any other. */
  lemma {:induction false} AliasOfStep(db: Db, s: PushStep, o: Outside, user: (string, string, string) -> Owner, ref: Ref)
    requires StepTold(db, s, o, user) && s.said != [] && Accepted(s.said)
    ensures var k := s.target.key;
            && k in db.keys && db.keys[k].userId in db.users
            && AliasesSent(s.said, ref) == (if db.keys[k].ref == ref && IsRenamed(db, k) then 1 else 0)
            && forall i :: 0 <= i < |s.said| && s.said[i].call.UpdateAlias? ==> s.said[i].call == AliasFor(db, k)
  {
    assert AliasesSent(s.said[..0], ref) == 0;
    assert s.said[..1][..0] == s.said[..0];
    assert AliasesSent(s.said[..1], ref) == 0;
    assert s.said[..|s.said|] == s.said;
  }

  /** The row of key k of the tables the pushes began from decides what was said of its alias. */
  ghost predicate IsLabelled(db: Db, said: seq<Exchange>, k: int)
    requires k in db.keys && db.keys[k].userId in db.users
  {
    && AliasesSent(said, db.keys[k].ref) == (if IsRenamed(db, k) then 1 else 0)
    && forall i :: 0 <= i < |said| && said[i].call.UpdateAlias? && said[i].call.ref == db.keys[k].ref ==> said[i].call == AliasFor(db, k)
  }

  ghost predicate AllSpoke(steps: seq<PushStep>) {
    forall i :: 0 <= i < |steps| ==> steps[i].said != [] && Accepted(steps[i].said)
  }

  /** Pushes of other keys give this one no alias. */
  lemma {:induction false} OthersNotLabelled(db: Db, steps: seq<PushStep>, o: Outside, user: (string, string, string) -> Owner, k: int)
    requires Told(db, steps, o, user) && AllSpoke(steps) && DistinctRefs(db) && k in db.keys
    requires forall i :: 0 <= i < |steps| ==> steps[i].target.key != k
    ensures AliasesSent(Said(steps), db.keys[k].ref) == 0
    ensures forall i :: 0 <= i < |Said(steps)| && Said(steps)[i].call.UpdateAlias? ==> Said(steps)[i].call.ref != db.keys[k].ref
    decreases |steps|
  {
    if steps != [] {
      var n := |steps| - 1;
      var ref := db.keys[k].ref;
      ToldButLast(db, steps, o, user);
      OthersNotLabelled(db, steps[..n], o, user, k);
      AliasOfStep(db, steps[n], o, user, ref);
      AliasesJoin(Said(steps[..n]), steps[n].said, ref);
      LastOfSaid(Said(steps[..n]), steps[n].said, ref);
    }
  }

  /** If neither part gives the key an alias, neither do the two. */
  lemma LastOfSaid(x: seq<Exchange>, y: seq<Exchange>, ref: Ref)
    requires forall i :: 0 <= i < |x| && x[i].call.UpdateAlias? ==> x[i].call.ref != ref
    requires forall i :: 0 <= i < |y| && y[i].call.UpdateAlias? ==> y[i].call.ref != ref
    ensures forall i :: 0 <= i < |x + y| && (x + y)[i].call.UpdateAlias? ==> (x + y)[i].call.ref != ref
  {
  }

  /** If only the middle part gives the key an alias, the whole gives it that one. */
  lemma {:induction false} MiddleOfSaid(x: seq<Exchange>, y: seq<Exchange>, z: seq<Exchange>, ref: Ref, c: Call)
    requires forall i :: 0 <= i < |x| && x[i].call.UpdateAlias? ==> x[i].call.ref != ref
    requires forall i :: 0 <= i < |y| && y[i].call.UpdateAlias? ==> y[i].call == c
    requires forall i :: 0 <= i < |z| && z[i].call.UpdateAlias? ==> z[i].call.ref != ref
    ensures forall i :: 0 <= i < |x + y + z| && (x + y + z)[i].call.UpdateAlias? && (x + y + z)[i].call.ref == ref ==>
              (x + y + z)[i].call == c
  {
  }

  /** Neither what was said before the key's push nor what was said after it gives it an alias. */
  lemma {:induction false} OnlyItsPush(db: Db, steps: seq<PushStep>, o: Outside, user: (string, string, string) -> Owner, i: nat)
    requires Told(db, steps, o, user) && AllSpoke(steps) && DistinctRefs(db) && i < |steps|
    ensures Unlabelled(Said(steps[..i]), steps[i].target.ref) && Unlabelled(Said(steps[i + 1..]), steps[i].target.ref)
  {
    var before, later, k := steps[..i], steps[i + 1..], steps[i].target.key;
    assert StepTold(db, steps[i], o, user);
    OthersNotLabelled(db, before, o, user, k);
    OthersNotLabelled(db, later, o, user, k);
  }

  /** No alias for that key. */
  ghost predicate Unlabelled(said: seq<Exchange>, ref: Ref) {
    AliasesSent(said, ref) == 0 && forall i :: 0 <= i < |said| && said[i].call.UpdateAlias? ==> said[i].call.ref != ref
  }

  /** A key that was pushed is given its owner's name as an alias, once, if it was labelled otherwise, and is left alone if not. */
  lemma {:induction false} RenamedOnce(db: Db, steps: seq<PushStep>, o: Outside, user: (string, string, string) -> Owner, k: int, i: nat)
    requires Told(db, steps, o, user) && AllSpoke(steps) && DistinctRefs(db) && i < |steps| && steps[i].target.key == k
    ensures k in db.keys && db.keys[k].userId in db.users && IsLabelled(db, Said(steps), k)
  {
    var s := steps[i];
    assert StepTold(db, s, o, user);
    AliasOfStep(db, s, o, user, db.keys[k].ref);
    OnlyItsPush(db, steps, o, user, i);
    BlockOf(steps, i);
    LabelledBetween(db, Said(steps[..i]), s.said, Said(steps[i + 1..]), k);
  }

  lemma {:induction false} LabelledBetween(db: Db, x: seq<Exchange>, y: seq<Exchange>, z: seq<Exchange>, k: int)
    requires k in db.keys && db.keys[k].userId in db.users
    requires Unlabelled(x, db.keys[k].ref) && Unlabelled(z, db.keys[k].ref)
    requires AliasesSent(y, db.keys[k].ref) == if IsRenamed(db, k) then 1 else 0
    requires forall i :: 0 <= i < |y| && y[i].call.UpdateAlias? ==> y[i].call == AliasFor(db, k)
    ensures IsLabelled(db, x + y + z, k)
  {
    var ref := db.keys[k].ref;
    AliasesJoin(x + y, z, ref);
    AliasesJoin(x, y, ref);
    MiddleOfSaid(x, y, z, ref, AliasFor(db, k));
  }

  // ----- What a pushed key is told, and its row -----

  /** The limits of profile p, column by column. */
  ghost predicate AreLimitsOf(db: Db, p: int, l: Limits) {
    && p in db.profiles
    && l.models == db.profiles[p].models && l.tpm == db.profiles[p].tpm && l.rpm == db.profiles[p].rpm
    && StoredFor(db, p, l.quotas)
  }

  /** The key is told the limits of profile p for that owner, and nothing else of the kind. */
  ghost predicate IsLimited(db: Db, said: seq<Exchange>, ref: Ref, owner: Owner, p: int) {
    && (exists i :: 0 <= i < |said| && said[i].call.UpdateLimits? && said[i].call.ref == ref)
    && forall i :: 0 <= i < |said| && said[i].call.UpdateLimits? && said[i].call.ref == ref ==>
         said[i].call.owner == owner && AreLimitsOf(db, p, said[i].call.limits)
  }

  /** The row says what the key was told, and that nothing failed. */
  ghost predicate IsRecorded(db: Db, was: KeyRow, now: KeyRow, p: int)
    requires p in db.profiles && was.userId in db.users
  {
    && now.syncedProfile == Some(p) && now.syncedRev == Some(db.profiles[p].limitsRev)
    && now.syncedName == Some(db.users[was.userId].name) && now.syncedEmail == Some(db.users[was.userId].email)
    && now.syncError == "" && now.syncFailedAt == None
    && now.userId == was.userId && now.ref == was.ref && now.expiresAt == was.expiresAt && now.missingSince == was.missingSince
  }

  /** Key k was pushed with its owner's profile p. */
  ghost predicate IsPushed(db: Db, after: Db, said: seq<Exchange>, user: (string, string, string) -> Owner, k: int, p: int)
    requires k in db.keys && db.keys[k].userId in db.users
  {
    var row, u := db.keys[k], db.users[db.keys[k].userId];
    && p in db.profiles && k in after.keys
    && IsLimited(db, said, row.ref, user(u.sub, u.name, u.email), p) && LimitsSent(said, row.ref) == 1
    && IsLabelled(db, said, k) && IsRecorded(db, row, after.keys[k], p)
  }

  /** Key k was left alone. */
  ghost predicate IsLeft(db: Db, after: Db, said: seq<Exchange>, k: int)
    requires k in db.keys
  {
    && k in after.keys && after.keys[k] == db.keys[k]
    && forall i :: 0 <= i < |said| ==> said[i].call.CheckKey? || said[i].call.ref != db.keys[k].ref
  }

  lemma LimitsByColumns(db: Db, p: int)
    requires p in db.profiles
    ensures AreLimitsOf(db, p, LimitsOf(db, p))
  {
  }

  /** Whatever was said of the key's limits was said in its own push. */
  lemma {:induction false} LimitedBySteps(db: Db, steps: seq<PushStep>, o: Outside, user: (string, string, string) -> Owner, k: int, p: int)
    requires Told(db, steps, o, user) && DistinctRefs(db) && Stale(db, k) && GoesBy(db, db.users[db.keys[k].userId], Some(p))
    ensures var u := db.users[db.keys[k].userId];
            forall i :: 0 <= i < |Said(steps)| && Said(steps)[i].call.UpdateLimits? && Said(steps)[i].call.ref == db.keys[k].ref ==>
              Said(steps)[i].call.owner == user(u.sub, u.name, u.email) && AreLimitsOf(db, p, Said(steps)[i].call.limits)
    decreases |steps|
  {
    if steps != [] {
      var n := |steps| - 1;
      ToldButLast(db, steps, o, user);
      LimitedBySteps(db, steps[..n], o, user, k, p);
      LimitedByStep(db, steps[n], o, user, k, p);
    }
  }

  lemma LimitedByStep(db: Db, s: PushStep, o: Outside, user: (string, string, string) -> Owner, k: int, p: int)
    requires StepTold(db, s, o, user) && DistinctRefs(db) && Stale(db, k) && GoesBy(db, db.users[db.keys[k].userId], Some(p))
    ensures var u := db.users[db.keys[k].userId];
            forall i :: 0 <= i < |s.said| && s.said[i].call.UpdateLimits? && s.said[i].call.ref == db.keys[k].ref ==>
              s.said[i].call.owner == user(u.sub, u.name, u.email) && AreLimitsOf(db, p, s.said[i].call.limits)
  {
    GoesByOne(db, db.users[db.keys[k].userId], Some(p));
    if s.said != [] && s.target.key == k {
      LimitsByColumns(db, p);
    }
  }

  /** Of a key that is not pushed, nothing is said. */
  lemma {:induction false} UntoldBySteps(db: Db, steps: seq<PushStep>, o: Outside, user: (string, string, string) -> Owner, k: int)
    requires Told(db, steps, o, user) && DistinctRefs(db) && k in db.keys && forall i :: 0 <= i < |steps| ==> steps[i].target.key != k
    ensures forall i :: 0 <= i < |Said(steps)| ==> Said(steps)[i].call.ref != db.keys[k].ref
    decreases |steps|
  {
    if steps != [] {
      var n := |steps| - 1;
      ToldButLast(db, steps, o, user);
      UntoldBySteps(db, steps[..n], o, user, k);
      assert forall i :: 0 <= i < |steps[n].said| ==> steps[n].said[i].call.ref == steps[n].target.ref;
    }
  }

  /** When the gateway accepts everything and no statement fails, each push says something. */
  lemma {:induction false} AllSpeak(db: Db, steps: seq<PushStep>, o: Outside, user: (string, string, string) -> Owner, from: nat, to: nat)
    requires Told(db, steps, o, user) && OwnersHaveProfiles(db) && NoneFails(o.fails, from, to) && Within(steps, from, to)
    requires Accepted(Said(steps))
    ensures AllSpoke(steps)
  {
    AcceptedParts(steps);
    forall i | 0 <= i < |steps| ensures steps[i].said != [] {
      StepSpeaks(db, steps[i], o, user);
    }
  }

  /** A push says something if there is a profile to tell and no statement fails, and comes out as its last answer says. */
  lemma StepSpeaks(db: Db, s: PushStep, o: Outside, user: (string, string, string) -> Owner)
    requires StepTold(db, s, o, user) && OwnersHaveProfiles(db) && NoneFails(o.fails, s.from, s.to)
    ensures s.said != [] && s.outcome == Verdict(s.said[|s.said| - 1].answer)
  {
    assert db.keys[s.target.key].userId in db.users;
  }

  /** A key that was to be pushed was told its owner's profile and name, once each, and its row says so. */
  lemma {:induction false} PushedByColumns(db: Db, after: Db, t: Tally, steps: seq<PushStep>, failed: set<int>, o: Outside,
                                           user: (string, string, string) -> Owner, from: nat, to: nat, k: int, p: int)
    requires Progress(db, after, t, steps, failed, o, user, from, to) && Accepted(Said(steps)) && NoneFails(o.fails, from, to)
    requires OwnersHaveProfiles(db) && DistinctRefs(db) && k in OutcomesOf(steps)
    requires k in db.keys && db.keys[k].userId in db.users && GoesBy(db, db.users[db.keys[k].userId], Some(p))
    ensures IsPushed(db, after, Said(steps), user, k, p)
  {
    var i := StepOf(steps, k);
    var ref := db.keys[k].ref;
    AllSpeak(db, steps, o, user, from, to);
    assert StepTold(db, steps[i], o, user);
    GoesByOne(db, db.users[db.keys[k].userId], Some(p));
    RenamedOnce(db, steps, o, user, k, i);
    LimitedBySteps(db, steps, o, user, k, p);
    LimitsSentOnce(db, steps, o, user, ref);
    assert Spoken(steps, ref);
    SentIsThere(Said(steps), ref);
    AcceptedMeansSynced(db, steps, o, user, from, to);
    assert RowSettled(db, k, after.keys[k], PushSynced, o.clock, from, to);
  }

  lemma {:induction false} SentIsThere(said: seq<Exchange>, ref: Ref)
    requires LimitsSent(said, ref) > 0
    ensures exists i :: 0 <= i < |said| && said[i].call.UpdateLimits? && said[i].call.ref == ref
    decreases |said|
  {
    var n := |said| - 1;
    if said[n].call.UpdateLimits? && said[n].call.ref == ref {
    } else {
      SentIsThere(said[..n], ref);
      var i :| 0 <= i < n && said[..n][i].call.UpdateLimits? && said[..n][i].call.ref == ref;
      assert said[i].call.ref == ref;
    }
  }

  lemma {:induction false} LeftByColumns(db: Db, after: Db, t: Tally, steps: seq<PushStep>, failed: set<int>, o: Outside,
                                         user: (string, string, string) -> Owner, from: nat, to: nat, k: int)
    requires Progress(db, after, t, steps, failed, o, user, from, to) && DistinctRefs(db) && k in db.keys && k !in OutcomesOf(steps)
    ensures IsLeft(db, after, Said(steps), k)
  {
    forall i | 0 <= i < |steps| ensures steps[i].target.key != k {
      assert StepTold(db, steps[i], o, user);
      OutcomeOfStep(steps, i);
    }
    UntoldBySteps(db, steps, o, user, k);
  }

  lemma {:induction false} OutcomeOfStep(steps: seq<PushStep>, i: nat)
    requires i < |steps| && steps[i].attempted
    ensures steps[i].target.key in OutcomesOf(steps)
    decreases |steps|
  {
    if i < |steps| - 1 {
      OutcomeOfStep(steps[..|steps| - 1], i);
    }
  }

  ghost predicate OnlyAsks(asked: seq<Exchange>) {
    forall i :: 0 <= i < |asked| ==> asked[i].call.CheckKey?
  }

  /** Asking about keys is none of this. */
  lemma {:induction false} AskedFirst(asked: seq<Exchange>, said: seq<Exchange>, ref: Ref)
    requires OnlyAsks(asked)
    ensures AliasesSent(asked + said, ref) == AliasesSent(said, ref) && LimitsSent(asked + said, ref) == LimitsSent(said, ref)
  {
    NoneAsked(asked, ref);
    AliasesJoin(asked, said, ref);
    SentJoin(asked, said, ref);
  }

  lemma {:induction false} NoneAsked(asked: seq<Exchange>, ref: Ref)
    requires OnlyAsks(asked)
    ensures AliasesSent(asked, ref) == 0 && LimitsSent(asked, ref) == 0
    decreases |asked|
  {
    if asked != [] {
      NoneAsked(asked[..|asked| - 1], ref);
    }
  }

  lemma {:induction false} AlsoPushed(db: Db, after: Db, asked: seq<Exchange>, said: seq<Exchange>,
                                      user: (string, string, string) -> Owner, k: int, p: int)
    requires OnlyAsks(asked)
    requires k in db.keys && db.keys[k].userId in db.users && IsPushed(db, after, said, user, k, p)
    ensures IsPushed(db, after, asked + said, user, k, p)
  {
    var all, ref := asked + said, db.keys[k].ref;
    AskedFirst(asked, said, ref);
    var i :| 0 <= i < |said| && said[i].call.UpdateLimits? && said[i].call.ref == ref;
    assert all[|asked| + i] == said[i];
  }

  /** After a run from these tables to those, every key that needed a push had one, and every other was left alone. */
  ghost predicate TellsAll(db: Db, after: Db, said: seq<Exchange>, user: (string, string, string) -> Owner, at: Time) {
    forall k :: k in db.keys ==>
      if exists p :: Wanted(db, k, p, at, at) then exists p :: Wanted(db, k, Some(p), at, at) && IsPushed(db, after, said, user, k, p)
      else IsLeft(db, after, said, k)
  }

  lemma {:induction false} PushesTell(db: Db, after: Db, t: Tally, steps: seq<PushStep>, failed: set<int>, o: Outside,
                                      user: (string, string, string) -> Owner, from: nat, to: nat, asked: seq<Exchange>)
    requires Progress(db, after, t, steps, failed, o, user, from, to) && NoneFails(o.fails, from, to) && Accepted(Said(steps))
    requires OutcomesOf(steps).Keys == Eligible(db, o.clock(from), o.clock(from)) && OwnersHaveProfiles(db) && DistinctRefs(db)
    requires OnlyAsks(asked)
    ensures TellsAll(db, after, asked + Said(steps), user, o.clock(from))
  {
    var at := o.clock(from);
    forall k | k in db.keys && exists p :: Wanted(db, k, p, at, at)
      ensures exists p :: Wanted(db, k, Some(p), at, at) && IsPushed(db, after, asked + Said(steps), user, k, p)
    {
      var p :| Wanted(db, k, p, at, at);
      WantedIsEligible(db, k, p, at, at);
      var own := EffectiveProfile(db, db.users[db.keys[k].userId]);
      PushedByColumns(db, after, t, steps, failed, o, user, from, to, k, own.value);
      AlsoPushed(db, after, asked, Said(steps), user, k, own.value);
    }
    forall k | k in db.keys && !exists p :: Wanted(db, k, p, at, at) ensures IsLeft(db, after, asked + Said(steps), k) {
      WantedIsEligible(db, k, None, at, at);
      LeftByColumns(db, after, t, steps, failed, o, user, from, to, k);
    }
  }

  // ----- What the gateway answered decides each row -----

  /** The last thing said of the key, at i. */
  ghost predicate LastWord(said: seq<Exchange>, ref: Ref, i: nat) {
    && i < |said| && said[i].call.ref == ref && !said[i].call.CheckKey?
    && forall j :: i < j < |said| ==> said[j].call.ref != ref
  }

  /** The gateway had the key, did not, or could not tell. */
  ghost predicate AsAnswered(db: Db, was: KeyRow, now: KeyRow, p: int, answer: Answer, clock: nat -> Time, from: nat, to: nat)
    requires p in db.profiles && was.userId in db.users
  {
    match answer
    case Has => IsRecorded(db, was, now, p)
    case NotFound =>
      exists i: nat :: from <= i <= to && now == was.(missingSince := Some(clock(i)))
    case Unknown =>
      exists i: nat, reason :: from <= i <= to && now == was.(syncError := reason, syncFailedAt := Some(clock(i)))
  }

  /** The last answer the key was given decides its row. */
  ghost predicate IsDecided(db: Db, after: Db, said: seq<Exchange>, clock: nat -> Time, from: nat, to: nat, k: int, p: int)
    requires k in db.keys && db.keys[k].userId in db.users
  {
    && p in db.profiles && k in after.keys
    && exists i: nat :: LastWord(said, db.keys[k].ref, i) && AsAnswered(db, db.keys[k], after.keys[k], p, said[i].answer, clock, from, to)
  }

  lemma {:induction false} LastWordOfStep(db: Db, steps: seq<PushStep>, o: Outside, user: (string, string, string) -> Owner, i: nat)
    requires Told(db, steps, o, user) && DistinctRefs(db) && i < |steps| && steps[i].said != []
    ensures var at: nat := |Said(steps[..i])| + |steps[i].said| - 1;
            LastWord(Said(steps), steps[i].target.ref, at) && Said(steps)[at] == steps[i].said[|steps[i].said| - 1]
  {
    var k, later := steps[i].target.key, steps[i + 1..];
    assert StepTold(db, steps[i], o, user);
    BlockOf(steps, i);
    forall j | 0 <= j < |later| ensures later[j].target.key != k {
      assert later[j] == steps[i + 1 + j];
    }
    UntoldBySteps(db, later, o, user, k);
    LastOfThree(Said(steps[..i]), steps[i].said, Said(later), steps[i].target.ref);
  }

  lemma {:induction false} LastOfThree(x: seq<Exchange>, y: seq<Exchange>, z: seq<Exchange>, ref: Ref)
    requires y != [] && y[|y| - 1].call.ref == ref && !y[|y| - 1].call.CheckKey?
    requires forall j :: 0 <= j < |z| ==> z[j].call.ref != ref
    ensures LastWord(x + y + z, ref, |x| + |y| - 1) && (x + y + z)[|x| + |y| - 1] == y[|y| - 1]
  {
  }

  /** A push that no statement failed says something if there is a profile, and its row is as its last answer says. */
  lemma {:induction false} DecidedByColumns(db: Db, after: Db, t: Tally, steps: seq<PushStep>, failed: set<int>, o: Outside,
                                            user: (string, string, string) -> Owner, from: nat, to: nat, k: int, p: int)
    requires Progress(db, after, t, steps, failed, o, user, from, to) && NoneFails(o.fails, from, to)
    requires OwnersHaveProfiles(db) && DistinctRefs(db) && k in OutcomesOf(steps)
    requires k in db.keys && db.keys[k].userId in db.users && GoesBy(db, db.users[db.keys[k].userId], Some(p))
    ensures IsDecided(db, after, Said(steps), o.clock, from, to, k, p)
  {
    var i := StepOf(steps, k);
    var s := steps[i];
    StepSpeaks(db, s, o, user);
    GoesByOne(db, db.users[db.keys[k].userId], Some(p));
    LastWordOfStep(db, steps, o, user, i);
    assert RowSettled(db, k, after.keys[k], s.outcome, o.clock, from, to);
    RowAsAnswered(db, after.keys[k], k, p, s.said[|s.said| - 1].answer, o.clock, from, to);
  }

  lemma {:induction false} RowAsAnswered(db: Db, now: KeyRow, k: int, p: int, answer: Answer, clock: nat -> Time, from: nat, to: nat)
    requires Stale(db, k) && GoesBy(db, db.users[db.keys[k].userId], Some(p)) && p in db.profiles
    requires RowSettled(db, k, now, Verdict(answer), clock, from, to)
    ensures AsAnswered(db, db.keys[k], now, p, answer, clock, from, to)
  {
    GoesByOne(db, db.users[db.keys[k].userId], Some(p));
    match answer
    case Has =>
    case NotFound =>
      var i: nat :| from <= i <= to && clock(i) == now.missingSince.value;
      assert now == db.keys[k].(missingSince := Some(clock(i)));
    case Unknown =>
      var i: nat :| from <= i <= to && clock(i) == now.syncFailedAt.value;
      assert now == db.keys[k].(syncError := now.syncError, syncFailedAt := Some(clock(i)));
  }

  /** Every key that needed a push is as its last answer says, and every other was left alone. */
  ghost predicate DecidesAll(db: Db, after: Db, said: seq<Exchange>, clock: nat -> Time, from: nat, to: nat) {
    forall k :: k in db.keys ==>
      if exists p :: Wanted(db, k, p, clock(from), clock(from)) then
        exists p :: Wanted(db, k, Some(p), clock(from), clock(from)) && IsDecided(db, after, said, clock, from, to, k, p)
      else IsLeft(db, after, said, k)
  }

  lemma {:induction false} AlsoDecided(db: Db, after: Db, asked: seq<Exchange>, said: seq<Exchange>, clock: nat -> Time,
                                       from: nat, to: nat, k: int, p: int)
    requires k in db.keys && db.keys[k].userId in db.users && IsDecided(db, after, said, clock, from, to, k, p)
    ensures IsDecided(db, after, asked + said, clock, from, to, k, p)
  {
    var i: nat :| LastWord(said, db.keys[k].ref, i) && AsAnswered(db, db.keys[k], after.keys[k], p, said[i].answer, clock, from, to);
    assert (asked + said)[|asked| + i] == said[i];
    assert LastWord(asked + said, db.keys[k].ref, |asked| + i);
  }

  lemma {:induction false} PushesDecide(db: Db, after: Db, t: Tally, steps: seq<PushStep>, failed: set<int>, o: Outside,
                                        user: (string, string, string) -> Owner, from: nat, to: nat, asked: seq<Exchange>)
    requires Progress(db, after, t, steps, failed, o, user, from, to) && NoneFails(o.fails, from, to)
    requires OutcomesOf(steps).Keys == Eligible(db, o.clock(from), o.clock(from)) && OwnersHaveProfiles(db) && DistinctRefs(db)
    requires OnlyAsks(asked)
    ensures DecidesAll(db, after, asked + Said(steps), o.clock, from, to)
  {
    var at := o.clock(from);
    forall k | k in db.keys && exists p :: Wanted(db, k, p, at, at)
      ensures exists p :: Wanted(db, k, Some(p), at, at) && IsDecided(db, after, asked + Said(steps), o.clock, from, to, k, p)
    {
      var p :| Wanted(db, k, p, at, at);
      WantedIsEligible(db, k, p, at, at);
      var own := EffectiveProfile(db, db.users[db.keys[k].userId]);
      DecidedByColumns(db, after, t, steps, failed, o, user, from, to, k, own.value);
      AlsoDecided(db, after, asked, Said(steps), o.clock, from, to, k, own.value);
    }
    forall k | k in db.keys && !exists p :: Wanted(db, k, p, at, at) ensures IsLeft(db, after, asked + Said(steps), k) {
      WantedIsEligible(db, k, None, at, at);
      LeftByColumns(db, after, t, steps, failed, o, user, from, to, k);
    }
  }

  // ----- What the gateway answered decides each marked row -----

  /** The answer to the one question about a marked key decides its row; what counts for a removal is how long it was marked. */
  ghost predicate IsSettled(was: KeyRow, after: Db, k: int, asked: Exchange, clock: nat -> Time, grace: int) {
    && asked.call == CheckKey(was.ref) && was.missingSince.Some?
    && match asked.answer
       case Has => k in after.keys && after.keys[k] == was.(missingSince := None, syncedRev := None)
       case Unknown => k in after.keys && after.keys[k] == was
       case NotFound =>
         exists n: nat :: n >= asked.at
           && if was.missingSince.value + grace <= clock(n) then k !in after.keys else k in after.keys && after.keys[k] == was
  }

  /** Every marked key was asked about and is as it was answered; no other row changed. */
  ghost predicate SettlesAll(before: Db, after: Db, asked: seq<Exchange>, clock: nat -> Time, grace: int) {
    forall k :: k in before.keys ==>
      if before.keys[k].missingSince.Some? && before.keys[k].userId in before.users then
        exists i: nat :: i < |asked| && IsSettled(before.keys[k], after, k, asked[i], clock, grace)
      else k in after.keys && after.keys[k] == before.keys[k]
  }

  lemma {:induction false} ResultOfCheck(checks: seq<CheckStep>, i: nat)
    requires i < |checks| && forall j, l :: 0 <= j < l < |checks| ==> checks[j].row.key != checks[l].row.key
    ensures checks[i].row.key in ResultsOf(checks) && ResultsOf(checks)[checks[i].row.key] == checks[i].result
    decreases |checks|
  {
    if i < |checks| - 1 {
      ResultOfCheck(checks[..|checks| - 1], i);
    }
  }

  lemma {:induction false} CheckSettles(b: Db, checked: Db, checks: seq<CheckStep>, clock: nat -> Time, grace: int, i: nat)
    requires AreMarked(b, RowsOf(checks)) && Report(b, checked, checks, clock, grace) && i < |checks|
    requires checks[i].asked.call == CheckKey(checks[i].row.ref)
    ensures IsSettled(b.keys[checks[i].row.key], checked, checks[i].row.key, checks[i].asked, clock, grace)
  {
    var s := checks[i];
    assert RowsOf(checks)[i] == s.row;
    forall j, l | 0 <= j < l < |checks| ensures checks[j].row.key != checks[l].row.key {
      assert RowsOf(checks)[j].key != RowsOf(checks)[l].key;
    }
    ResultOfCheck(checks, i);
    assert Decided(s, clock, grace);
    assert RowLooked(b, checked, s.row.key, s.result);
    var now: nat :| s.asked.at <= now <= s.to && s.result == Expected(s.asked.answer, s.row.since, grace, clock(now));
    assert s.row.since + grace <= clock(now) <==> s.row.since <= clock(now) - grace;
  }

  lemma {:induction false} MarkedIsAsked(b: Db, checked: Db, checks: seq<CheckStep>, o: Outside, grace: int, k: int) returns (i: nat)
    requires AllMarked(b, RowsOf(checks)) && Report(b, checked, checks, o.clock, grace) && AllChecksHonest(checks, o, grace)
    requires k in MarkedKeys(b)
    ensures i < |checks| && IsSettled(b.keys[k], checked, k, AskedIn(checks)[i], o.clock, grace)
  {
    var j :| 0 <= j < |RowsOf(checks)| && RowsOf(checks)[j].key == k;
    i := j;
    assert CheckHonest(checks[i], o, grace);
    CheckSettles(b, checked, checks, o.clock, grace, i);
  }

  lemma {:induction false} OthersUnasked(b: Db, rows: seq<MissingKey>, k: int)
    requires AreMarked(b, rows) && k !in MarkedKeys(b)
    ensures k !in RowKeys(rows)
  {
    forall m | m in rows ensures m.key in MarkedKeys(b) {
    }
  }

  lemma {:induction false} ChecksByColumns(b: Db, checked: Db, checks: seq<CheckStep>, o: Outside, grace: int, said: seq<Exchange>)
    requires AllMarked(b, RowsOf(checks)) && Report(b, checked, checks, o.clock, grace) && AllChecksHonest(checks, o, grace)
    ensures SettlesAll(b, checked, AskedIn(checks) + said, o.clock, grace)
  {
    var asked := AskedIn(checks) + said;
    forall k | k in b.keys
      ensures if k in MarkedKeys(b) then exists i: nat :: i < |asked| && IsSettled(b.keys[k], checked, k, asked[i], o.clock, grace)
              else k in checked.keys && checked.keys[k] == b.keys[k]
    {
      if k in MarkedKeys(b) {
        var i := MarkedIsAsked(b, checked, checks, o, grace, k);
        assert asked[i] == AskedIn(checks)[i];
      } else {
        OthersUnasked(b, RowsOf(checks), k);
        assert RowLooked(b, checked, k, CheckKept);
      }
    }
  }

  lemma {:induction false} ChecksOnlyAsk(checks: seq<CheckStep>, o: Outside, grace: int)
    requires AllChecksHonest(checks, o, grace)
    ensures OnlyAsks(AskedIn(checks))
  {
    forall i | 0 <= i < |AskedIn(checks)| ensures AskedIn(checks)[i].call.CheckKey? {
      assert CheckHonest(checks[i], o, grace);
    }
  }

  lemma {:induction false} SaidSince(before: seq<Exchange>, x: seq<Exchange>, y: seq<Exchange>)
    ensures (before + x + y)[|before|..] == x + y
  {
  }
}
