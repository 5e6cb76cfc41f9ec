/**
 * What a run of the limit sync leaves in the gateway: its log, replayed over the
 * gateway's records.
 */
module SyncGateway {
  import opened Options
  import opened KeyProvider
  import opened Database
  import opened Stores
  import opened MissingKeys
  import opened SyncOutcomes
  import opened SyncRun
  import opened SyncRecords
  import opened SyncResults
  import Gateway
  import LiteLLM
  import RoundTrip

  /** The gateway's records after it accepted what was said; labels are not limits. */
  function Heard(st: Gateway.State, said: seq<Exchange>): Gateway.State {
    if said == [] then st
    else
      var before, last := Heard(st, said[..|said| - 1]), said[|said| - 1];
      if last.call.UpdateLimits? && last.answer == Has then
        LiteLLM.LimitsUpdated(before, last.call.ref, last.call.owner, last.call.limits)
      else before
  }

  lemma {:induction false} HeardJoin(st: Gateway.State, x: seq<Exchange>, y: seq<Exchange>)
    ensures Heard(st, x + y) == Heard(Heard(st, x), y)
    decreases |y|
  {
    if y == [] {
      assert x + y == x;
    } else {
      var n := |y| - 1;
      assert (x + y)[..|x| + n] == x + y[..n];
      HeardJoin(st, x, y[..n]);
    }
  }

  /** A key authorises what the limits say, and reads back all their windows, together with its owner. */
  ghost predicate Serves(st: Gateway.State, ref: Ref, owner: Owner, l: Limits) {
    && ref in st.keys
    && st.keys[ref].models == l.models && st.keys[ref].tpm == l.tpm && st.keys[ref].rpm == l.rpm
    && (owner.id != "" ==> st.keys[ref].owner == owner.id)
    && Shows(st, ref, owner.id, l.quotas)
  }

  /** The dashboard reads back all these windows, and no others. */
  ghost predicate Shows(st: Gateway.State, ref: Ref, owner: string, quotas: seq<QuotaWindow>) {
    match LiteLLM.WindowsRead(st, ref, owner)
    case Err(_) => false
    case Ok(windows) => multiset(LiteLLM.Plains(windows)) == multiset(EffectiveWindows(quotas))
  }

  lemma UpdatedServes(st: Gateway.State, ref: Ref, owner: Owner, l: Limits)
    requires ref in st.keys
    ensures Serves(LiteLLM.LimitsUpdated(st, ref, owner, l), ref, owner, l)
  {
    KeyUpdated(LiteLLM.OwnerBound(st, owner, l).keys[ref], owner, l);
    RoundTrip.WindowRoundTrip(st, ref, owner, l);
  }

  lemma KeyUpdated(k: Gateway.Key, owner: Owner, l: Limits)
    ensures var r := Gateway.PatchKey(k, LiteLLM.UpdatePayload(owner.id, LiteLLM.KeyHalf(owner.id, l)));
            && r.models == l.models && r.tpm == l.tpm && r.rpm == l.rpm && (owner.id != "" ==> r.owner == owner.id)
  {
  }

  /** A push for another key and another person leaves it alone. */
  lemma OthersUpdated(st: Gateway.State, ref: Ref, owner: Owner, l: Limits, other: Ref, person: Owner, limits: Limits)
    requires Serves(st, ref, owner, l) && other != ref && (person.id != owner.id || person.id == "")
    ensures Serves(LiteLLM.LimitsUpdated(st, other, person, limits), ref, owner, l)
  {
    RoundTrip.UpdateIsLocal(st, other, person, limits);
    ServesAlike(st, LiteLLM.LimitsUpdated(st, other, person, limits), ref, owner, l);
  }

  /** What a key serves depends on its own record and its owner's. */
  lemma ServesAlike(st: Gateway.State, r: Gateway.State, ref: Ref, owner: Owner, l: Limits)
    requires Serves(st, ref, owner, l) && ref in r.keys && r.keys[ref] == st.keys[ref]
    requires owner.id != "" ==> (owner.id in st.users <==> owner.id in r.users)
                                && (owner.id in st.users ==> r.users[owner.id] == st.users[owner.id])
    ensures Serves(r, ref, owner, l)
  {
    assert LiteLLM.GatheredWindows(r, r.keys[ref], owner.id) == LiteLLM.GatheredWindows(st, st.keys[ref], owner.id);
  }

  /** An accepted offer comes to one update of the key's limits. */
  lemma {:induction false} OfferHeard(st: Gateway.State, t: SyncTarget, owner: Owner, l: Limits, said: seq<Exchange>)
    requires Offered(t, owner, l, said) && Accepted(said)
    ensures Heard(st, said) == LiteLLM.LimitsUpdated(st, t.ref, owner, l)
  {
    assert said[..1][..0] == [];
    assert Heard(st, said[..1]) == LiteLLM.LimitsUpdated(st, t.ref, owner, l);
    assert said[..|said|] == said;
  }

  function OwnerOfKey(db: Db, k: int, user: (string, string, string) -> Owner): Owner
    requires Stale(db, k)
  {
    OwnerOf(user, TargetOf(db, k))
  }

  function LimitsOfKey(db: Db, k: int): Limits
    requires Stale(db, k) && TargetOf(db, k).profileId.Some? && TargetOf(db, k).profileId.value in db.profiles
  {
    LimitsOf(db, TargetOf(db, k).profileId.value)
  }

  /** No two keys to push share a gateway user. */
  ghost predicate DistinctOwners(db: Db, user: (string, string, string) -> Owner) {
    forall j, k :: j in StaleKeys(db) && k in StaleKeys(db) && j != k && OwnerOfKey(db, j, user).id != "" ==>
      OwnerOfKey(db, j, user).id != OwnerOfKey(db, k, user).id
  }

  /** They do not if everyone has one key and a subject of their own. */
  lemma OneKeyOneOwner(db: Db, prefix: string, user: (string, string, string) -> Owner)
    requires OneKeyEach(db)
    requires forall u, v :: u in db.users && v in db.users && db.users[u].sub == db.users[v].sub ==> u == v
    requires forall sub, name, email :: user(sub, name, email).id == OwnerId(prefix, sub)
    ensures DistinctOwners(db, user)
  {
    forall j, k | j in StaleKeys(db) && k in StaleKeys(db) && OwnerOfKey(db, j, user).id == OwnerOfKey(db, k, user).id
      ensures j == k
    {
      OwnerIdsDiffer(prefix, TargetOf(db, j).sub, TargetOf(db, k).sub);
    }
  }

  /** A step's push, heard by a gateway that accepts it. */
  lemma {:induction false} StepHeard(db: Db, st: Gateway.State, s: PushStep, o: Outside, user: (string, string, string) -> Owner)
    requires StepTold(db, s, o, user) && Accepted(s.said) && OwnersHaveProfiles(db) && NoneFails(o.fails, s.from, s.to)
    ensures TargetOf(db, s.target.key).profileId.Some? && TargetOf(db, s.target.key).profileId.value in db.profiles
    ensures Heard(st, s.said) ==
            LiteLLM.LimitsUpdated(st, s.target.ref, OwnerOfKey(db, s.target.key, user), LimitsOfKey(db, s.target.key))
  {
    assert db.keys[s.target.key].userId in db.users;
    OfferHeard(st, s.target, OwnerOf(user, s.target), LimitsOf(db, s.target.profileId.value), s.said);
  }

  ghost predicate AllAccepted(steps: seq<PushStep>, o: Outside) {
    forall i :: 0 <= i < |steps| ==> Accepted(steps[i].said) && NoneFails(o.fails, steps[i].from, steps[i].to)
  }

  /** Pushing limits neither adds nor removes a key. */
  lemma {:induction false} KeysStay(st: Gateway.State, said: seq<Exchange>)
    ensures Heard(st, said).keys.Keys == st.keys.Keys
    decreases |said|
  {
    if said != [] {
      KeysStay(st, said[..|said| - 1]);
    }
  }

  /** The key of a row serves its owner's profile. */
  ghost predicate Served(db: Db, st: Gateway.State, k: int, user: (string, string, string) -> Owner)
    requires Stale(db, k)
  {
    match TargetOf(db, k).profileId
    case None => false
    case Some(p) => p in db.profiles && Serves(st, db.keys[k].ref, OwnerOfKey(db, k, user), LimitsOf(db, p))
  }

  lemma {:induction false} PushServes(db: Db, st: Gateway.State, after: Gateway.State, s: PushStep, o: Outside,
                                      user: (string, string, string) -> Owner)
    requires StepTold(db, s, o, user) && Accepted(s.said) && NoneFails(o.fails, s.from, s.to)
    requires Apart(db, user) && s.target.ref in st.keys && after == Heard(st, s.said)
    ensures Stale(db, s.target.key) && Served(db, after, s.target.key, user)
  {
    var k := s.target.key;
    StepHeard(db, st, s, o, user);
    UpdatedServes(st, s.target.ref, OwnerOfKey(db, k, user), LimitsOfKey(db, k));
  }

  lemma {:induction false} PushLeavesOthers(db: Db, st: Gateway.State, after: Gateway.State, s: PushStep, o: Outside,
                                            user: (string, string, string) -> Owner, k: int)
    requires StepTold(db, s, o, user) && Accepted(s.said) && NoneFails(o.fails, s.from, s.to)
    requires Apart(db, user) && k != s.target.key && Stale(db, k) && Served(db, st, k, user) && after == Heard(st, s.said)
    ensures Stale(db, k) && Served(db, after, k, user)
  {
    var j := s.target.key;
    StepHeard(db, st, s, o, user);
    assert k in StaleKeys(db) && j in StaleKeys(db);
    OthersUpdated(st, db.keys[k].ref, OwnerOfKey(db, k, user), LimitsOfKey(db, k),
                  s.target.ref, OwnerOfKey(db, j, user), LimitsOfKey(db, j));
  }

  ghost predicate RefsKnown(steps: seq<PushStep>, st: Gateway.State) {
    forall i :: 0 <= i < |steps| ==> steps[i].target.ref in st.keys
  }

  /** The pushes of a run were accepted, of keys the gateway has. */
  ghost predicate Good(db: Db, steps: seq<PushStep>, st: Gateway.State, o: Outside, user: (string, string, string) -> Owner) {
    Told(db, steps, o, user) && AllAccepted(steps, o) && RefsKnown(steps, st)
  }

  /** No two rows share a key of the gateway, no two keys a gateway user, and everyone has a profile. */
  ghost predicate Apart(db: Db, user: (string, string, string) -> Owner) {
    OwnersHaveProfiles(db) && DistinctRefs(db) && DistinctOwners(db, user)
  }

  ghost predicate AllServed(db: Db, steps: seq<PushStep>, st: Gateway.State, user: (string, string, string) -> Owner) {
    forall i :: 0 <= i < |steps| ==> Stale(db, steps[i].target.key) && Served(db, st, steps[i].target.key, user)
  }

  /** After pushes that were all accepted, every pushed key serves its owner's profile. */
  lemma {:induction false} PushedKeysServe(db: Db, steps: seq<PushStep>, st: Gateway.State, o: Outside,
                                           user: (string, string, string) -> Owner)
    requires Good(db, steps, st, o, user) && Apart(db, user)
    ensures AllServed(db, steps, Heard(st, Said(steps)), user)
    decreases |steps|
  {
    if steps != [] {
      var init, last := steps[..|steps| - 1], steps[|steps| - 1];
      var before := Heard(st, Said(init));
      SplitLast(steps);
      LastPush(db, steps, st, o, user);
      PushedKeysServe(db, init, st, o, user);
      OnePushMore(db, init, last, before, Heard(before, last.said), o, user);
    }
  }

  lemma {:induction false} OnePushMore(db: Db, init: seq<PushStep>, s: PushStep, before: Gateway.State, after: Gateway.State,
                                       o: Outside, user: (string, string, string) -> Owner)
    requires StepTold(db, s, o, user) && Accepted(s.said) && NoneFails(o.fails, s.from, s.to)
    requires Apart(db, user) && s.target.ref in before.keys && after == Heard(before, s.said)
    requires AllServed(db, init, before, user) && forall i :: 0 <= i < |init| ==> init[i].target.key != s.target.key
    ensures AllServed(db, init + [s], after, user)
  {
    var all := init + [s];
    forall i | 0 <= i < |all| ensures Stale(db, all[i].target.key) && Served(db, after, all[i].target.key, user) {
      if i < |init| {
        PushLeavesOthers(db, before, after, s, o, user, init[i].target.key);
      } else {
        PushServes(db, before, after, s, o, user);
      }
    }
  }

  lemma {:induction false} LastPush(db: Db, steps: seq<PushStep>, st: Gateway.State, o: Outside, user: (string, string, string) -> Owner)
    requires steps != [] && Good(db, steps, st, o, user)
    ensures var n := |steps| - 1;
            && Good(db, steps[..n], st, o, user) && StepTold(db, steps[n], o, user)
            && Accepted(steps[n].said) && NoneFails(o.fails, steps[n].from, steps[n].to)
            && Heard(st, Said(steps)) == Heard(Heard(st, Said(steps[..n])), steps[n].said)
            && steps[n].target.ref in Heard(st, Said(steps[..n])).keys
            && forall i :: 0 <= i < n ==> steps[i].target.key != steps[n].target.key
  {
    ToldButLast(db, steps, o, user);
    HeardJoin(st, Said(steps[..|steps| - 1]), steps[|steps| - 1].said);
    KeysStay(st, Said(steps[..|steps| - 1]));
  }

  /**
   * After an undisturbed run that the gateway accepted, every key that was to be
   * pushed authorises its owner's profile's models and rates, and the dashboard
   * shows all that profile's windows.
   */
  lemma RunServesAll(db: Db, b: Db, t: Tally, steps: seq<PushStep>, failed: set<int>, st: Gateway.State, o: Outside,
                     user: (string, string, string) -> Owner, from: nat, to: nat, k: int)
    requires Progress(db, b, t, steps, failed, o, user, from, to)
    requires OutcomesOf(steps).Keys == Eligible(db, o.clock(from), o.clock(from)) && k in Eligible(db, o.clock(from), o.clock(from))
    requires Accepted(Said(steps)) && NoneFails(o.fails, from, to) && Apart(db, user) && HasKeys(st, db)
    ensures Stale(db, k) && Served(db, Heard(st, Said(steps)), k, user)
  {
    AcceptedRunIsGood(db, b, t, steps, failed, st, o, user, from, to);
    var i := StepOf(steps, k);
    PushedKeysServe(db, steps, st, o, user);
  }

  lemma {:induction false} AcceptedRunIsGood(db: Db, b: Db, t: Tally, steps: seq<PushStep>, failed: set<int>, st: Gateway.State,
                                             o: Outside, user: (string, string, string) -> Owner, from: nat, to: nat)
    requires Progress(db, b, t, steps, failed, o, user, from, to)
    requires Accepted(Said(steps)) && NoneFails(o.fails, from, to) && HasKeys(st, db)
    ensures Good(db, steps, st, o, user)
  {
    AcceptedParts(steps);
    forall j | 0 <= j < |steps| ensures steps[j].target.ref in st.keys {
      assert StepTold(db, steps[j], o, user);
    }
  }

  /** A run of the sync, and what it leaves in a gateway that held those keys. */
  method RunServes(s: Syncer, ghost st: Gateway.State) returns (res: Tally, err: bool, ghost run: RunLog)
    modifies s`running, s`finished, s.store, s.outside`history, s.outside`edits, s.outside`log
    ensures s.Undisturbed(old(|s.outside.edits|), old(s.outside.Tick())) && Calm(run.checked, s.outside.clock, run.begun, s.outside.Tick())
            && Accepted(Said(run.pushes)) && Apart(run.checked, s.user) && HasKeys(st, run.checked) ==>
              forall k :: k in Eligible(run.checked, s.outside.clock(run.begun), s.outside.clock(run.begun)) ==>
                Stale(run.checked, k) && Served(run.checked, Heard(st, Said(run.pushes)), k, s.user)
  {
    res, err, run := s.Run();
    if s.Undisturbed(old(|s.outside.edits|), old(s.outside.Tick())) && Calm(run.checked, s.outside.clock, run.begun, s.outside.Tick())
       && Accepted(Said(run.pushes)) && Apart(run.checked, s.user) && HasKeys(st, run.checked) {
      forall k | k in Eligible(run.checked, s.outside.clock(run.begun), s.outside.clock(run.begun))
        ensures Stale(run.checked, k) && Served(run.checked, Heard(st, Said(run.pushes)), k, s.user)
      {
        RunServesAll(run.checked, s.store.Tables(), res, run.pushes, run.failures, st, s.outside, s.user, run.begun, s.outside.Tick(), k);
      }
    }
  }

  /** The gateway has the key of every row. */
  ghost predicate HasKeys(st: Gateway.State, db: Db) {
    forall k :: k in db.keys ==> db.keys[k].ref in st.keys
  }
}
