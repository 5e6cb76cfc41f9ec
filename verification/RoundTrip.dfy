/**
 * What is written to the gateway is what is read back, and creating a key
 * enforces what updating one does.
 */
module RoundTrip {
  import opened KeyProvider
  import opened Quota
  import opened Gateway
  import opened Sorting
  import opened LiteLLM

  lemma {:induction false} BindingPlain(s: seq<WindowUsage>)
    ensures Plains(Binding(s)) == EffectiveWindows(Plains(s))
  {
    if s != [] {
      var init, last := s[..|s| - 1], s[|s| - 1];
      BindingPlain(init);
      assert Plains(s)[..|s| - 1] == Plains(init);
      PlainsAppend(Binding(init), last);
    }
  }

  /** A key that was just written holds exactly the effective windows it was written with. */
  lemma KeyWindowsWritten(k: Key, owner: string, l: Limits)
    ensures Plains(KeyWindows(PatchKey(k, UpdatePayload(owner, l)))) == EffectiveWindows(l.quotas)
  {
    var ws := EffectiveWindows(l.quotas);
    var written := KeyWindows(PatchKey(k, UpdatePayload(owner, l)));
    assert |written| == |ws|;
    assert forall i :: 0 <= i < |ws| ==> Plain(written[i]) == ws[i];
  }

  /** And so does a key that was just created. */
  lemma KeyWindowsCreated(alias: string, owner: string, l: Limits)
    ensures Plains(KeyWindows(PatchKey(BlankKey(alias), CreatePayload(owner, l)))) == EffectiveWindows(l.quotas)
  {
    var ws := EffectiveWindows(l.quotas);
    var written := KeyWindows(PatchKey(BlankKey(alias), CreatePayload(owner, l)));
    assert |written| == |ws|;
    assert forall i :: 0 <= i < |ws| ==> Plain(written[i]) == ws[i];
  }

  /** The order windows are gathered in after limits l were pushed for owner. */
  function Gathered(owner: string, l: Limits): seq<QuotaWindow> {
    var ws := EffectiveWindows(l.quotas);
    if owner == "" || ws == [] then ws else SplitWindows(ws).rest + [SplitWindows(ws).widest]
  }

  lemma GatheredAll(owner: string, l: Limits)
    ensures multiset(Gathered(owner, l)) == multiset(EffectiveWindows(l.quotas))
    ensures forall w :: w in Gathered(owner, l) ==> Effective(w)
  {
    var ws := EffectiveWindows(l.quotas);
    if owner != "" && ws != [] {
      SplitIsPartition(ws);
    }
    assert forall w :: w in Gathered(owner, l) ==> w in multiset(ws);
  }

  lemma HalvesEffective(l: Limits)
    ensures var s := SplitWindows(EffectiveWindows(l.quotas));
            && EffectiveWindows(s.rest) == s.rest
            && (EffectiveWindows(l.quotas) == [] <==> UserBudget(s.widest).None?)
  {
    var ws := EffectiveWindows(l.quotas);
    var s := SplitWindows(ws);
    if ws != [] {
      assert s.widest in ws && Effective(s.widest);
      assert forall w :: w in s.rest ==> w in ws;
    }
    EffectiveWindowsIdentity(s.rest);
  }

  /** The owner holds exactly the half of the limits that is theirs. */
  lemma OwnerWindowWritten(st: State, ref: Ref, u: Owner, l: Limits)
    requires u.id != ""
    ensures var w := OwnerWindow(LimitsUpdated(st, ref, u, l), u.id);
            && (w.Some? <==> OwnerHalf(l).Some?)
            && (w.Some? ==> Plain(w.value) == OwnerHalf(l).value)
  {
    var budget := OwnerHalf(l);
    assert LimitsUpdated(st, ref, u, l).users == WithOwner(st, u, budget).users;
  }

  lemma PlainsAppend(ws: seq<WindowUsage>, w: WindowUsage)
    ensures Plains(ws + [w]) == Plains(ws) + [Plain(w)]
  {
  }

  lemma GatheredAfterUpdate(st: State, ref: Ref, u: Owner, l: Limits)
    requires ref in st.keys
    ensures var st' := LimitsUpdated(st, ref, u, l);
            Plains(GatheredWindows(st', st'.keys[ref], u.id)) == Gathered(u.id, l)
  {
    var st' := LimitsUpdated(st, ref, u, l);
    var onKey := KeyWindows(st'.keys[ref]);
    assert Plains(onKey) == EffectiveWindows(KeyHalf(u.id, l).quotas) by {
      KeyWindowsWritten(OwnerBound(st, u, l).keys[ref], u.id, KeyHalf(u.id, l));
    }
    assert onKey + [] == onKey;
    if u.id != "" {
      HalvesEffective(l);
      OwnerWindowWritten(st, ref, u, l);
      var w := OwnerWindow(st', u.id);
      if w.Some? {
        PlainsAppend(onKey, w.value);
      }
    }
  }

  /**
   * Round trip: pushing limits and reading the windows back gives every
   * effective window once, tightest first, whatever the gateway held before.
   */
  lemma WindowRoundTrip(st: State, ref: Ref, u: Owner, l: Limits)
    requires ref in st.keys
    ensures var r := WindowsRead(LimitsUpdated(st, ref, u, l), ref, u.id);
            && r.Ok?
            && Plains(r.value) == Sort(Gathered(u.id, l), TighterWindow)
            && multiset(Plains(r.value)) == multiset(EffectiveWindows(l.quotas))
            && Sorted(Plains(r.value), TighterWindow)
  {
    var st' := LimitsUpdated(st, ref, u, l);
    var gathered := GatheredWindows(st', st'.keys[ref], u.id);
    GatheredAfterUpdate(st, ref, u, l);
    GatheredAll(u.id, l);
    BindingPlain(gathered);
    EffectiveWindowsIdentity(Gathered(u.id, l));
    SortMap(Binding(gathered), Plain, Tighter, TighterWindow);
    SortSorted(Gathered(u.id, l), TighterWindow);
  }

  lemma SortedDistinct(a: seq<QuotaWindow>, b: seq<QuotaWindow>)
    requires multiset(a) == multiset(b) && DistinctRanks(a)
    ensures Sort(a, TighterWindow) == Sort(b, TighterWindow)
  {
    var x, y := Sort(a, TighterWindow), Sort(b, TighterWindow);
    SortSorted(a, TighterWindow);
    SortSorted(b, TighterWindow);
    assert NoTies(x, TighterWindow) by {
      forall v, w | v in x && w in x && TighterWindow(v, w) && TighterWindow(w, v) ensures v == w {
        assert v in multiset(a) && w in multiset(a);
        var i :| 0 <= i < |a| && a[i] == v;
        var j :| 0 <= j < |a| && a[j] == w;
        assert i == j;
      }
    }
    SortedUnique(x, y, TighterWindow);
  }

  /**
   * With distinct valid periods the read is exactly the effective windows
   * sorted by period, in whatever order they were configured, and whether the
   * widest one was kept on the key or on its owner.
   */
  lemma WindowRoundTripExact(st: State, ref: Ref, u: Owner, l: Limits, listed: seq<QuotaWindow>)
    requires ref in st.keys
    requires multiset(listed) == multiset(EffectiveWindows(l.quotas))
    requires DistinctPeriods(listed) && forall w :: w in listed ==> ValidPeriod(w.period)
    ensures var r := WindowsRead(LimitsUpdated(st, ref, u, l), ref, u.id);
            r.Ok? && Plains(r.value) == Sort(listed, TighterWindow)
  {
    WindowRoundTrip(st, ref, u, l);
    GatheredAll(u.id, l);
    DistinctValidRanks(listed);
    SortedDistinct(listed, Gathered(u.id, l));
  }

  /** Windows of the same rank are reported in the order they were gathered. */
  lemma WindowRoundTripStable(st: State, ref: Ref, u: Owner, l: Limits, c: QuotaWindow, same: QuotaWindow -> bool)
    requires ref in st.keys && TiedWith(same, TighterWindow, c)
    ensures var r := WindowsRead(LimitsUpdated(st, ref, u, l), ref, u.id);
            r.Ok? && Filter(Plains(r.value), same) == Filter(Gathered(u.id, l), same)
  {
    WindowRoundTrip(st, ref, u, l);
    SortStable(Gathered(u.id, l), TighterWindow, c, same);
  }

  // ----- Create and update -----

  /** Two keys that authorise the same models at the same rates under the same windows. */
  predicate SameEnforcement(a: Key, b: Key) {
    && a.models == b.models && a.tpm == b.tpm && a.rpm == b.rpm
    && Plains(KeyWindows(a)) == Plains(KeyWindows(b))
    && a.maxBudget == b.maxBudget && a.budgetDuration == b.budgetDuration && a.budgetLimits == b.budgetLimits
  }

  /**
   * A key created with limits l in one gateway and any key updated to l in any
   * other end up enforcing the same, and so do their owners. The key is bound
   * to the same owner exactly when there is one, or the updated key had none:
   * an update that names no owner leaves the binding as it was.
   */
  lemma CreateAgreesWithUpdate(st: State, ref: Ref, alias: string, st2: State, ref2: Ref, u: Owner, l: Limits)
    requires ref2 in st2.keys
    ensures var created, updated := KeyCreated(st, ref, alias, u, l), LimitsUpdated(st2, ref2, u, l);
            && SameEnforcement(created.keys[ref], updated.keys[ref2])
            && (u.id != "" ==>
                  && u.id in created.users && u.id in updated.users
                  && created.users[u.id].maxBudget == updated.users[u.id].maxBudget
                  && created.users[u.id].budgetDuration == updated.users[u.id].budgetDuration)
            && (created.keys[ref].owner == updated.keys[ref2].owner <==> u.id != "" || st2.keys[ref2].owner == "")
  {
    PayloadsAgree(alias, OwnerBound(st2, u, l).keys[ref2], u.id, KeyHalf(u.id, l));
  }

  /** The two payloads come to the same on a blank key and on any other. */
  lemma PayloadsAgree(alias: string, k: Key, owner: string, l: Limits)
    ensures var a, b := PatchKey(BlankKey(alias), CreatePayload(owner, l)), PatchKey(k, UpdatePayload(owner, l));
            SameEnforcement(a, b) && (a.owner == b.owner <==> owner != "" || k.owner == "")
  {
    KeyWindowsCreated(alias, owner, l);
    KeyWindowsWritten(k, owner, l);
  }

  /** A key that was just created reads back like one that was just updated. */
  lemma CreatedRoundTrip(st: State, ref: Ref, alias: string, u: Owner, l: Limits)
    ensures var r := WindowsRead(KeyCreated(st, ref, alias, u, l), ref, u.id);
            && r.Ok?
            && Plains(r.value) == Sort(Gathered(u.id, l), TighterWindow)
            && multiset(Plains(r.value)) == multiset(EffectiveWindows(l.quotas))
  {
    var created := KeyCreated(st, ref, alias, u, l);
    var updated := LimitsUpdated(created, ref, u, l);
    CreateAgreesWithUpdate(st, ref, alias, created, ref, u, l);
    GatheredAfterUpdate(created, ref, u, l);
    var a, b := GatheredWindows(created, created.keys[ref], u.id), GatheredWindows(updated, updated.keys[ref], u.id);
    if u.id != "" && OwnerWindow(updated, u.id).Some? {
      PlainsAppend(KeyWindows(created.keys[ref]), OwnerWindow(created, u.id).value);
      PlainsAppend(KeyWindows(updated.keys[ref]), OwnerWindow(updated, u.id).value);
    }
    assert Plains(a) == Plains(b) == Gathered(u.id, l);
    GatheredAll(u.id, l);
    BindingPlain(a);
    EffectiveWindowsIdentity(Gathered(u.id, l));
    SortMap(Binding(a), Plain, Tighter, TighterWindow);
  }

  /** Pushing limits to one key touches no other key and no other owner. */
  lemma UpdateIsLocal(st: State, ref: Ref, u: Owner, l: Limits)
    ensures var st' := LimitsUpdated(st, ref, u, l);
            && st'.keys.Keys == st.keys.Keys
            && (forall k :: k in st.keys && k != ref ==> st'.keys[k] == st.keys[k])
            && (forall o :: o in st.users && o != u.id ==> o in st'.users && st'.users[o] == st.users[o])
            && (forall o :: o in st'.users && o != u.id ==> o in st.users)
            && (u.id == "" ==> st'.users == st.users)
  {
  }
}
