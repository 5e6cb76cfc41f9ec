/**
 * The LiteLLM adapter (internal/litellm): where limits are written to the
 * gateway and where the windows are read back.
 */
module LiteLLM {
  import opened Options
  import opened KeyProvider
  import opened Quota
  import opened Gateway
  import opened Sorting

  datatype Error = KeyNotFound | Refused

  // ----- What is written -----

  function OptionField<T>(o: Option<T>): Field<T> {
    match o
    case None => Null
    case Some(v) => Value(v)
  }

  function OmitNone<T>(o: Option<T>): Field<T> {
    match o
    case None => Omitted
    case Some(v) => Value(v)
  }

  /** The allowance held against a person, or none. */
  function UserBudget(w: QuotaWindow): Option<QuotaWindow> {
    if w.budget <= 0.0 || w.period == "" then None else Some(w)
  }

  function UserPayload(u: Owner, budget: Option<QuotaWindow>): UserFields {
    UserFields(
      if u.name != "" then Value(u.name) else Omitted,
      if u.email != "" then Value(u.email) else Omitted,
      if budget.Some? then Value(budget.value.budget) else Null,
      if budget.Some? then Value(budget.value.period) else Null)
  }

  /** The payload that pushes limits onto a key that exists: every limit is sent. */
  function UpdatePayload(owner: string, l: Limits): KeyFields {
    var ws := EffectiveWindows(l.quotas);
    KeyFields(
      Value(l.models), OptionField(l.tpm), OptionField(l.rpm),
      if owner != "" then Value(owner) else Omitted,
      if |ws| == 1 then Value(ws[0].budget) else Null,
      if |ws| == 1 then Value(ws[0].period) else Null,
      if |ws| > 1 then Value(ws) else Null)
  }

  /** The payload that creates a key: whatever is not set is left out. */
  function CreatePayload(owner: string, l: Limits): KeyFields {
    var ws := EffectiveWindows(l.quotas);
    KeyFields(
      if l.models == [] then Omitted else Value(l.models), OmitNone(l.tpm), OmitNone(l.rpm),
      if owner != "" then Value(owner) else Omitted,
      if |ws| == 1 then Value(ws[0].budget) else Omitted,
      if |ws| == 1 then Value(ws[0].period) else Omitted,
      if |ws| > 1 then Value(ws) else Omitted)
  }

  /** The limits left on the key once the owner, if there is one, holds the widest window. */
  function KeyHalf(owner: string, l: Limits): Limits {
    if owner == "" then l else l.(quotas := SplitWindows(EffectiveWindows(l.quotas)).rest)
  }

  function OwnerHalf(l: Limits): Option<QuotaWindow> {
    UserBudget(SplitWindows(EffectiveWindows(l.quotas)).widest)
  }

  function WithOwner(st: State, u: Owner, budget: Option<QuotaWindow>): State {
    var was := if u.id in st.users then st.users[u.id] else BLANK_USER;
    st.(users := st.users[u.id := PatchUser(was, UserPayload(u, budget))])
  }

  function OwnerBound(st: State, u: Owner, l: Limits): State {
    if u.id == "" then st else WithOwner(st, u, OwnerHalf(l))
  }

  /** The gateway after UpdateLimits. A key that is gone still leaves the owner's half updated. */
  function LimitsUpdated(st: State, ref: Ref, u: Owner, l: Limits): State {
    var st1 := OwnerBound(st, u, l);
    if ref !in st1.keys then st1
    else st1.(keys := st1.keys[ref := PatchKey(st1.keys[ref], UpdatePayload(u.id, KeyHalf(u.id, l)))])
  }

  function KeyCreated(st: State, ref: Ref, alias: string, u: Owner, l: Limits): State {
    var st1 := OwnerBound(st, u, l);
    st1.(keys := st1.keys[ref := PatchKey(BlankKey(alias), CreatePayload(u.id, KeyHalf(u.id, l)))])
  }

  // ----- What is read -----

  /** A window with the gateway's own spend counter for it. */
  datatype WindowUsage = WindowUsage(period: string, limit: real, used: real, usedKnown: bool)

  function Plain(w: WindowUsage): QuotaWindow {
    QuotaWindow(w.limit, w.period)
  }

  function Plains(ws: seq<WindowUsage>): seq<QuotaWindow> {
    Map(ws, Plain)
  }

  function StackedUsage(w: QuotaWindow, usage: map<string, real>): WindowUsage {
    if w.period in usage then WindowUsage(w.period, w.budget, usage[w.period], true)
    else WindowUsage(w.period, w.budget, 0.0, false)
  }

  /** The windows on a key: stacked ones, the flat pair, or none. */
  function KeyWindows(k: Key): seq<WindowUsage> {
    if k.budgetLimits != [] then seq(|k.budgetLimits|, i requires 0 <= i < |k.budgetLimits| => StackedUsage(k.budgetLimits[i], k.usage))
    else if k.maxBudget.Some? && k.budgetDuration.Some? then
      [WindowUsage(k.budgetDuration.value, k.maxBudget.value, k.spend, true)]
    else []
  }

  function OwnerWindow(st: State, owner: string): Option<WindowUsage> {
    if owner !in st.users then None
    else
      var u := st.users[owner];
      if u.maxBudget.None? || u.budgetDuration.None? then None
      else Some(WindowUsage(u.budgetDuration.value, u.maxBudget.value, u.spend, true))
  }

  /** The windows on the owner's record, if there is an owner. */
  function OwnerWindows(st: State, owner: string): seq<WindowUsage> {
    if owner != "" && OwnerWindow(st, owner).Some? then [OwnerWindow(st, owner).value] else []
  }

  function GatheredWindows(st: State, k: Key, owner: string): seq<WindowUsage> {
    KeyWindows(k) + OwnerWindows(st, owner)
  }

  function Binding(ws: seq<WindowUsage>): (r: seq<WindowUsage>)
  {
    if ws == [] then []
    else
      var init := Binding(ws[..|ws| - 1]);
      if Effective(Plain(ws[|ws| - 1])) then init + [ws[|ws| - 1]] else init
  }

  predicate Tighter(a: WindowUsage, b: WindowUsage) {
    PeriodRank(a.period) <= PeriodRank(b.period)
  }

  predicate TighterWindow(a: QuotaWindow, b: QuotaWindow) {
    PeriodRank(a.period) <= PeriodRank(b.period)
  }

  function WindowsRead(st: State, ref: Ref, owner: string): Result<seq<WindowUsage>, Error> {
    if ref !in st.keys then Err(KeyNotFound)
    else Ok(Sort(Binding(GatheredWindows(st, st.keys[ref], owner)), Tighter))
  }

  // ----- The answer by the records -----

  /** ws are the windows on the key's record, each with the gateway's own counter: stacked ones, the flat pair, or none. */
  ghost predicate OfKey(k: Key, ws: seq<WindowUsage>) {
    if k.budgetLimits != [] then
      && |ws| == |k.budgetLimits|
      && forall i :: 0 <= i < |ws| ==>
           && ws[i].period == k.budgetLimits[i].period && ws[i].limit == k.budgetLimits[i].budget
           && (ws[i].usedKnown <==> k.budgetLimits[i].period in k.usage)
           && ws[i].used == if k.budgetLimits[i].period in k.usage then k.usage[k.budgetLimits[i].period] else 0.0
    else if k.maxBudget.Some? && k.budgetDuration.Some? then
      && |ws| == 1 && ws[0].usedKnown && ws[0].used == k.spend
      && Some(ws[0].period) == k.budgetDuration && Some(ws[0].limit) == k.maxBudget
    else ws == []
  }

  /** ws is the window on the owner's record, with what the owner has spent, if there is one. */
  ghost predicate OfOwner(users: map<string, User>, owner: string, ws: seq<WindowUsage>) {
    if owner != "" && owner in users && users[owner].maxBudget.Some? && users[owner].budgetDuration.Some? then
      && |ws| == 1 && ws[0].usedKnown && ws[0].used == users[owner].spend
      && Some(ws[0].period) == users[owner].budgetDuration && Some(ws[0].limit) == users[owner].maxBudget
    else ws == []
  }

  /** answer has exactly those windows of the two that limit something, figures and all, tightest first. */
  ghost predicate AnswerOf(st: State, k: Key, owner: string, answer: seq<WindowUsage>) {
    && (exists a, b :: OfKey(k, a) && OfOwner(st.users, owner, b) && AreBinding(a + b, answer))
    && forall i, j :: 0 <= i < j < |answer| ==> PeriodRank(answer[i].period) <= PeriodRank(answer[j].period)
  }

  ghost predicate AreBinding(ws: seq<WindowUsage>, answer: seq<WindowUsage>) {
    forall w :: multiset(answer)[w] == if w.limit > 0.0 && w.period != "" then multiset(ws)[w] else 0
  }

  lemma {:induction false} BindingCounts(ws: seq<WindowUsage>, w: WindowUsage)
    ensures multiset(Binding(ws))[w] == if w.limit > 0.0 && w.period != "" then multiset(ws)[w] else 0
  {
    if ws != [] {
      BindingCounts(ws[..|ws| - 1], w);
      assert ws == ws[..|ws| - 1] + [ws[|ws| - 1]];
    }
  }

  lemma RecordsRead(st: State, k: Key, owner: string)
    ensures OfKey(k, KeyWindows(k)) && OfOwner(st.users, owner, OwnerWindows(st, owner))
  {
  }

  lemma BindingSorted(ws: seq<WindowUsage>)
    ensures AreBinding(ws, Sort(Binding(ws), Tighter)) && Sorted(Sort(Binding(ws), Tighter), Tighter)
  {
    SortSorted(Binding(ws), Tighter);
    forall w ensures multiset(Sort(Binding(ws), Tighter))[w] == if w.limit > 0.0 && w.period != "" then multiset(ws)[w] else 0 {
      BindingCounts(ws, w);
    }
  }

  /** What is read of a key are the figures of its record and its owner's. */
  lemma WindowsReported(st: State, ref: Ref, owner: string)
    requires ref in st.keys
    ensures WindowsRead(st, ref, owner).Ok? && AnswerOf(st, st.keys[ref], owner, WindowsRead(st, ref, owner).value)
  {
    RecordsRead(st, st.keys[ref], owner);
    BindingSorted(KeyWindows(st.keys[ref]) + OwnerWindows(st, owner));
  }

  /** The key has these limits, and its counters and label stay. */
  ghost predicate LimitsSet(was: Key, now: Key, owner: string, l: Limits) {
    && now.models == l.models && now.tpm == l.tpm && now.rpm == l.rpm
    && now.owner == (if owner == "" then was.owner else owner)
    && now.alias == was.alias && now.spend == was.spend && now.usage == was.usage
    && var ws := EffectiveWindows(l.quotas);
    && now.budgetLimits == (if |ws| > 1 then ws else [])
    && now.maxBudget == (if |ws| == 1 then Some(ws[0].budget) else None)
    && now.budgetDuration == (if |ws| == 1 then Some(ws[0].period) else None)
  }

  /** The key authorises what the limits say and is bound to the owner. */
  ghost predicate Pushed(was: Key, now: Key, owner: string, l: Limits) {
    && now.models == l.models && now.tpm == l.tpm && now.rpm == l.rpm && now.alias == was.alias
    && now.owner == (if owner == "" then was.owner else owner) && now.spend == was.spend && now.usage == was.usage
  }

  /** The owner is labelled, and holds a window of the limits, or none if nothing in them binds. */
  ghost predicate Allowed(now: User, u: Owner, l: Limits) {
    && (u.name != "" ==> now.alias == u.name) && (u.email != "" ==> now.email == u.email)
    && if exists w :: w in l.quotas && w.budget > 0.0 && w.period != "" then
         && now.maxBudget.Some? && now.budgetDuration.Some? && now.maxBudget.value > 0.0
         && QuotaWindow(now.maxBudget.value, now.budgetDuration.value) in l.quotas
         && forall w :: w in l.quotas && w.budget > 0.0 && w.period != "" ==>
              PeriodRank(w.period) <= PeriodRank(now.budgetDuration.value)
       else now.maxBudget == None && now.budgetDuration == None
  }

  /** The half that goes to the owner is the widest of the windows that bind. */
  lemma OwnerHalfIsWidest(l: Limits)
    ensures var b := OwnerHalf(l);
            if exists w :: w in l.quotas && w.budget > 0.0 && w.period != "" then
              && b.Some? && b.value in l.quotas && b.value.budget > 0.0
              && forall w :: w in l.quotas && w.budget > 0.0 && w.period != "" ==> PeriodRank(w.period) <= PeriodRank(b.value.period)
            else b == None
  {
    var ws := EffectiveWindows(l.quotas);
    if ws != [] {
      SplitIsPartition(ws);
      assert SplitWindows(ws).widest in ws;
    }
  }

  // ----- The adapter -----

  class Provider {
    const server: Server

    constructor (server: Server)
      ensures this.server == server
    {
      this.server := server;
    }

    method EffectiveOf(l: Limits) returns (out: seq<QuotaWindow>)
      ensures out == EffectiveWindows(l.quotas)
    {
      out := [];
      for i := 0 to |l.quotas|
        invariant out == EffectiveWindows(l.quotas[..i])
      {
        assert l.quotas[..i + 1][..i] == l.quotas[..i];
        var q := l.quotas[i];
        if q.budget > 0.0 && q.period != "" {
          out := out + [q];
        }
      }
      assert l.quotas[..|l.quotas|] == l.quotas;
    }

    /** Create first, update on conflict: the outcome is the same whichever of them took effect. */
    method UpsertUser(u: Owner, budget: Option<QuotaWindow>)
      modifies server`users
      ensures server.Records() == WithOwner(old(server.Records()), u, budget)
      ensures server.users.Keys == old(server.users).Keys + {u.id}
      ensures forall o :: o in old(server.users) && o != u.id ==> server.users[o] == old(server.users)[o]
      ensures var was := if u.id in old(server.users) then old(server.users)[u.id] else User("", "", None, None, 0.0);
              var now := server.users[u.id];
              && now.alias == (if u.name == "" then was.alias else u.name) && now.email == (if u.email == "" then was.email else u.email)
              && now.maxBudget == (if budget.Some? then Some(budget.value.budget) else None)
              && now.budgetDuration == (if budget.Some? then Some(budget.value.period) else None)
              && now.spend == was.spend
    {
      var payload := UserFields(Omitted, Omitted, Null, Null);
      if u.name != "" {
        payload := payload.(alias := Value(u.name));
      }
      if u.email != "" {
        payload := payload.(email := Value(u.email));
      }
      if budget.Some? {
        payload := payload.(maxBudget := Value(budget.value.budget), budgetDuration := Value(budget.value.period));
      }
      var status := server.UserNew(u.id, payload);
      if status == OK {
        return;
      }
      var _ := server.UserUpdate(u.id, payload);
    }

    method UpdateKeyLimits(ref: Ref, owner: string, l: Limits) returns (r: Result<(), Error>)
      modifies server`keys
      ensures ref in old(server.keys) ==>
                && server.keys.Keys == old(server.keys).Keys
                && (forall k :: k in server.keys && k != ref ==> server.keys[k] == old(server.keys)[k])
                && LimitsSet(old(server.keys)[ref], server.keys[ref], owner, l)
      ensures ref in old(server.keys) ==>
                r == Ok(()) &&
                server.keys == old(server.keys)[ref := PatchKey(old(server.keys)[ref], UpdatePayload(owner, l))]
      ensures ref !in old(server.keys) ==> r == Err(KeyNotFound) && server.keys == old(server.keys)
    {
      var payload := KeyFields(Value(l.models), OptionField(l.tpm), OptionField(l.rpm),
                               Omitted, Omitted, Omitted, Omitted);
      if owner != "" {
        payload := payload.(owner := Value(owner));
      }
      var windows := EffectiveOf(l);
      if |windows| > 1 {
        payload := payload.(budgetLimits := Value(windows), maxBudget := Null, budgetDuration := Null);
      } else if |windows| == 1 {
        payload := payload.(maxBudget := Value(windows[0].budget), budgetDuration := Value(windows[0].period),
                            budgetLimits := Null);
      } else {
        payload := payload.(maxBudget := Null, budgetDuration := Null, budgetLimits := Null);
      }
      var status := server.KeyUpdate(ref, payload);
      if status == NotFound {
        return Err(KeyNotFound);
      }
      return Ok(());
    }

    method UpdateLimits(ref: Ref, u: Owner, l: Limits) returns (r: Result<(), Error>)
      modifies server`keys, server`users
      ensures server.Records() == LimitsUpdated(old(server.Records()), ref, u, l)
      ensures r == if ref in old(server.keys) then Ok(()) else Err(KeyNotFound)
      ensures server.keys.Keys == old(server.keys).Keys
      ensures ref in old(server.keys) ==> Pushed(old(server.keys)[ref], server.keys[ref], u.id, l)
      ensures u.id != "" ==> u.id in server.users && Allowed(server.users[u.id], u, l)
    {
      var effective := EffectiveOf(l);
      var widest, rest := WidestWindow(effective);
      var keyLimits := l;
      if u.id != "" {
        UpsertUser(u, UserBudget(widest));
        keyLimits := l.(quotas := rest);
      }
      assert keyLimits == KeyHalf(u.id, l);
      OwnerHalfIsWidest(l);
      r := UpdateKeyLimits(ref, u.id, keyLimits);
    }

    method ToKeyParams(owner: string, l: Limits) returns (params: KeyFields)
      ensures params == CreatePayload(owner, l)
    {
      params := KeyFields(if l.models == [] then Omitted else Value(l.models), OmitNone(l.tpm), OmitNone(l.rpm),
                          if owner != "" then Value(owner) else Omitted, Omitted, Omitted, Omitted);
      var windows := EffectiveOf(l);
      if |windows| == 1 {
        params := params.(maxBudget := Value(windows[0].budget), budgetDuration := Value(windows[0].period));
      } else if |windows| > 1 {
        var limits := [];
        for i := 0 to |windows|
          invariant limits == windows[..i]
        {
          limits := limits + [QuotaWindow(windows[i].budget, windows[i].period)];
        }
        assert limits == windows;
        params := params.(budgetLimits := Value(limits));
      }
    }

    /** The owner is bound first, and stays bound when the key is refused. */
    method CreateKey(ref: Ref, alias: string, expiresAt: int, u: Owner, l: Limits) returns (r: Result<Ref, Error>)
      requires ref !in server.keys
      modifies server`keys, server`users, server`expiry
      ensures r.Err? <==> exists k :: k in old(server.keys) && old(server.keys)[k].alias == alias
      ensures r.Ok? ==> r.value == ref && server.Records() == KeyCreated(old(server.Records()), ref, alias, u, l)
      ensures server.expiry == if r.Ok? then old(server.expiry)[ref := expiresAt] else old(server.expiry)
      ensures r.Err? ==> r.error == Refused && server.Records() == OwnerBound(old(server.Records()), u, l)
      ensures r.Err? ==> server.keys == old(server.keys)
      ensures r.Ok? ==>
                && server.keys.Keys == old(server.keys).Keys + {ref}
                && (forall k :: k in old(server.keys) ==> server.keys[k] == old(server.keys)[k])
                && Pushed(Key(alias, [], None, None, "", None, None, [], 0.0, map[]), server.keys[ref], u.id, l)
      ensures u.id != "" ==> u.id in server.users && Allowed(server.users[u.id], u, l)
    {
      var keyLimits := l;
      if u.id != "" {
        var effective := EffectiveOf(l);
        var widest, rest := WidestWindow(effective);
        UpsertUser(u, UserBudget(widest));
        keyLimits := l.(quotas := rest);
      }
      assert keyLimits == KeyHalf(u.id, l);
      OwnerHalfIsWidest(l);
      var params := ToKeyParams(u.id, keyLimits);
      var status := server.KeyGenerate(alias, params, ref, expiresAt);
      if status != OK {
        return Err(Refused);
      }
      return Ok(ref);
    }

    method UpdateExpiry(ref: Ref, until: int) returns (r: Result<(), Error>)
      modifies server`expiry
      ensures r == if ref in server.keys then Ok(()) else Err(KeyNotFound)
      ensures server.expiry == if ref in server.keys then old(server.expiry)[ref := until] else old(server.expiry)
    {
      var status := server.KeyExtend(ref, until);
      if status == NotFound {
        return Err(KeyNotFound);
      }
      return Ok(());
    }

    /** A key that is not there is what a delete asks for. */
    method DeleteKey(ref: Ref)
      modifies server`keys
      ensures server.keys == old(server.keys) - {ref}
    {
      var _ := server.KeyDelete(ref);
    }

    method ReadKeyWindows(ref: Ref) returns (r: Result<seq<WindowUsage>, Error>)
      ensures r == if ref in server.keys then Ok(KeyWindows(server.keys[ref])) else Err(KeyNotFound)
      ensures r.Ok? ==> OfKey(server.keys[ref], r.value)
    {
      if ref !in server.keys {
        return Err(KeyNotFound);
      }
      var info := server.keys[ref];
      if |info.budgetLimits| > 0 {
        var windows := seq(|info.budgetLimits|,
                           i requires 0 <= i < |info.budgetLimits| =>
                             WindowUsage(info.budgetLimits[i].period, info.budgetLimits[i].budget, 0.0, false));
        for i := 0 to |windows|
          invariant |windows| == |info.budgetLimits|
          invariant forall j :: 0 <= j < |windows| ==>
                      windows[j] == if j < i then StackedUsage(info.budgetLimits[j], info.usage)
                                    else WindowUsage(info.budgetLimits[j].period, info.budgetLimits[j].budget, 0.0, false)
        {
          if windows[i].period in info.usage {
            windows := windows[i := windows[i].(used := info.usage[windows[i].period], usedKnown := true)];
          }
        }
        assert windows == KeyWindows(info);
        return Ok(windows);
      }
      if info.maxBudget.Some? && info.budgetDuration.Some? {
        return Ok([WindowUsage(info.budgetDuration.value, info.maxBudget.value, info.spend, true)]);
      }
      return Ok([]);
    }

    /** Leaves out the windows that limit nothing. */
    method BindingOf(windows: seq<WindowUsage>) returns (out: seq<WindowUsage>)
      ensures out == Binding(windows)
    {
      out := [];
      for i := 0 to |windows|
        invariant out == Binding(windows[..i])
      {
        assert windows[..i + 1][..i] == windows[..i];
        if windows[i].limit > 0.0 && windows[i].period != "" {
          out := out + [windows[i]];
        }
      }
      assert windows[..|windows|] == windows;
    }

    method Windows(ref: Ref, owner: string) returns (r: Result<seq<WindowUsage>, Error>)
      ensures r == WindowsRead(server.Records(), ref, owner)
      ensures r.Err? <==> ref !in server.keys
      ensures r.Ok? ==> AnswerOf(server.Records(), server.keys[ref], owner, r.value)
    {
      var read := ReadKeyWindows(ref);
      if read.Err? {
        return read;
      }
      var windows := read.value;
      if owner != "" {
        var w := OwnerWindow(server.Records(), owner);
        if w.Some? {
          windows := windows + [w.value];
        }
      }
      assert windows == GatheredWindows(server.Records(), server.keys[ref], owner);
      var out := BindingOf(windows);
      WindowsReported(server.Records(), ref, owner);
      return Ok(Sort(out, Tighter));
    }
  }
}
