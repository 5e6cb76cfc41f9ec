/**
 * The quota rows of the profile form (internal/handlers/admin.go), and what an
 * accepted form means for the split between a person and a key.
 */
module QuotaForm {
  import opened Options
  import opened KeyProvider
  import opened Quota

  /** An amount field after its text was read: blank, not a finite number, or a number. */
  datatype Amount = Blank | Malformed | Number(amount: real)

  datatype FormError = InvalidAmount | InvalidPeriod | DuplicatePeriod | NeverBinds

  /** Row i asks for a window. */
  predicate Asks(amounts: seq<Amount>, i: nat)
    requires i < |amounts|
  {
    amounts[i].Number? && amounts[i].amount > 0.0
  }

  /** What is wrong with row i, given that the rows above it are accepted. */
  ghost function RowError(amounts: seq<Amount>, periods: seq<string>, i: nat): Option<FormError>
    requires i < |amounts|
  {
    if amounts[i].Malformed? then Some(InvalidAmount)
    else if !Asks(amounts, i) then None
    else if i >= |periods| || !ValidPeriod(periods[i]) then Some(InvalidPeriod)
    else if exists j: nat :: j < i && Asks(amounts, j) && periods[j] == periods[i] then Some(DuplicatePeriod)
    else None
  }

  ghost predicate CleanRows(amounts: seq<Amount>, periods: seq<string>, n: nat)
    requires n <= |amounts|
  {
    forall i: nat :: i < n ==> RowError(amounts, periods, i) == None
  }

  /** The windows the first n rows ask for, in order. */
  function Rows(amounts: seq<Amount>, periods: seq<string>, n: nat): seq<QuotaWindow>
    requires n <= |amounts|
  {
    if n == 0 then []
    else
      var init := Rows(amounts, periods, n - 1);
      if Asks(amounts, n - 1) && n - 1 < |periods| then
        init + [QuotaWindow(amounts[n - 1].amount, periods[n - 1])]
      else init
  }

  function PeriodHours(p: string): nat {
    match p
    case "1h" => 1
    case "24h" => 24
    case "7d" => 168
    case "30d" => 720
    case _ => 0
  }

  /** No window allows more than a longer one: each can be the one that binds. */
  ghost predicate EveryWindowBinds(qs: seq<QuotaWindow>) {
    forall i, j :: 0 <= i < |qs| && 0 <= j < |qs| && PeriodHours(qs[i].period) < PeriodHours(qs[j].period)
                   ==> qs[i].budget <= qs[j].budget
  }

  method CheckWindowsBind(qs: seq<QuotaWindow>) returns (ok: bool)
    ensures ok <==> EveryWindowBinds(qs)
  {
    for i := 0 to |qs|
      invariant forall a, b :: 0 <= a < i && 0 <= b < |qs| && PeriodHours(qs[a].period) < PeriodHours(qs[b].period)
                               ==> qs[a].budget <= qs[b].budget
    {
      for j := 0 to |qs|
        invariant forall b :: 0 <= b < j && PeriodHours(qs[i].period) < PeriodHours(qs[b].period)
                              ==> qs[i].budget <= qs[b].budget
      {
        if i != j && PeriodHours(qs[i].period) < PeriodHours(qs[j].period) && qs[i].budget > qs[j].budget {
          return false;
        }
      }
    }
    return true;
  }

  // ----- The form row by row -----

  /** Row i has a positive amount in it. */
  ghost predicate IsAsked(amounts: seq<Amount>, i: nat) {
    i < |amounts| && amounts[i].Number? && amounts[i].amount > 0.0
  }

  /** ws are the first n rows that have a positive amount, each with the period beside it, in the order of the form. */
  ghost predicate AreRows(amounts: seq<Amount>, periods: seq<string>, n: nat, ws: seq<QuotaWindow>, idx: seq<nat>) {
    && |idx| == |ws|
    && (forall j :: 0 <= j < |idx| ==>
          && idx[j] < n && IsAsked(amounts, idx[j]) && idx[j] < |periods|
          && ws[j].budget == amounts[idx[j]].amount && ws[j].period == periods[idx[j]])
    && (forall i, j :: 0 <= i < j < |idx| ==> idx[i] < idx[j])
    && (forall i: nat :: i < n && IsAsked(amounts, i) && i < |periods| ==> exists j :: 0 <= j < |idx| && idx[j] == i)
  }

  lemma {:induction false} RowsByIndex(amounts: seq<Amount>, periods: seq<string>, n: nat) returns (idx: seq<nat>)
    requires n <= |amounts|
    ensures AreRows(amounts, periods, n, Rows(amounts, periods, n), idx)
  {
    if n == 0 {
      idx := [];
    } else {
      idx := RowsByIndex(amounts, periods, n - 1);
      if IsAsked(amounts, n - 1) && n - 1 < |periods| {
        RowAdded(amounts, periods, n, Rows(amounts, periods, n - 1), idx);
        idx := idx + [n - 1];
      } else {
        RowSkipped(amounts, periods, n, Rows(amounts, periods, n - 1), idx);
      }
    }
  }

  lemma RowSkipped(amounts: seq<Amount>, periods: seq<string>, n: nat, ws: seq<QuotaWindow>, idx: seq<nat>)
    requires 0 < n <= |amounts| && AreRows(amounts, periods, n - 1, ws, idx) && !(IsAsked(amounts, n - 1) && n - 1 < |periods|)
    ensures AreRows(amounts, periods, n, ws, idx)
  {
  }

  lemma RowAdded(amounts: seq<Amount>, periods: seq<string>, n: nat, ws: seq<QuotaWindow>, idx: seq<nat>)
    requires 0 < n <= |amounts| && AreRows(amounts, periods, n - 1, ws, idx) && IsAsked(amounts, n - 1) && n - 1 < |periods|
    ensures AreRows(amounts, periods, n, ws + [QuotaWindow(amounts[n - 1].amount, periods[n - 1])], idx + [n - 1])
  {
    var more := idx + [n - 1];
    assert more[|idx|] == n - 1;
    forall i: nat | i < n - 1 && IsAsked(amounts, i) && i < |periods| ensures exists j :: 0 <= j < |more| && more[j] == i {
      var j :| 0 <= j < |idx| && idx[j] == i;
      assert more[j] == i;
    }
  }

  /** Every row is blank or a number, and what asks for a window names one of the four periods that no row above it has. */
  ghost predicate RowsAccepted(amounts: seq<Amount>, periods: seq<string>) {
    && (forall i: nat :: i < |amounts| ==> amounts[i] != Malformed)
    && (forall i: nat :: IsAsked(amounts, i) ==> i < |periods| && periods[i] in ["1h", "24h", "7d", "30d"])
    && (forall i: nat, j: nat :: i < j && IsAsked(amounts, i) && IsAsked(amounts, j) ==> periods[i] != periods[j])
  }

  /** No row that asks for a window allows more than one with a longer period. */
  ghost predicate AmountsBind(amounts: seq<Amount>, periods: seq<string>) {
    forall i: nat, j: nat ::
      IsAsked(amounts, i) && i < |periods| && IsAsked(amounts, j) && j < |periods| && PeriodHours(periods[i]) < PeriodHours(periods[j]) ==>
        amounts[i].amount <= amounts[j].amount
  }

  lemma {:induction false} CleanIsAccepted(amounts: seq<Amount>, periods: seq<string>)
    ensures CleanRows(amounts, periods, |amounts|) <==> RowsAccepted(amounts, periods)
  {
    if CleanRows(amounts, periods, |amounts|) {
      CleanAccepted(amounts, periods);
    }
    if RowsAccepted(amounts, periods) {
      forall i: nat | i < |amounts| ensures RowError(amounts, periods, i) == None {
        assert amounts[i] != Malformed && (IsAsked(amounts, i) ==> i < |periods| && ValidPeriod(periods[i]));
        assert forall j: nat :: j < i && IsAsked(amounts, j) && IsAsked(amounts, i) ==> periods[j] != periods[i];
      }
    }
  }

  lemma {:induction false} CleanAccepted(amounts: seq<Amount>, periods: seq<string>)
    requires CleanRows(amounts, periods, |amounts|)
    ensures RowsAccepted(amounts, periods)
  {
    forall i: nat | i < |amounts| ensures amounts[i] != Malformed && (IsAsked(amounts, i) ==> i < |periods| && periods[i] in VALID_PERIODS) {
      assert RowError(amounts, periods, i) == None;
    }
    forall i: nat, j: nat | i < j && IsAsked(amounts, i) && IsAsked(amounts, j) ensures periods[i] != periods[j] {
      assert RowError(amounts, periods, i) == None && RowError(amounts, periods, j) == None;
    }
  }

  lemma {:induction false} BindsByAmounts(amounts: seq<Amount>, periods: seq<string>)
    ensures EveryWindowBinds(Rows(amounts, periods, |amounts|)) <==> AmountsBind(amounts, periods)
  {
    var ws := Rows(amounts, periods, |amounts|);
    var idx := RowsByIndex(amounts, periods, |amounts|);
    if EveryWindowBinds(ws) {
      forall i: nat, j: nat | IsAsked(amounts, i) && i < |periods| && IsAsked(amounts, j) && j < |periods|
                              && PeriodHours(periods[i]) < PeriodHours(periods[j])
        ensures amounts[i].amount <= amounts[j].amount
      {
        var a :| 0 <= a < |idx| && idx[a] == i;
        var b :| 0 <= b < |idx| && idx[b] == j;
        assert ws[a].budget <= ws[b].budget;
      }
    }
    if AmountsBind(amounts, periods) {
      forall a, b | 0 <= a < |ws| && 0 <= b < |ws| && PeriodHours(ws[a].period) < PeriodHours(ws[b].period)
        ensures ws[a].budget <= ws[b].budget
      {
        assert amounts[idx[a]].amount <= amounts[idx[b]].amount;
      }
    }
  }

  /** The result is decided by the first row in error, and by the windows as a whole when there is none. */
  method ParseQuotaWindows(amounts: seq<Amount>, periods: seq<string>) returns (r: Result<seq<QuotaWindow>, FormError>)
    ensures r.Ok? <==> CleanRows(amounts, periods, |amounts|) && EveryWindowBinds(Rows(amounts, periods, |amounts|))
    ensures r.Ok? ==> r.value == Rows(amounts, periods, |amounts|)
    ensures r.Err? && r.error != NeverBinds ==>
              exists i: nat :: i < |amounts| && CleanRows(amounts, periods, i)
                               && RowError(amounts, periods, i) == Some(r.error)
    ensures r == Err(NeverBinds) ==> CleanRows(amounts, periods, |amounts|)
    ensures r.Ok? <==> RowsAccepted(amounts, periods) && AmountsBind(amounts, periods)
    ensures r.Ok? ==> exists idx :: AreRows(amounts, periods, |amounts|, r.value, idx)
    ensures r == Err(NeverBinds) <==> RowsAccepted(amounts, periods) && !AmountsBind(amounts, periods)
  {
    CleanIsAccepted(amounts, periods);
    BindsByAmounts(amounts, periods);
    ghost var idx := RowsByIndex(amounts, periods, |amounts|);
    r := Parse(amounts, periods);
  }

  method Parse(amounts: seq<Amount>, periods: seq<string>) returns (r: Result<seq<QuotaWindow>, FormError>)
    ensures r.Ok? <==> CleanRows(amounts, periods, |amounts|) && EveryWindowBinds(Rows(amounts, periods, |amounts|))
    ensures r.Ok? ==> r.value == Rows(amounts, periods, |amounts|)
    ensures r.Err? && r.error != NeverBinds ==>
              exists i: nat :: i < |amounts| && CleanRows(amounts, periods, i)
                               && RowError(amounts, periods, i) == Some(r.error)
    ensures r == Err(NeverBinds) ==> CleanRows(amounts, periods, |amounts|)
  {
    var out: seq<QuotaWindow> := [];
    var seen: set<string> := {};
    for i := 0 to |amounts|
      invariant CleanRows(amounts, periods, i)
      invariant out == Rows(amounts, periods, i)
      invariant forall p :: p in seen <==> exists j: nat :: j < i && j < |periods| && Asks(amounts, j) && periods[j] == p
    {
      if amounts[i].Blank? {
        continue;
      }
      if amounts[i].Malformed? {
        assert RowError(amounts, periods, i) == Some(InvalidAmount);
        return Err(InvalidAmount);
      }
      var amount := amounts[i].amount;
      if amount <= 0.0 {
        continue;
      }
      var period := "";
      if i < |periods| {
        period := periods[i];
      }
      var known := IsValidQuotaPeriod(period);
      if !known || period == "" {
        assert RowError(amounts, periods, i) == Some(InvalidPeriod);
        return Err(InvalidPeriod);
      }
      if period in seen {
        assert RowError(amounts, periods, i) == Some(DuplicatePeriod);
        return Err(DuplicatePeriod);
      }
      seen := seen + {period};
      out := out + [QuotaWindow(amount, period)];
    }
    var ok := CheckWindowsBind(out);
    if !ok {
      return Err(NeverBinds);
    }
    return Ok(out);
  }

  lemma {:induction false} RowsFromForm(amounts: seq<Amount>, periods: seq<string>, n: nat)
    requires n <= |amounts| && CleanRows(amounts, periods, n)
    ensures var ws := Rows(amounts, periods, n);
            && (forall w :: w in ws ==> Effective(w) && ValidPeriod(w.period))
            && (forall w :: w in ws ==> exists j: nat :: j < n && j < |periods| && Asks(amounts, j) && periods[j] == w.period)
            && DistinctPeriods(ws)
  {
    if n > 0 {
      RowsFromForm(amounts, periods, n - 1);
      assert RowError(amounts, periods, n - 1) == None;
      var init := Rows(amounts, periods, n - 1);
      if Asks(amounts, n - 1) {
        assert ValidPeriod(periods[n - 1]);
        forall i | 0 <= i < |init| ensures init[i].period != periods[n - 1] {
          assert init[i] in init;
        }
      }
    }
  }

  /**
   * Every accepted form yields positive windows over distinct valid periods,
   * and the window held against the person is the widest and has the largest
   * allowance. The others stay on the key in the order of the form.
   */
  lemma FormToSplit(amounts: seq<Amount>, periods: seq<string>)
    requires CleanRows(amounts, periods, |amounts|) && EveryWindowBinds(Rows(amounts, periods, |amounts|))
    ensures var ws := Rows(amounts, periods, |amounts|);
            && (forall w :: w in ws ==> Effective(w) && ValidPeriod(w.period))
            && DistinctPeriods(ws)
            && EffectiveWindows(ws) == ws
            && (forall w :: w in ws ==> w.budget <= SplitWindows(ws).widest.budget)
            && (forall w :: w in SplitWindows(ws).rest ==> PeriodRank(w.period) < PeriodRank(SplitWindows(ws).widest.period))
  {
    var ws := Rows(amounts, periods, |amounts|);
    RowsFromForm(amounts, periods, |amounts|);
    EffectiveWindowsIdentity(ws);
    if ws != [] {
      WidestHasLargestBudget(ws);
    }
  }

  lemma HoursFollowRank(p: string, q: string)
    requires ValidPeriod(p) && ValidPeriod(q) && PeriodRank(p) < PeriodRank(q)
    ensures PeriodHours(p) < PeriodHours(q)
  {
    assert p == "1h" || p == "24h" || p == "7d" || p == "30d";
    assert q == "1h" || q == "24h" || q == "7d" || q == "30d";
  }

  lemma WidestHasLargestBudget(ws: seq<QuotaWindow>)
    requires ws != [] && EveryWindowBinds(ws) && DistinctPeriods(ws)
    requires forall w :: w in ws ==> ValidPeriod(w.period)
    ensures forall w :: w in ws ==> w.budget <= SplitWindows(ws).widest.budget
    ensures forall w :: w in SplitWindows(ws).rest ==> PeriodRank(w.period) < PeriodRank(SplitWindows(ws).widest.period)
  {
    DistinctValidRanks(ws);
    var k := WidestIndex(ws);
    forall i | 0 <= i < |ws| && i != k
      ensures PeriodRank(ws[i].period) < PeriodRank(ws[k].period) && ws[i].budget <= ws[k].budget
    {
      HoursFollowRank(ws[i].period, ws[k].period);
    }
  }
}
