/**
 * Splitting quota windows between a person and a key (internal/litellm/quota.go).
 */
module Quota {
  import opened KeyProvider

  const VALID_PERIODS: seq<string> := ["1h", "24h", "7d", "30d"]

  predicate ValidPeriod(p: string) {
    p in VALID_PERIODS
  }

  method IsValidQuotaPeriod(p: string) returns (ok: bool)
    ensures ok <==> p == "" || ValidPeriod(p)
  {
    if p == "" {
      return true;
    }
    for i := 0 to |VALID_PERIODS|
      invariant p !in VALID_PERIODS[..i]
    {
      if VALID_PERIODS[i] == p {
        return true;
      }
    }
    assert VALID_PERIODS[..|VALID_PERIODS|] == VALID_PERIODS;
    return false;
  }

  /** Orders the periods from tightest to widest; 0 for anything else. */
  function PeriodRank(p: string): nat {
    match p
    case "1h" => 1
    case "24h" => 2
    case "7d" => 3
    case "30d" => 4
    case _ => 0
  }

  lemma RankInjective(p: string, q: string)
    requires ValidPeriod(p) && ValidPeriod(q) && PeriodRank(p) == PeriodRank(q)
    ensures p == q
  {
    assert p == "1h" || p == "24h" || p == "7d" || p == "30d";
    assert q == "1h" || q == "24h" || q == "7d" || q == "30d";
  }

  /** w is the first of the widest windows of ws. */
  ghost predicate FirstWidest(ws: seq<QuotaWindow>, w: nat) {
    && w < |ws|
    && (forall j :: 0 <= j < |ws| ==> PeriodRank(ws[j].period) <= PeriodRank(ws[w].period))
    && (forall j :: 0 <= j < w ==> PeriodRank(ws[j].period) < PeriodRank(ws[w].period))
  }

  function WidestIndex(ws: seq<QuotaWindow>): (w: nat)
    requires ws != []
    ensures FirstWidest(ws, w)
  {
    if |ws| == 1 then 0
    else
      var init := ws[..|ws| - 1];
      var w := WidestIndex(init);
      assert forall j :: 0 <= j < |init| ==> init[j] == ws[j];
      if PeriodRank(ws[|ws| - 1].period) > PeriodRank(ws[w].period) then |ws| - 1 else w
  }

  datatype Split = Split(widest: QuotaWindow, rest: seq<QuotaWindow>)

  /** The zero window, which callers read as "no budget". */
  const NO_WINDOW := QuotaWindow(0.0, "")

  function SplitWindows(ws: seq<QuotaWindow>): Split {
    if ws == [] then Split(NO_WINDOW, [])
    else
      var w := WidestIndex(ws);
      Split(ws[w], ws[..w] + ws[w + 1..])
  }

  method WidestWindow(windows: seq<QuotaWindow>) returns (widest: QuotaWindow, rest: seq<QuotaWindow>)
    ensures Split(widest, rest) == SplitWindows(windows)
  {
    if |windows| == 0 {
      return NO_WINDOW, [];
    }
    var w := 0;
    for i := 1 to |windows|
      invariant w == WidestIndex(windows[..i])
    {
      assert windows[..i + 1][..i] == windows[..i];
      if PeriodRank(windows[i].period) > PeriodRank(windows[w].period) {
        w := i;
      }
    }
    assert windows[..|windows|] == windows;

    rest := [];
    for i := 0 to |windows|
      invariant rest == if i <= w then windows[..i] else windows[..w] + windows[w + 1..i]
    {
      if i != w {
        rest := rest + [windows[i]];
      }
    }
    widest := windows[w];
  }

  /** Nothing is lost or duplicated, nothing is reordered, and no window is wider than the one chosen. */
  lemma SplitIsPartition(ws: seq<QuotaWindow>)
    requires ws != []
    ensures var s := SplitWindows(ws);
            && multiset(ws) == multiset(s.rest) + multiset{s.widest}
            && (exists w: nat :: FirstWidest(ws, w) && s.widest == ws[w] && s.rest == ws[..w] + ws[w + 1..])
            && (forall v :: v in ws ==> PeriodRank(v.period) <= PeriodRank(s.widest.period))
  {
    var w := WidestIndex(ws);
    assert ws == ws[..w] + [ws[w]] + ws[w + 1..];
  }

  ghost predicate DistinctPeriods(ws: seq<QuotaWindow>) {
    forall i, j :: 0 <= i < j < |ws| ==> ws[i].period != ws[j].period
  }

  ghost predicate DistinctRanks(ws: seq<QuotaWindow>) {
    forall i, j :: 0 <= i < j < |ws| ==> PeriodRank(ws[i].period) != PeriodRank(ws[j].period)
  }

  lemma DistinctValidRanks(ws: seq<QuotaWindow>)
    requires DistinctPeriods(ws) && forall w :: w in ws ==> ValidPeriod(w.period)
    ensures DistinctRanks(ws)
  {
    forall i, j | 0 <= i < j < |ws| ensures PeriodRank(ws[i].period) != PeriodRank(ws[j].period) {
      if PeriodRank(ws[i].period) == PeriodRank(ws[j].period) {
        RankInjective(ws[i].period, ws[j].period);
      }
    }
  }

  lemma SameWidest(a: seq<QuotaWindow>, b: seq<QuotaWindow>)
    requires a != [] && b != [] && multiset(a) == multiset(b) && DistinctRanks(a)
    ensures SplitWindows(a).widest == SplitWindows(b).widest
  {
    SplitIsPartition(a);
    SplitIsPartition(b);
    var wa, wb := SplitWindows(a).widest, SplitWindows(b).widest;
    assert wa in multiset(b) && wb in multiset(a);
    assert wa in b && wb in a;
    assert PeriodRank(wa.period) == PeriodRank(wb.period);
    var i :| 0 <= i < |a| && a[i] == wa;
    var j :| 0 <= j < |a| && a[j] == wb;
    assert i == j;
  }

  /** With distinct ranks the order the windows are listed in does not matter to the split. */
  lemma SplitOrderFree(a: seq<QuotaWindow>, b: seq<QuotaWindow>)
    requires multiset(a) == multiset(b) && DistinctRanks(a)
    ensures SplitWindows(a).widest == SplitWindows(b).widest
    ensures multiset(SplitWindows(a).rest) == multiset(SplitWindows(b).rest)
  {
    assert |a| == |multiset(a)| == |multiset(b)| == |b|;
    if a != [] {
      SameWidest(a, b);
      SplitIsPartition(a);
      SplitIsPartition(b);
      var widest := SplitWindows(a).widest;
      assert multiset(SplitWindows(a).rest) == multiset(a) - multiset{widest};
      assert multiset(SplitWindows(b).rest) == multiset(b) - multiset{widest};
    }
  }
}
