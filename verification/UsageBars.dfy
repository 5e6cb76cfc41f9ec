/** The columns of the usage chart (internal/handlers/usagebars.go). */
module UsageBars {
  import opened Options
  import opened Calendar

  datatype DailyUsage = DailyUsage(day: int, tokens: int)

  /** One column: its days and their tokens. Its label shows the first day, or is blank. */
  datatype Bar = Bar(caption: Option<int>, first: int, last: int, tokens: int)

  const maxDailyWindowDays := 62
  const maxWeeklyWindowDays := 730
  const maxLabelledBars := 31

  // ----- Sums -----

  /** The tokens used on the days from first to last. */
  function TokensBetween(days: seq<DailyUsage>, first: int, last: int): int {
    if days == [] then 0
    else
      var d := days[|days| - 1];
      TokensBetween(days[..|days| - 1], first, last) + if first <= d.day <= last then d.tokens else 0
  }

  lemma {:induction false} TokensSplit(days: seq<DailyUsage>, a: int, b: int, c: int)
    requires a <= b + 1 <= c + 1
    ensures TokensBetween(days, a, c) == TokensBetween(days, a, b) + TokensBetween(days, b + 1, c)
  {
    if days != [] {
      TokensSplit(days[..|days| - 1], a, b, c);
    }
  }

  lemma {:induction false} NoDays(days: seq<DailyUsage>, a: int, b: int)
    requires b < a
    ensures TokensBetween(days, a, b) == 0
  {
    if days != [] {
      NoDays(days[..|days| - 1], a, b);
    }
  }

  function OnDay(byDay: map<int, int>, day: int): int {
    if day in byDay then byDay[day] else 0
  }

  method ByDay(days: seq<DailyUsage>) returns (byDay: map<int, int>)
    ensures forall d :: OnDay(byDay, d) == TokensBetween(days, d, d)
  {
    byDay := map[];
    for i := 0 to |days|
      invariant forall d :: OnDay(byDay, d) == TokensBetween(days[..i], d, d)
    {
      assert days[..i + 1][..i] == days[..i];
      byDay := byDay[days[i].day := OnDay(byDay, days[i].day) + days[i].tokens];
    }
    assert days[..|days|] == days;
  }

  method SumDays(byDay: map<int, int>, first: int, last: int, ghost days: seq<DailyUsage>) returns (total: int)
    requires forall d :: OnDay(byDay, d) == TokensBetween(days, d, d)
    requires first <= last + 1
    ensures total == TokensBetween(days, first, last)
  {
    total := 0;
    NoDays(days, first, first - 1);
    for d := first to last + 1
      invariant total == TokensBetween(days, first, d - 1)
    {
      TokensSplit(days, first, d - 1, d);
      total := total + OnDay(byDay, d);
    }
  }

  // ----- Buckets -----

  /** Consecutive buckets from one day up to another, each with its days' tokens. */
  ghost predicate Tiles(bars: seq<Bar>, days: seq<DailyUsage>, from: int, next: int) {
    && (forall i :: 0 <= i < |bars| ==> bars[i].first <= bars[i].last && bars[i].tokens == TokensBetween(days, bars[i].first, bars[i].last))
    && (forall i :: 0 <= i < |bars| - 1 ==> bars[i + 1].first == bars[i].last + 1)
    && if bars == [] then from == next else bars[0].first == from && bars[|bars| - 1].last + 1 == next
  }

  ghost predicate Labelled(bars: seq<Bar>) {
    forall i :: 0 <= i < |bars| ==> bars[i].caption == Some(bars[i].first)
  }

  lemma TileAdded(bars: seq<Bar>, days: seq<DailyUsage>, from: int, next: int, bar: Bar)
    requires Tiles(bars, days, from, next) && bar.first == next <= bar.last
    requires bar.tokens == TokensBetween(days, bar.first, bar.last)
    ensures Tiles(bars + [bar], days, from, bar.last + 1)
  {
  }

  ghost predicate WholeWeeks(bars: seq<Bar>) {
    forall i :: 0 <= i < |bars| ==> Weekday(bars[i].first) == 1 && bars[i].last == bars[i].first + 6
  }

  ghost predicate WholeMonths(bars: seq<Bar>) {
    forall i :: 0 <= i < |bars| ==> WholeMonth(bars[i])
  }

  ghost predicate WholeMonth(bar: Bar) {
    exists m :: IsMonth(bar, m)
  }

  predicate IsMonth(bar: Bar, m: int) {
    bar.first == MonthStart(m) && bar.last == MonthStart(m + 1) - 1
  }

  method DailyBars(byDay: map<int, int>, start: int, today: int, ghost days: seq<DailyUsage>) returns (bars: seq<Bar>)
    requires start <= today && forall d :: OnDay(byDay, d) == TokensBetween(days, d, d)
    ensures Tiles(bars, days, start, today + 1) && Labelled(bars)
    ensures |bars| == today - start + 1 && SingleDays(bars)
  {
    bars := [];
    for d := start to today + 1
      invariant Tiles(bars, days, start, d) && Labelled(bars)
      invariant |bars| == d - start && SingleDays(bars)
    {
      var bar := Bar(Some(d), d, d, OnDay(byDay, d));
      TileAdded(bars, days, start, d, bar);
      bars := bars + [bar];
    }
  }

  lemma WeekLater(monday: int)
    ensures Weekday(monday + 7) == Weekday(monday)
  {
  }

  method WeeklyBars(byDay: map<int, int>, start: int, today: int, ghost days: seq<DailyUsage>) returns (bars: seq<Bar>)
    requires start <= today && forall d :: OnDay(byDay, d) == TokensBetween(days, d, d)
    ensures bars != [] && Labelled(bars) && WholeWeeks(bars)
    ensures Tiles(bars, days, MondayOf(start), MondayOf(today) + 7)
  {
    bars := [];
    var w := MondayOf(start);
    while w <= today
      invariant Tiles(bars, days, MondayOf(start), w) && Labelled(bars) && WholeWeeks(bars)
      invariant Weekday(w) == 1 && (if bars == [] then w <= today else w - 7 <= today)
      decreases today - w
    {
      var tokens := SumDays(byDay, w, w + 6, days);
      var bar := Bar(Some(w), w, w + 6, tokens);
      TileAdded(bars, days, MondayOf(start), w, bar);
      bars := bars + [bar];
      WeekLater(w);
      w := w + 7;
    }
    MondayUnique(w - 7, today);
  }

  method MonthlyBars(byDay: map<int, int>, start: int, today: int, ghost days: seq<DailyUsage>) returns (bars: seq<Bar>)
    requires start <= today && forall d :: OnDay(byDay, d) == TokensBetween(days, d, d)
    ensures bars != [] && Labelled(bars) && WholeMonths(bars)
    ensures Tiles(bars, days, MonthStart(MonthOf(start)), MonthStart(MonthOf(today) + 1))
    ensures start <= bars[0].last && bars[|bars| - 1].first <= today
  {
    bars := [];
    var m := MonthOf(start);
    while MonthStart(m) <= today
      invariant Tiles(bars, days, MonthStart(MonthOf(start)), MonthStart(m)) && Labelled(bars) && WholeMonths(bars)
      invariant if bars == [] then m == MonthOf(start)
                else start <= bars[0].last && bars[|bars| - 1].first <= today && MonthStart(m - 1) <= today
      decreases today - MonthStart(m)
    {
      MonthsAreContiguous(m);
      var first, last := MonthStart(m), MonthStart(m + 1) - 1;
      var tokens := SumDays(byDay, first, last, days);
      var bar := Bar(Some(first), first, last, tokens);
      assert IsMonth(bar, m);
      TileAdded(bars, days, MonthStart(MonthOf(start)), first, bar);
      bars := bars + [bar];
      m := m + 1;
    }
    MonthUnique(m - 1, today);
  }

  // ----- Labels -----

  /** Every which bar keeps its label. */
  function Every(n: nat): (every: nat)
    ensures every > 0
  {
    if n > maxLabelledBars then (n + maxLabelledBars - 1) / maxLabelledBars else 1
  }

  function LabelCount(bars: seq<Bar>): nat {
    if bars == [] then 0
    else LabelCount(bars[..|bars| - 1]) + if bars[|bars| - 1].caption.Some? then 1 else 0
  }

  ghost predicate Thinned(bars: seq<Bar>, every: nat)
    requires every > 0
  {
    forall i :: 0 <= i < |bars| ==> bars[i].caption == if i % every == 0 then Some(bars[i].first) else None
  }

  ghost predicate SameBuckets(a: seq<Bar>, b: seq<Bar>) {
    |a| == |b| && forall i :: 0 <= i < |a| ==> a[i].(caption := None) == b[i].(caption := None)
  }

  method ThinLabels(all: seq<Bar>) returns (bars: seq<Bar>)
    requires Labelled(all)
    ensures SameBuckets(all, bars)
    ensures Thinned(bars, Every(|bars|))
  {
    bars := all;
    var n := |bars|;
    if n > maxLabelledBars {
      var every := (n + maxLabelledBars - 1) / maxLabelledBars;
      for i := 0 to n
        invariant SameBuckets(all, bars)
        invariant forall j :: 0 <= j < i ==> bars[j].caption == if j % every == 0 then Some(bars[j].first) else None
        invariant forall j :: i <= j < n ==> bars[j] == all[j]
      {
        if i % every != 0 {
          bars := bars[i := bars[i].(caption := None)];
        }
      }
    }
  }

  lemma MulOrder(a: int, b: int, n: nat)
    ensures a <= b ==> a * n <= b * n
  {
  }

  lemma MultipleIs(n: int, every: int, c: int)
    requires every > 0 && (c - 1) * every < n <= c * every && n % every == 0
    ensures n == c * every
  {
    var q := n / every;
    assert n == q * every;
    MulOrder(q, c - 1, every);
    MulOrder(c + 1, q, every);
  }

  lemma {:induction false} LabelsKept(bars: seq<Bar>, every: nat)
    requires every > 0 && Thinned(bars, every)
    ensures (LabelCount(bars) - 1) * every < |bars| <= LabelCount(bars) * every
    decreases |bars|
  {
    if bars != [] {
      var n := |bars| - 1;
      LabelsKept(bars[..n], every);
      var c := LabelCount(bars[..n]);
      if n % every == 0 {
        MultipleIs(n, every, c);
        assert (c + 1) * every == c * every + every;
      } else {
        assert n != c * every by {
          if n == c * every {
            Multiple(c, every);
          }
        }
      }
    }
  }

  lemma Multiple(c: int, every: int)
    requires every > 0
    ensures c * every % every == 0
  {
    var q, r := c * every / every, c * every % every;
    assert (c - q) * every == r;
    MulOrder(1, c - q, every);
    MulOrder(c - q, -1, every);
  }

  lemma EveryIsEnough(n: nat)
    ensures n <= maxLabelledBars * Every(n)
  {
  }

  /** However many bars there are, at most 31 labels stay, the first among them. */
  lemma LabelBound(bars: seq<Bar>)
    requires Thinned(bars, Every(|bars|))
    ensures LabelCount(bars) <= maxLabelledBars
    ensures bars != [] ==> bars[0].caption == Some(bars[0].first)
  {
    LabelsKept(bars, Every(|bars|));
    EveryIsEnough(|bars|);
    AtMost(|bars|, Every(|bars|), LabelCount(bars), maxLabelledBars);
    Multiple(0, Every(|bars|));
  }

  lemma AtMost(n: int, every: nat, c: int, max: int)
    requires (c - 1) * every < n <= max * every
    ensures c <= max
  {
    MulOrder(max, c - 1, every);
  }

  // ----- The chart -----

  /** What a chart of a window shows. */
  ghost predicate Chart(bars: seq<Bar>, days: seq<DailyUsage>, start: int, today: int) {
    && bars != [] && Tiles(bars, days, bars[0].first, bars[|bars| - 1].last + 1)
    && bars[0].first <= start <= bars[0].last
    && bars[|bars| - 1].first <= today <= bars[|bars| - 1].last
  }

  /** The first day the chart of a window draws, and the last. */
  function SpanFirst(width: int, today: int): int {
    var start := today - (width - 1);
    if width <= maxDailyWindowDays then start
    else if width <= maxWeeklyWindowDays then MondayOf(start)
    else MonthStart(MonthOf(start))
  }

  function SpanLast(width: int, today: int): int {
    if width <= maxDailyWindowDays then today
    else if width <= maxWeeklyWindowDays then MondayOf(today) + 6
    else MonthStart(MonthOf(today) + 1) - 1
  }

  function Width(windowDays: int): int {
    if windowDays < 1 then 1 else windowDays
  }

  lemma ChartIgnoresCaptions(a: seq<Bar>, b: seq<Bar>, days: seq<DailyUsage>, start: int, today: int)
    requires SameBuckets(a, b) && Chart(a, days, start, today)
    ensures Chart(b, days, start, today)
    ensures WholeWeeks(a) ==> WholeWeeks(b)
    ensures WholeMonths(a) ==> WholeMonths(b)
    ensures SingleDays(a) ==> SingleDays(b)
    ensures a[0].first == b[0].first && a[|a| - 1].last == b[|b| - 1].last
  {
    forall i | 0 <= i < |b| ensures b[i].first == a[i].first && b[i].last == a[i].last && b[i].tokens == a[i].tokens {
      assert a[i].(caption := None) == b[i].(caption := None);
    }
    if WholeMonths(a) {
      forall i | 0 <= i < |b| ensures WholeMonth(b[i]) {
        var m :| IsMonth(a[i], m);
        assert IsMonth(b[i], m);
      }
    }
  }

  ghost predicate SingleDays(bars: seq<Bar>) {
    forall i :: 0 <= i < |bars| ==> bars[i].first == bars[i].last
  }

  /** The span by the numbers: up to 62 days it is the window, up to 730 whole weeks around it, and whole months beyond. */
  lemma SpanAroundWindow(windowDays: int, today: int)
    ensures var start := if windowDays < 1 then today else today - windowDays + 1;
            var first, last := SpanFirst(Width(windowDays), today), SpanLast(Width(windowDays), today);
            && first <= start <= today <= last
            && (windowDays <= 62 ==> first == start && last == today)
            && (62 < windowDays <= 730 ==> (first + 4) % 7 == 1 && (last + 4) % 7 == 0 && start - first < 7 && last - today < 7)
            && (730 < windowDays ==> IsFirstNear(first, start) && IsFirstNear(last + 1, today + 1))
  {
    if windowDays > 730 {
      MonthBounds(today - windowDays + 1);
      MonthBounds(today);
    } else if windowDays > 62 {
      WeekBounds(today - windowDays + 1);
      WeekBounds(today);
    }
  }

  lemma WeekBounds(day: int)
    ensures (MondayOf(day) + 4) % 7 == 1 && 0 <= day - MondayOf(day) < 7
    ensures (MondayOf(day) + 6 + 4) % 7 == 0
  {
  }

  lemma MonthBounds(day: int)
    ensures MonthStart(MonthOf(day)) <= day < MonthStart(MonthOf(day) + 1)
    ensures IsFirstNear(MonthStart(MonthOf(day)), day) && IsFirstNear(MonthStart(MonthOf(day) + 1), day + 1)
  {
    MonthStartIsFirst(MonthOf(day));
    MonthStartIsFirst(MonthOf(day) + 1);
    MonthsAreContiguous(MonthOf(day));
  }

  /** The first of a month near the day. */
  ghost predicate IsFirstNear(day: int, near: int) {
    exists year, m :: 0 <= m < 12 && day == FirstOf(year, m) && -31 < day - near < 31
  }

  /** Up to 31 bars all keep their label; of more, every so many that at most 31 do. */
  lemma LabelsByTheNumbers(bars: seq<Bar>)
    requires Thinned(bars, Every(|bars|))
    ensures |bars| <= 31 ==> forall i :: 0 <= i < |bars| ==> bars[i].caption == Some(bars[i].first)
    ensures |bars| > 31 ==>
              forall i :: 0 <= i < |bars| ==> bars[i].caption == if i % ((|bars| + 30) / 31) == 0 then Some(bars[i].first) else None
  {
  }

  /** Spreads the totals over the window that ends today, by day, week or month. */
  method Bars(days: seq<DailyUsage>, windowDays: int, today: int) returns (bars: seq<Bar>)
    ensures Chart(bars, days, today - Width(windowDays) + 1, today)
    ensures bars[0].first == SpanFirst(Width(windowDays), today) && bars[|bars| - 1].last == SpanLast(Width(windowDays), today)
    ensures Thinned(bars, Every(|bars|)) && LabelCount(bars) <= maxLabelledBars
    ensures Width(windowDays) <= maxDailyWindowDays ==>
              |bars| == Width(windowDays) && SingleDays(bars)
    ensures maxDailyWindowDays < windowDays <= maxWeeklyWindowDays ==> WholeWeeks(bars)
    ensures maxWeeklyWindowDays < windowDays ==> WholeMonths(bars)
  {
    var width := windowDays;
    if windowDays < 1 {
      width := 1;
    }
    var start := today - (width - 1);
    var all := Buckets(days, width, start, today);
    bars := ThinLabels(all);
    ChartIgnoresCaptions(all, bars, days, start, today);
    LabelBound(bars);
  }

  method Buckets(days: seq<DailyUsage>, width: int, start: int, today: int) returns (all: seq<Bar>)
    requires width >= 1 && start == today - (width - 1)
    ensures Chart(all, days, start, today) && Labelled(all)
    ensures all[0].first == SpanFirst(width, today) && all[|all| - 1].last == SpanLast(width, today)
    ensures width <= maxDailyWindowDays ==> |all| == width && SingleDays(all)
    ensures maxDailyWindowDays < width <= maxWeeklyWindowDays ==> WholeWeeks(all)
    ensures maxWeeklyWindowDays < width ==> WholeMonths(all)
  {
    var byDay := ByDay(days);
    if width <= maxDailyWindowDays {
      all := DailyBars(byDay, start, today, days);
    } else if width <= maxWeeklyWindowDays {
      all := WeeklyBars(byDay, start, today, days);
    } else {
      all := MonthlyBars(byDay, start, today, days);
    }
  }

  function Total(bars: seq<Bar>): int {
    if bars == [] then 0 else Total(bars[..|bars| - 1]) + bars[|bars| - 1].tokens
  }

  /** The chart shows each token on a day it spans exactly once. */
  lemma {:induction false} TokensConserved(bars: seq<Bar>, days: seq<DailyUsage>, from: int, next: int)
    requires Tiles(bars, days, from, next)
    ensures from <= next && Total(bars) == TokensBetween(days, from, next - 1)
    decreases |bars|
  {
    if bars == [] {
      NoDays(days, from, next - 1);
    } else {
      var n := |bars| - 1;
      var init := bars[..n];
      TokensConserved(init, days, from, bars[n].first);
      TokensSplit(days, from, bars[n].first - 1, next - 1);
    }
  }

  /** Every day from the first bar to the last is in exactly one bar. */
  lemma DaysCovered(bars: seq<Bar>, days: seq<DailyUsage>, from: int, next: int, d: int)
    requires Tiles(bars, days, from, next) && from <= d < next
    ensures exists i :: 0 <= i < |bars| && bars[i].first <= d <= bars[i].last
    ensures forall i, j :: 0 <= i < j < |bars| ==> bars[i].last < bars[j].first
  {
    InOneBar(bars, days, from, next, d);
    forall i, j | 0 <= i < j < |bars| ensures bars[i].last < bars[j].first {
      BarsInOrder(bars, days, from, next, i, j);
    }
  }

  lemma {:induction false} BarsInOrder(bars: seq<Bar>, days: seq<DailyUsage>, from: int, next: int, i: nat, j: nat)
    requires Tiles(bars, days, from, next) && i < j < |bars|
    ensures bars[i].last < bars[j].first
    decreases j
  {
    if i + 1 < j {
      BarsInOrder(bars, days, from, next, i, j - 1);
    }
    assert bars[(j - 1) + 1].first == bars[j - 1].last + 1;
  }

  lemma {:induction false} InOneBar(bars: seq<Bar>, days: seq<DailyUsage>, from: int, next: int, d: int)
    requires Tiles(bars, days, from, next) && from <= d < next
    ensures exists i :: 0 <= i < |bars| && bars[i].first <= d <= bars[i].last
    decreases |bars|
  {
    var n := |bars| - 1;
    if d < bars[n].first {
      InOneBar(bars[..n], days, from, bars[n].first, d);
      var i :| 0 <= i < n && bars[..n][i].first <= d <= bars[..n][i].last;
      assert bars[i].first <= d <= bars[i].last;
    } else {
      assert bars[n].first <= d <= bars[n].last;
    }
  }

  /** No token was used on the days from a to b. */
  ghost predicate Unused(days: seq<DailyUsage>, a: int, b: int) {
    forall i :: 0 <= i < |days| && a <= days[i].day <= b ==> days[i].tokens == 0
  }

  /**
   * When a chart shows just its window: always by day; otherwise if and only if
   * nothing was used on the days before the window in its first week or month,
   * and after it in its last.
   */
  lemma {:induction false} WindowOnly(bars: seq<Bar>, days: seq<DailyUsage>, width: int, today: int)
    requires width >= 1 && Chart(bars, days, today - (width - 1), today)
    requires bars[0].first == SpanFirst(width, today) && bars[|bars| - 1].last == SpanLast(width, today)
    requires forall i :: 0 <= i < |days| ==> days[i].tokens >= 0
    ensures width <= maxDailyWindowDays ==> Total(bars) == TokensBetween(days, today - (width - 1), today)
    ensures maxDailyWindowDays < width <= maxWeeklyWindowDays ==>
              (Total(bars) == TokensBetween(days, today - (width - 1), today) <==>
               Unused(days, MondayOf(today - (width - 1)), today - width) && Unused(days, today + 1, MondayOf(today) + 6))
    ensures maxWeeklyWindowDays < width ==>
              (Total(bars) == TokensBetween(days, today - (width - 1), today) <==>
               && Unused(days, MonthStart(MonthOf(today - (width - 1))), today - width)
               && Unused(days, today + 1, MonthStart(MonthOf(today) + 1) - 1))
  {
    var start, first, last := today - (width - 1), SpanFirst(width, today), SpanLast(width, today);
    TokensConserved(bars, days, first, last + 1);
    TokensSplit(days, first, start - 1, last);
    TokensSplit(days, start, today, last);
    NoTokens(days, first, start - 1);
    NoTokens(days, today + 1, last);
  }

  lemma {:induction false} TokensNotNegative(days: seq<DailyUsage>, a: int, b: int)
    requires forall i :: 0 <= i < |days| ==> days[i].tokens >= 0
    ensures TokensBetween(days, a, b) >= 0
  {
    if days != [] {
      TokensNotNegative(days[..|days| - 1], a, b);
    }
  }

  lemma {:induction false} NoTokens(days: seq<DailyUsage>, a: int, b: int)
    requires forall i :: 0 <= i < |days| ==> days[i].tokens >= 0
    ensures TokensBetween(days, a, b) >= 0
    ensures TokensBetween(days, a, b) == 0 <==> Unused(days, a, b)
  {
    TokensNotNegative(days, a, b);
    if days != [] {
      var n := |days| - 1;
      var init := days[..n];
      NoTokens(init, a, b);
      if Unused(days, a, b) {
        assert forall i :: 0 <= i < n ==> init[i] == days[i];
      }
      if TokensBetween(days, a, b) == 0 {
        assert Unused(init, a, b);
        assert a <= days[n].day <= b ==> days[n].tokens == 0;
        forall i | 0 <= i < |days| && a <= days[i].day <= b ensures days[i].tokens == 0 {
          assert i < n ==> days[i] == init[i];
        }
      }
    }
  }

  /** A chart of 63 days that ends on Friday 1970-01-02 shows a token used the day before it begins. */
  method OverhangShown() returns (bars: seq<Bar>)
    ensures Chart(bars, [DailyUsage(-62, 5)], -61, 1) && Total(bars) == 5 && TokensBetween([DailyUsage(-62, 5)], -61, 1) == 0
  {
    var days := [DailyUsage(-62, 5)];
    bars := Bars(days, 63, 1);
    TokensConserved(bars, days, bars[0].first, bars[|bars| - 1].last + 1);
    assert bars[0].first <= -62;
    assert days[..0] == [];
  }
}
