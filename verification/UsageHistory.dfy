/** A person's usage, read from the gateway page by page (History in internal/litellm/usage.go). */
module UsageHistory {
  import opened Options
  import Sorting

  datatype Metrics = Metrics(requests: int, prompt: int, completion: int, total: int)

  /** One row of a page: a day's tokens, and what each model had of them. */
  datatype Row = Row(date: string, tokens: int, models: map<string, Metrics>)

  datatype Page = Failure | Page(rows: seq<Row>, more: bool)

  datatype DailyUsage = DailyUsage(day: string, tokens: int)

  datatype ModelUsage = ModelUsage(model: string, metrics: Metrics)

  datatype History = History(days: seq<DailyUsage>, models: seq<ModelUsage>)

  datatype Error = GatewayFailed(page: nat) | TooManyPages

  const activityMaxPages := 20

  // ----- Orders -----

  predicate Before(a: string, b: string) {
    b != [] && (a == [] || a[0] < b[0] || (a[0] == b[0] && Before(a[1..], b[1..])))
  }

  lemma {:induction false} BeforeTotal(a: string, b: string)
    ensures (Before(a, b) || Before(b, a) || a == b) && !(Before(a, b) && Before(b, a)) && !Before(a, a)
  {
    if a != [] && b != [] && a[0] == b[0] {
      BeforeTotal(a[1..], b[1..]);
      assert a == [a[0]] + a[1..] && b == [b[0]] + b[1..];
    }
    if a != [] {
      BeforeTotal(a[1..], a[1..]);
    }
  }

  /** The order of bytes: at the first difference, or where a ends. */
  ghost predicate DiffersAt(a: string, b: string, n: nat) {
    n <= |a| && n < |b| && a[..n] == b[..n] && (n == |a| || a[n] < b[n])
  }

  lemma {:induction false} BeforeIsLexical(a: string, b: string)
    ensures Before(a, b) <==> exists n: nat :: DiffersAt(a, b, n)
    decreases |a|
  {
    if a == [] || b == [] || a[0] != b[0] {
      assert b != [] && (a == [] || a[0] < b[0]) ==> DiffersAt(a, b, 0);
    } else {
      BeforeIsLexical(a[1..], b[1..]);
      if Before(a, b) {
        var n: nat :| DiffersAt(a[1..], b[1..], n);
        assert a[..n + 1] == [a[0]] + a[1..][..n] && b[..n + 1] == [b[0]] + b[1..][..n];
        assert DiffersAt(a, b, n + 1);
      }
      if n: nat :| DiffersAt(a, b, n) {
        assert n > 0;
        assert a[1..][..n - 1] == a[..n][1..] && b[1..][..n - 1] == b[..n][1..];
        assert DiffersAt(a[1..], b[1..], n - 1);
      }
    }
  }

  lemma {:induction false} BeforeTransitive(a: string, b: string, c: string)
    requires !Before(b, a) && !Before(c, b)
    ensures !Before(c, a)
  {
    if a != [] && b != [] && c != [] && a[0] == b[0] && b[0] == c[0] {
      BeforeTransitive(a[1..], b[1..], c[1..]);
    }
  }

  predicate EarlierDay(a: DailyUsage, b: DailyUsage) {
    Before(a.day, b.day)
  }

  predicate RanksFirst(a: ModelUsage, b: ModelUsage) {
    if a.metrics.total != b.metrics.total then a.metrics.total > b.metrics.total else Before(a.model, b.model)
  }

  predicate DayLe(a: DailyUsage, b: DailyUsage) {
    !EarlierDay(b, a)
  }

  predicate RankLe(a: ModelUsage, b: ModelUsage) {
    !RanksFirst(b, a)
  }

  lemma DayOrder()
    ensures Sorting.TotalPreorder(DayLe)
  {
    forall a: DailyUsage, b: DailyUsage ensures DayLe(a, b) || DayLe(b, a) {
      BeforeTotal(a.day, b.day);
    }
    forall a: DailyUsage, b: DailyUsage, c: DailyUsage | DayLe(a, b) && DayLe(b, c) ensures DayLe(a, c) {
      BeforeTransitive(a.day, b.day, c.day);
    }
  }

  lemma RankOrder()
    ensures Sorting.TotalPreorder(RankLe)
  {
    forall a: ModelUsage, b: ModelUsage ensures RankLe(a, b) || RankLe(b, a) {
      BeforeTotal(a.model, b.model);
    }
    forall a: ModelUsage, b: ModelUsage, c: ModelUsage | RankLe(a, b) && RankLe(b, c) ensures RankLe(a, c) {
      if a.metrics.total == b.metrics.total == c.metrics.total {
        BeforeTransitive(a.model, b.model, c.model);
      }
    }
  }

  // ----- Totals -----

  function DayTotal(rows: seq<Row>, day: string): int {
    if rows == [] then 0
    else
      var r := rows[|rows| - 1];
      DayTotal(rows[..|rows| - 1], day) + if r.date == day then r.tokens else 0
  }

  function Plus(a: Metrics, b: Metrics): Metrics {
    Metrics(a.requests + b.requests, a.prompt + b.prompt, a.completion + b.completion, a.total + b.total)
  }

  function Join(a: Option<Metrics>, b: Option<Metrics>): Option<Metrics> {
    if a.None? then b else if b.None? then a else Some(Plus(a.value, b.value))
  }

  function Lookup<T>(m: map<string, T>, k: string): Option<T> {
    if k in m then Some(m[k]) else None
  }

  /** None for a model no row mentions. */
  function ModelTotal(rows: seq<Row>, model: string): Option<Metrics> {
    if rows == [] then None
    else Join(ModelTotal(rows[..|rows| - 1], model), Lookup(rows[|rows| - 1].models, model))
  }

  // The rows' figures for a model, one by one.

  function Requests(rows: seq<Row>, model: string): int {
    if rows == [] then 0
    else
      var m := rows[|rows| - 1].models;
      Requests(rows[..|rows| - 1], model) + if model in m then m[model].requests else 0
  }

  function PromptTokens(rows: seq<Row>, model: string): int {
    if rows == [] then 0
    else
      var m := rows[|rows| - 1].models;
      PromptTokens(rows[..|rows| - 1], model) + if model in m then m[model].prompt else 0
  }

  function CompletionTokens(rows: seq<Row>, model: string): int {
    if rows == [] then 0
    else
      var m := rows[|rows| - 1].models;
      CompletionTokens(rows[..|rows| - 1], model) + if model in m then m[model].completion else 0
  }

  function TotalTokens(rows: seq<Row>, model: string): int {
    if rows == [] then 0
    else
      var m := rows[|rows| - 1].models;
      TotalTokens(rows[..|rows| - 1], model) + if model in m then m[model].total else 0
  }

  ghost predicate Mentioned(rows: seq<Row>, model: string) {
    exists i :: 0 <= i < |rows| && model in rows[i].models
  }

  /** A total of a model is the sum of the rows' figures, each on its own; there is one if some row mentions the model. */
  lemma {:induction false} ModelTotalIsSum(rows: seq<Row>, model: string)
    ensures ModelTotal(rows, model).Some? <==> Mentioned(rows, model)
    ensures Mentioned(rows, model) ==>
              ModelTotal(rows, model).value ==
              Metrics(Requests(rows, model), PromptTokens(rows, model), CompletionTokens(rows, model), TotalTokens(rows, model))
    ensures !Mentioned(rows, model) ==>
              Requests(rows, model) == PromptTokens(rows, model) == CompletionTokens(rows, model) == TotalTokens(rows, model) == 0
  {
    if rows != [] {
      var n := |rows| - 1;
      ModelTotalIsSum(rows[..n], model);
      MentionedLast(rows, model);
    }
  }

  lemma MentionedLast(rows: seq<Row>, model: string)
    requires rows != []
    ensures Mentioned(rows, model) <==> Mentioned(rows[..|rows| - 1], model) || model in rows[|rows| - 1].models
  {
    var n := |rows| - 1;
    if Mentioned(rows[..n], model) {
      var i :| 0 <= i < n && model in rows[..n][i].models;
      assert model in rows[i].models;
    }
    if Mentioned(rows, model) && model !in rows[n].models {
      var i :| 0 <= i < |rows| && model in rows[i].models;
      assert model in rows[..n][i].models;
    }
  }

  /** The sums of rows that come on two pages are the sums of each page's, added up. */
  lemma {:induction false} SumsOfSplit(x: seq<Row>, y: seq<Row>, model: string)
    ensures Requests(x + y, model) == Requests(x, model) + Requests(y, model)
    ensures PromptTokens(x + y, model) == PromptTokens(x, model) + PromptTokens(y, model)
    ensures CompletionTokens(x + y, model) == CompletionTokens(x, model) + CompletionTokens(y, model)
    ensures TotalTokens(x + y, model) == TotalTokens(x, model) + TotalTokens(y, model)
    decreases |y|
  {
    if y == [] {
      assert x + y == x;
    } else {
      var n := |y| - 1;
      assert (x + y)[..|x| + n] == x + y[..n];
      SumsOfSplit(x, y[..n], model);
    }
  }

  /** Every model some row mentions is listed, no other is, and its figures are those sums. */
  ghost predicate AreSums(models: seq<ModelUsage>, rows: seq<Row>) {
    && (forall i :: 0 <= i < |models| ==>
          && models[i].metrics.requests == Requests(rows, models[i].model)
          && models[i].metrics.prompt == PromptTokens(rows, models[i].model)
          && models[i].metrics.completion == CompletionTokens(rows, models[i].model)
          && models[i].metrics.total == TotalTokens(rows, models[i].model)
          && Mentioned(rows, models[i].model))
    && (forall m :: Mentioned(rows, m) ==> exists i :: 0 <= i < |models| && models[i].model == m)
    && (forall i, j :: 0 <= i < j < |models| ==>
          || models[i].metrics.total > models[j].metrics.total
          || (models[i].metrics.total == models[j].metrics.total && Before(models[i].model, models[j].model)))
  }

  ghost predicate InOrder(days: seq<DailyUsage>) {
    forall i, j :: 0 <= i < j < |days| ==> Before(days[i].day, days[j].day)
  }

  lemma ModelsAreSums(models: seq<ModelUsage>, rows: seq<Row>)
    requires AreModels(models, rows)
    ensures AreSums(models, rows)
  {
    forall i | 0 <= i < |models|
      ensures Mentioned(rows, models[i].model) && models[i].metrics.requests == Requests(rows, models[i].model)
      ensures models[i].metrics.prompt == PromptTokens(rows, models[i].model)
      ensures models[i].metrics.completion == CompletionTokens(rows, models[i].model)
      ensures models[i].metrics.total == TotalTokens(rows, models[i].model)
    {
      assert models[i] in models;
      ModelTotalIsSum(rows, models[i].model);
    }
    forall m | Mentioned(rows, m) ensures exists i :: 0 <= i < |models| && models[i].model == m {
      ModelTotalIsSum(rows, m);
      assert ModelUsage(m, ModelTotal(rows, m).value) in models;
    }
  }

  /** The history of some rows: each total exact, in order, with nothing missing and nothing twice. */
  ghost predicate IsHistory(h: History, rows: seq<Row>) {
    AreDays(h.days, rows) && AreModels(h.models, rows)
  }

  ghost predicate AreDays(days: seq<DailyUsage>, rows: seq<Row>) {
    && Sorting.Rising(days, EarlierDay)
    && (forall d :: d in days <==> d.tokens > 0 && d.tokens == DayTotal(rows, d.day))
  }

  ghost predicate AreModels(models: seq<ModelUsage>, rows: seq<Row>) {
    && Sorting.Rising(models, RanksFirst)
    && (forall i, j :: 0 <= i < j < |models| ==> models[i].model != models[j].model)
    && (forall m :: m in models <==> ModelTotal(rows, m.model) == Some(m.metrics))
  }

  // ----- Pages -----

  /** The rows of the first n pages. */
  function RowsOf(pages: nat -> Page, n: nat): seq<Row> {
    if n == 0 || pages(n).Failure? then [] else RowsOf(pages, n - 1) + pages(n).rows
  }

  /** The first n pages all announce another one. */
  ghost predicate AllAnnounceMore(pages: nat -> Page, n: nat) {
    forall i: nat :: 1 <= i <= n ==> pages(i).Page? && pages(i).more
  }

  ghost predicate LastPage(pages: nat -> Page, n: nat) {
    n >= 1 && AllAnnounceMore(pages, n - 1) && pages(n).Page? && !pages(n).more
  }

  // ----- Reading -----

  ghost predicate DaysSummed(byDay: map<string, int>, rows: seq<Row>) {
    forall d :: (if d in byDay then byDay[d] else 0) == DayTotal(rows, d)
  }

  ghost predicate ModelsSummed(byModel: map<string, Metrics>, rows: seq<Row>) {
    forall m :: Lookup(byModel, m) == ModelTotal(rows, m)
  }

  lemma TotalsOfLast(rows: seq<Row>, r: Row)
    ensures forall d :: DayTotal(rows + [r], d) == DayTotal(rows, d) + if r.date == d then r.tokens else 0
    ensures forall m :: ModelTotal(rows + [r], m) == Join(ModelTotal(rows, m), Lookup(r.models, m))
  {
    assert (rows + [r])[..|rows|] == rows;
  }

  method AddRow(byDay: map<string, int>, byModel: map<string, Metrics>, r: Row, ghost rows: seq<Row>)
    returns (days: map<string, int>, models: map<string, Metrics>)
    requires DaysSummed(byDay, rows) && ModelsSummed(byModel, rows)
    ensures DaysSummed(days, rows + [r]) && ModelsSummed(models, rows + [r])
  {
    days := byDay[r.date := (if r.date in byDay then byDay[r.date] else 0) + r.tokens];
    models := AddModels(byModel, r.models);
    TotalsOfLast(rows, r);
  }

  /** Adds up the breakdown of one row, in whatever order its map yields the models. */
  method AddModels(byModel: map<string, Metrics>, groups: map<string, Metrics>) returns (models: map<string, Metrics>)
    ensures forall m :: Lookup(models, m) == Join(Lookup(byModel, m), Lookup(groups, m))
  {
    models := byModel;
    var left := groups.Keys;
    while exists m :: m in left
      invariant left <= groups.Keys
      invariant forall m :: Lookup(models, m) == if m in left then Lookup(byModel, m) else Join(Lookup(byModel, m), Lookup(groups, m))
      decreases left
    {
      var m :| m in left;
      if m !in models {
        models := models[m := groups[m]];
      } else {
        models := models[m := Plus(models[m], groups[m])];
      }
      left := left - {m};
    }
  }

  /** What ownerID consumed; without one the gateway would report everybody's usage. */
  method ReadHistory(ownerID: string, pages: nat -> Page) returns (r: Result<History, Error>)
    ensures ownerID == "" ==> r == Ok(History([], []))
    ensures ownerID != "" ==> (r.Ok? <==> exists n: nat :: n <= activityMaxPages && LastPage(pages, n))
    ensures ownerID != "" && r.Ok? ==> exists n: nat :: n <= activityMaxPages && LastPage(pages, n) && IsHistory(r.value, RowsOf(pages, n))
                                                                && AreSums(r.value.models, RowsOf(pages, n)) && InOrder(r.value.days)
    ensures r.Err? && r.error.GatewayFailed? ==>
              1 <= r.error.page <= activityMaxPages && AllAnnounceMore(pages, r.error.page - 1) && pages(r.error.page).Failure?
    ensures r == Err(TooManyPages) <==> ownerID != "" && AllAnnounceMore(pages, activityMaxPages)
    ensures r == Err(TooManyPages) <==> ownerID != "" && AllAnnounceMore(pages, 20)
  {
    if ownerID == "" {
      return Ok(History([], []));
    }
    var byDay: map<string, int>, byModel: map<string, Metrics> := map[], map[];
    var page := 1;
    ghost var rows: seq<Row> := [];
    while true
      invariant 1 <= page <= activityMaxPages + 1 && AllAnnounceMore(pages, page - 1)
      invariant rows == RowsOf(pages, page - 1) && DaysSummed(byDay, rows) && ModelsSummed(byModel, rows)
      decreases activityMaxPages - page
    {
      if page > activityMaxPages {
        NoLastPage(pages, activityMaxPages);
        return Err(TooManyPages);
      }
      var body := pages(page);
      if body.Failure? {
        NoLastPage(pages, page);
        return Err(GatewayFailed(page));
      }
      byDay, byModel := AddPage(byDay, byModel, body.rows, rows);
      rows := rows + body.rows;
      if !body.more {
        break;
      }
      page := page + 1;
    }
    assert LastPage(pages, page);
    var days := SortedDays(byDay, rows);
    var models := SortedModels(byModel, rows);
    ModelsAreSums(models, rows);
    return Ok(History(days, models));
  }

  lemma NoLastPage(pages: nat -> Page, n: nat)
    requires n >= 1 && AllAnnounceMore(pages, n - 1)
    requires pages(n).Failure? || pages(n).more
    ensures forall k: nat :: k <= n ==> !LastPage(pages, k)
    ensures pages(n).Failure? ==> forall k: nat :: !LastPage(pages, k)
  {
  }

  method AddPage(byDay: map<string, int>, byModel: map<string, Metrics>, body: seq<Row>, ghost rows: seq<Row>)
    returns (days: map<string, int>, models: map<string, Metrics>)
    requires DaysSummed(byDay, rows) && ModelsSummed(byModel, rows)
    ensures DaysSummed(days, rows + body) && ModelsSummed(models, rows + body)
  {
    days, models := byDay, byModel;
    assert rows + body[..0] == rows;
    for i := 0 to |body|
      invariant DaysSummed(days, rows + body[..i]) && ModelsSummed(models, rows + body[..i])
    {
      days, models := AddRow(days, models, body[i], rows + body[..i]);
      assert rows + body[..i + 1] == rows + body[..i] + [body[i]];
    }
    assert body[..|body|] == body;
  }

  method SortedDays(byDay: map<string, int>, ghost rows: seq<Row>) returns (days: seq<DailyUsage>)
    requires DaysSummed(byDay, rows)
    ensures AreDays(days, rows)
  {
    days := [];
    var left := byDay.Keys;
    while exists d :: d in left
      invariant left <= byDay.Keys
      invariant Sorting.NoRepeats(days)
      invariant forall d :: d in days <==> d.day in byDay && d.day !in left && d.tokens == byDay[d.day] && d.tokens > 0
      decreases left
    {
      var d :| d in left;
      if byDay[d] > 0 {
        days := days + [DailyUsage(d, byDay[d])];
      }
      left := left - {d};
    }
    DaysSorted(days, byDay);
    days := Sorting.Sort(days, DayLe);
  }

  lemma {:induction false} DaysSorted(days: seq<DailyUsage>, byDay: map<string, int>)
    requires Sorting.NoRepeats(days) && forall d :: d in days ==> d.day in byDay && d.tokens == byDay[d.day]
    ensures var r := Sorting.Sort(days, DayLe); Sorting.Rising(r, EarlierDay) && forall d :: d in r <==> d in days
  {
    var r := Sorting.Sort(days, DayLe);
    DayOrder();
    Sorting.SortSorted(days, DayLe);
    Sorting.PermutedNoRepeats(days, r);
    forall i, j | 0 <= i < j < |r| ensures EarlierDay(r[i], r[j]) {
      assert r[i] in days && r[j] in days;
      BeforeTotal(r[i].day, r[j].day);
    }
  }

  method SortedModels(byModel: map<string, Metrics>, ghost rows: seq<Row>) returns (models: seq<ModelUsage>)
    requires ModelsSummed(byModel, rows)
    ensures AreModels(models, rows)
  {
    models := [];
    var left := byModel.Keys;
    while exists m :: m in left
      invariant left <= byModel.Keys
      invariant Sorting.NoRepeats(models)
      invariant forall m :: m in models <==> m.model in byModel && m.model !in left && m.metrics == byModel[m.model]
      decreases left
    {
      var m :| m in left;
      models := models + [ModelUsage(m, byModel[m])];
      left := left - {m};
    }
    ModelsSorted(models, byModel);
    models := Sorting.Sort(models, RankLe);
  }

  lemma {:induction false} ModelsSorted(models: seq<ModelUsage>, byModel: map<string, Metrics>)
    requires Sorting.NoRepeats(models) && forall m :: m in models ==> m.model in byModel && m.metrics == byModel[m.model]
    ensures var r := Sorting.Sort(models, RankLe);
            && Sorting.Rising(r, RanksFirst) && (forall m :: m in r <==> m in models)
            && forall i, j :: 0 <= i < j < |r| ==> r[i].model != r[j].model
  {
    var r := Sorting.Sort(models, RankLe);
    RankOrder();
    Sorting.SortSorted(models, RankLe);
    Sorting.PermutedNoRepeats(models, r);
    forall i, j | 0 <= i < j < |r| ensures RanksFirst(r[i], r[j]) && r[i].model != r[j].model {
      assert r[i] in models && r[j] in models;
      BeforeTotal(r[i].model, r[j].model);
    }
  }

  // ----- What it means -----

  lemma {:induction false} TotalsOfSplit(x: seq<Row>, y: seq<Row>, d: string, m: string)
    ensures DayTotal(x + y, d) == DayTotal(x, d) + DayTotal(y, d)
    ensures ModelTotal(x + y, m) == Join(ModelTotal(x, m), ModelTotal(y, m))
    decreases |y|
  {
    if y == [] {
      assert x + y == x;
    } else {
      var n := |y| - 1;
      assert (x + y)[..|x| + n] == x + y[..n];
      TotalsOfSplit(x, y[..n], d, m);
    }
  }

  /** A row adds the same wherever it stands. */
  lemma RowMoved(x: seq<Row>, r: Row, y: seq<Row>, d: string, m: string)
    ensures DayTotal(x + [r] + y, d) == DayTotal(x + y + [r], d)
    ensures ModelTotal(x + [r] + y, m) == ModelTotal(x + y + [r], m)
  {
    TotalsOfSplit(x, y, d, m);
    TotalsOfSplit(x + [r], y, d, m);
    TotalsOfLast(x, r);
    TotalsOfLast(x + y, r);
  }

  /** b without its k-th row. */
  function Without(b: seq<Row>, k: nat): seq<Row>
    requires k < |b|
  {
    b[..k] + b[k + 1..]
  }

  lemma WithoutRow(b: seq<Row>, k: nat, d: string, m: string)
    requires k < |b|
    ensures multiset(Without(b, k)) == multiset(b) - multiset{b[k]}
    ensures DayTotal(b, d) == DayTotal(Without(b, k) + [b[k]], d)
    ensures ModelTotal(b, m) == ModelTotal(Without(b, k) + [b[k]], m)
  {
    assert b == b[..k] + [b[k]] + b[k + 1..];
    RowMoved(b[..k], b[k], b[k + 1..], d, m);
  }

  lemma SameBeforeLast(x: seq<Row>, y: seq<Row>, r: Row, d: string, m: string)
    requires DayTotal(x, d) == DayTotal(y, d) && ModelTotal(x, m) == ModelTotal(y, m)
    ensures DayTotal(x + [r], d) == DayTotal(y + [r], d) && ModelTotal(x + [r], m) == ModelTotal(y + [r], m)
  {
    TotalsOfLast(x, r);
    TotalsOfLast(y, r);
  }

  lemma {:induction false} FoldsOrderFree(a: seq<Row>, b: seq<Row>, d: string, m: string)
    requires multiset(a) == multiset(b)
    ensures DayTotal(a, d) == DayTotal(b, d) && ModelTotal(a, m) == ModelTotal(b, m)
    decreases |a|
  {
    assert |a| == |multiset(a)| == |multiset(b)| == |b|;
    if a != [] {
      var n := |a| - 1;
      var k := IndexOf(b, a[n], a);
      WithoutRow(a, n, d, m);
      WithoutRow(b, k, d, m);
      assert |Without(a, n)| < |a|;
      FoldsOrderFree(Without(a, n), Without(b, k), d, m);
      SameBeforeLast(Without(a, n), Without(b, k), a[n], d, m);
    }
  }

  /** The totals of a day, and each figure of a model, do not depend on the order the rows come in. */
  lemma {:induction false} TotalsOrderFree(a: seq<Row>, b: seq<Row>, d: string, m: string)
    requires multiset(a) == multiset(b)
    ensures DayTotal(a, d) == DayTotal(b, d) && ModelTotal(a, m) == ModelTotal(b, m)
    ensures Mentioned(a, m) <==> Mentioned(b, m)
    ensures Requests(a, m) == Requests(b, m) && PromptTokens(a, m) == PromptTokens(b, m)
    ensures CompletionTokens(a, m) == CompletionTokens(b, m) && TotalTokens(a, m) == TotalTokens(b, m)
  {
    FoldsOrderFree(a, b, d, m);
    ModelTotalIsSum(a, m);
    ModelTotalIsSum(b, m);
  }

  ghost function IndexOf(b: seq<Row>, r: Row, a: seq<Row>): (k: nat)
    requires multiset(a) == multiset(b) && r in a
    ensures k < |b| && b[k] == r
  {
    assert r in multiset(b);
    var k: nat :| k < |b| && b[k] == r;
    k
  }

  /**
   * A history is determined by the rows, in whatever order and on however many
   * pages they arrive.
   */
  lemma HistoryDetermined(h: History, k: History, a: seq<Row>, b: seq<Row>)
    requires multiset(a) == multiset(b) && IsHistory(h, a) && IsHistory(k, b)
    ensures h == k
  {
    forall d: DailyUsage ensures d in h.days <==> d in k.days {
      TotalsOrderFree(a, b, d.day, "");
    }
    forall m: ModelUsage ensures m in h.models <==> m in k.models {
      TotalsOrderFree(a, b, "", m.model);
    }
    forall x: DailyUsage, y: DailyUsage | EarlierDay(x, y) ensures !EarlierDay(y, x) {
      BeforeTotal(x.day, y.day);
    }
    Sorting.RisingUnique(h.days, k.days, EarlierDay);
    forall x: ModelUsage, y: ModelUsage | RanksFirst(x, y) ensures !RanksFirst(y, x) {
      BeforeTotal(x.model, y.model);
    }
    Sorting.RisingUnique(h.models, k.models, RanksFirst);
  }
}
