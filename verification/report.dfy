/**
 * The Markdown report: the KPI table in descending KPI order, the five
 * months with the largest spend, the analysed period and the list of areas
 * at risk. Lines are kept as structured values; their Markdown formatting
 * is not modelled.
 */
module Report {
  import opened Common
  import opened Seqs
  import opened Sorting
  import opened Records
  import opened Groups
  import opened Gold

  // ---------------------------------------------------------------------
  // Top months

  /** `df_mensual.groupby('mes')['gasto_mensual'].sum()`. */
  function MonthTotals(monthly: seq<Group<MonthArea>>): seq<Group<Month>>
  {
    GroupBy(monthly, Lift(KeyMes), GroupTotal)
  }

  /** The month totals, regrouped from the monthly trend, are the spend of each month, one row per month. */
  lemma MonthTotalsFacts(clean: seq<Expense>)
    ensures NoDup(Map(MonthTotals(MonthlyTrend(clean)), GroupKey))
    ensures forall g :: g in MonthTotals(MonthlyTrend(clean)) ==> g.total == GroupSum(clean, MesOf, Importe, g.key)
    ensures forall m :: m in Map(MonthTotals(MonthlyTrend(clean)), GroupKey) <==> m in Map(clean, MesOf)
  {
    var monthly := MonthlyTrend(clean);
    GroupByKeys(monthly, Lift(KeyMes), GroupTotal);
    GroupByKeys(clean, MonthAreaOf, Importe);
    forall g | g in MonthTotals(monthly)
      ensures g.total == GroupSum(clean, MesOf, Importe, g.key)
    {
      Coarsen(clean, MonthAreaOf, KeyMes, MesOf, Importe, g.key);
    }
    forall m
      ensures m in Map(monthly, Lift(KeyMes)) <==> m in Map(clean, MesOf)
    {
      if m in Map(monthly, Lift(KeyMes)) {
        var g := MapFrom(monthly, Lift(KeyMes), m);
        MapIn(monthly, GroupKey, g);
        var e := MapFrom(clean, MonthAreaOf, g.key);
        MapIn(clean, MesOf, e);
      }
      if m in Map(clean, MesOf) {
        var e := MapFrom(clean, MesOf, m);
        MapIn(clean, MonthAreaOf, e);
        var g := MapFrom(monthly, GroupKey, MonthAreaOf(e));
        MapIn(monthly, Lift(KeyMes), g);
      }
    }
  }

  function TotalSortKey(g: Group<Month>): SortKey
  {
    SortKey(-g.total, 0)
  }

  /** `sort_values('gasto_mensual', ascending=False)`, ties in table order. */
  function SortByTotal(ms: seq<Group<Month>>): seq<Group<Month>>
  {
    var ix := ArgSort(Map(ms, TotalSortKey));
    assert forall p :: 0 <= p < |ix| ==> ix[p] < |ms| by {
      assert InRange(Map(ms, TotalSortKey), ix);
    }
    Take(ms, ix)
  }

  /** `.head(5)` of the months in descending order of spend. */
  function TopMonths(ms: seq<Group<Month>>): seq<Group<Month>>
  {
    var s := SortByTotal(ms);
    s[..if |s| < 5 then |s| else 5]
  }

  /**
   * At most five months, in descending order of spend, taken from the month
   * totals, and no month left out spends more than one that was taken.
   */
  lemma TopMonthsFacts(ms: seq<Group<Month>>)
    ensures |TopMonths(ms)| == if |ms| < 5 then |ms| else 5
    ensures forall p, q :: 0 <= p < q < |TopMonths(ms)| ==> TopMonths(ms)[p].total >= TopMonths(ms)[q].total
    ensures forall g :: g in TopMonths(ms) ==> g in ms
    ensures forall g :: g in ms && g !in TopMonths(ms) ==> forall t :: t in TopMonths(ms) ==> t.total >= g.total
  {
    var s := SortByTotal(ms);
    var top := TopMonths(ms);
    SortByTotalFacts(ms);
    assert top == s[..|top|];
    forall g | g in top
      ensures g in ms
    {
      assert g in s;
      assert g in multiset(s);
    }
    forall g | g in ms && g !in top
      ensures forall t :: t in top ==> t.total >= g.total
    {
      assert g in multiset(s);
      PrefixDominates(s, |top|, g);
    }
  }

  /** In a list in descending order of spend, a prefix spends at least as much as anything after it. */
  lemma PrefixDominates(s: seq<Group<Month>>, n: nat, g: Group<Month>)
    requires n <= |s| && g in s && g !in s[..n]
    requires forall p, q :: 0 <= p < q < |s| ==> s[p].total >= s[q].total
    ensures forall t :: t in s[..n] ==> t.total >= g.total
  {
    var q :| 0 <= q < |s| && s[q] == g;
    assert q >= n;
    forall p | 0 <= p < n
      ensures s[..n][p].total >= g.total
    {
      assert s[..n][p] == s[p];
    }
  }

  /** Sorting by spend reorders the months, losing none, into descending order. */
  lemma SortByTotalFacts(ms: seq<Group<Month>>)
    ensures |SortByTotal(ms)| == |ms|
    ensures multiset(SortByTotal(ms)) == multiset(ms)
    ensures forall p, q :: 0 <= p < q < |ms| ==> SortByTotal(ms)[p].total >= SortByTotal(ms)[q].total
  {
    var keys := Map(ms, TotalSortKey);
    var s := SortByTotal(ms);
    SortedRowsPermutation(ms, keys);
    forall p, q | 0 <= p < q < |ms|
      ensures s[p].total >= s[q].total
    {
      ArgSortOrdered(keys, p, q);
    }
  }

  // ---------------------------------------------------------------------
  // Report lines

  datatype Line =
    | AreaLine(area: string, presupuesto: Option<int>, gasto: int, kpi: Kpi, restante: Option<int>)
    | MonthLine(mes: Month, total: int)
    | OverBudgetLine(area: string, kpi: Kpi)
    | AtRiskLine(area: string, kpi: Kpi)
    | NoAreaAtRisk

  /** A row of Table 1. */
  function AreaLineOf(r: KpiRow): Line
  {
    AreaLine(r.area, r.presupuesto, r.gasto, r.kpi, Remaining(r.presupuesto, r.gasto))
  }

  /** A row of Table 2. */
  function MonthLineOf(g: Group<Month>): Line
  {
    MonthLine(g.key, g.total)
  }

  /** `df_oro_sorted['kpi_ejecucion'] >= 90`. */
  predicate AtRiskRow(r: KpiRow)
  {
    KpiAtLeast(r.kpi, 9000)
  }

  /** The wording of one area at risk: over budget above 100 %, at risk otherwise. */
  function RiskLineOf(r: KpiRow): Line
  {
    if KpiAbove(r.kpi, 10000) then OverBudgetLine(r.area, r.kpi) else AtRiskLine(r.area, r.kpi)
  }

  /** The "Areas en Riesgo" section. */
  function RiskLines(sorted: seq<KpiRow>): seq<Line>
  {
    var risky := Keep(sorted, AtRiskRow);
    if |risky| > 0 then Map(risky, RiskLineOf) else [NoAreaAtRisk]
  }

  /**
   * The risk list names exactly the rows with a KPI of at least 90 %, with
   * the over-budget wording exactly for a KPI above 100 %; the "no area at
   * risk" line appears exactly when there is none.
   */
  lemma RiskSectionFacts(sorted: seq<KpiRow>)
    ensures forall r :: r in sorted && AtRiskRow(r) && KpiAbove(r.kpi, 10000) ==>
      OverBudgetLine(r.area, r.kpi) in RiskLines(sorted)
    ensures forall r :: r in sorted && AtRiskRow(r) && !KpiAbove(r.kpi, 10000) ==>
      AtRiskLine(r.area, r.kpi) in RiskLines(sorted)
    ensures forall l :: l in RiskLines(sorted) && l.OverBudgetLine? ==>
      exists r :: r in sorted && r.area == l.area && r.kpi == l.kpi && KpiAbove(r.kpi, 10000)
    ensures forall l :: l in RiskLines(sorted) && l.AtRiskLine? ==>
      exists r :: r in sorted && r.area == l.area && r.kpi == l.kpi && KpiAtLeast(r.kpi, 9000) && !KpiAbove(r.kpi, 10000)
    ensures NoAreaAtRisk in RiskLines(sorted) <==> forall r :: r in sorted ==> !AtRiskRow(r)
    ensures forall l :: l in RiskLines(sorted) ==> l.OverBudgetLine? || l.AtRiskLine? || l.NoAreaAtRisk?
  {
    RiskLinesComplete(sorted);
    RiskLinesSound(sorted);
    var lines := RiskLines(sorted);
    forall l | l in lines && l.OverBudgetLine?
      ensures exists r :: r in sorted && r.area == l.area && r.kpi == l.kpi && KpiAbove(r.kpi, 10000)
    {
      var r :| r in sorted && AtRiskRow(r) && l == RiskLineOf(r);
      assert KpiAbove(r.kpi, 10000);
    }
    forall l | l in lines && l.AtRiskLine?
      ensures exists r :: r in sorted && r.area == l.area && r.kpi == l.kpi && KpiAtLeast(r.kpi, 9000) && !KpiAbove(r.kpi, 10000)
    {
      var r :| r in sorted && AtRiskRow(r) && l == RiskLineOf(r);
      assert !KpiAbove(r.kpi, 10000);
    }
  }

  lemma RiskLinesComplete(sorted: seq<KpiRow>)
    ensures forall r :: r in sorted && AtRiskRow(r) ==> RiskLineOf(r) in RiskLines(sorted)
    ensures NoAreaAtRisk in RiskLines(sorted) <==> forall r :: r in sorted ==> !AtRiskRow(r)
  {
    var risky := Keep(sorted, AtRiskRow);
    forall r | r in sorted && AtRiskRow(r)
      ensures RiskLineOf(r) in RiskLines(sorted)
    {
      MapIn(risky, RiskLineOf, r);
    }
    if |risky| > 0 {
      assert risky[0] in risky;
      if NoAreaAtRisk in RiskLines(sorted) {
        var r := MapFrom(risky, RiskLineOf, NoAreaAtRisk);
      }
    }
  }

  lemma RiskLinesSound(sorted: seq<KpiRow>)
    ensures forall l :: l in RiskLines(sorted) ==>
      l == NoAreaAtRisk || exists r :: r in sorted && AtRiskRow(r) && l == RiskLineOf(r)
  {
    var risky := Keep(sorted, AtRiskRow);
    forall l | l in RiskLines(sorted) && l != NoAreaAtRisk
      ensures exists r :: r in sorted && AtRiskRow(r) && l == RiskLineOf(r)
    {
      var r := MapFrom(risky, RiskLineOf, l);
    }
  }

  /** The areas at risk are listed in the order of Table 1, most executed first. */
  lemma RiskRowsOrdered(rows: seq<KpiRow>)
    ensures var risky := Keep(SortByKpi(rows), AtRiskRow);
      forall p, q :: 0 <= p < q < |risky| ==> KpiGe(risky[p].kpi, risky[q].kpi)
  {
    SortByKpiFacts(rows);
    KeepPairwise(SortByKpi(rows), AtRiskRow, (a: KpiRow, b: KpiRow) => KpiGe(a.kpi, b.kpi));
  }

  // ---------------------------------------------------------------------
  // The document

  /** The earliest date of a non-empty table (`fecha.min()`). */
  function FirstDate(s: seq<Expense>): (d: Date)
    requires |s| > 0
    ensures exists e :: e in s && e.fecha == d
    ensures forall e :: e in s ==> DateLe(d, e.fecha)
  {
    if |s| == 1 then s[0].fecha
    else
      var m := FirstDate(s[1..]);
      if DateLe(s[0].fecha, m) then s[0].fecha else m
  }

  /** The latest date of a non-empty table (`fecha.max()`). */
  function LastDate(s: seq<Expense>): (d: Date)
    requires |s| > 0
    ensures exists e :: e in s && e.fecha == d
    ensures forall e :: e in s ==> DateLe(e.fecha, d)
  {
    if |s| == 1 then s[0].fecha
    else
      var m := LastDate(s[1..]);
      if DateLe(m, s[0].fecha) then s[0].fecha else m
  }

  /** The values the report prints that come from outside the tables. */
  datatype RunInfo = RunInfo(batchId: string, ingestTs: string, generatedAt: string)

  /** The dynamic content of `reporte.md`, section by section. */
  datatype Document = Document(
    info: RunInfo,
    validCount: nat, quarantinedCount: nat, areaCount: nat,
    areaTable: seq<Line>,
    monthTable: seq<Line>,
    rawExpenses: nat, rawBudgets: nat,
    firstDate: Date, lastDate: Date,
    duplicates: int,
    riskList: seq<Line>)

  /**
   * The report of a run; None when the clean table is empty, where
   * formatting the period's NaT bounds raises and the run stops.
   */
  function ReportOf(
    info: RunInfo, clean: seq<Expense>, oro: seq<KpiRow>, monthly: seq<Group<MonthArea>>,
    quarantined: nat, rawExpenses: nat, rawBudgets: nat, duplicates: int): Option<Document>
  {
    if |clean| == 0 then None
    else
      var sorted := SortByKpi(oro);
      Some(Document(
        info, |clean|, quarantined, |oro|,
        Map(sorted, AreaLineOf),
        Map(TopMonths(MonthTotals(monthly)), MonthLineOf),
        rawExpenses, rawBudgets,
        FirstDate(clean), LastDate(clean),
        duplicates,
        RiskLines(sorted)))
  }

  /** Table 1, one line per area, built row by row. */
  method AreaTable(sorted: seq<KpiRow>) returns (lines: seq<Line>)
    ensures lines == Map(sorted, AreaLineOf)
  {
    lines := [];
    for i := 0 to |sorted|
      invariant lines == Map(sorted[..i], AreaLineOf)
    {
      lines := lines + [AreaLine(sorted[i].area, sorted[i].presupuesto, sorted[i].gasto, sorted[i].kpi,
                                 Remaining(sorted[i].presupuesto, sorted[i].gasto))];
    }
    assert sorted[..|sorted|] == sorted;
  }

  /** Table 2, one line per top month, built row by row. */
  method MonthTable(top: seq<Group<Month>>) returns (lines: seq<Line>)
    ensures lines == Map(top, MonthLineOf)
  {
    lines := [];
    for i := 0 to |top|
      invariant lines == Map(top[..i], MonthLineOf)
    {
      lines := lines + [MonthLine(top[i].key, top[i].total)];
    }
    assert top[..|top|] == top;
  }

  /** One risk line per row, built row by row. */
  method RiskLinesLoop(risky: seq<KpiRow>) returns (lines: seq<Line>)
    ensures lines == Map(risky, RiskLineOf)
  {
    lines := [];
    for i := 0 to |risky|
      invariant lines == Map(risky[..i], RiskLineOf)
    {
      var r := risky[i];
      if KpiAbove(r.kpi, 10000) {
        lines := lines + [OverBudgetLine(r.area, r.kpi)];
      } else {
        lines := lines + [AtRiskLine(r.area, r.kpi)];
      }
    }
    assert risky[..|risky|] == risky;
  }

  /** The risk list: the areas with a KPI of at least 90 %, or the "no area at risk" line. */
  method RiskList(sorted: seq<KpiRow>) returns (lines: seq<Line>)
    ensures lines == RiskLines(sorted)
  {
    var risky := Keep(sorted, AtRiskRow);
    if |risky| > 0 {
      lines := RiskLinesLoop(risky);
    } else {
      lines := [NoAreaAtRisk];
    }
  }

  /** Builds the report section by section. */
  method Render(
    info: RunInfo, clean: seq<Expense>, oro: seq<KpiRow>, monthly: seq<Group<MonthArea>>,
    quarantined: nat, rawExpenses: nat, rawBudgets: nat, duplicates: int)
    returns (doc: Option<Document>)
    ensures doc == ReportOf(info, clean, oro, monthly, quarantined, rawExpenses, rawBudgets, duplicates)
  {
    var sorted := SortByKpi(oro);
    var areaTable := AreaTable(sorted);
    var monthTable := MonthTable(TopMonths(MonthTotals(monthly)));
    if |clean| == 0 {
      return None;
    }
    var first := FirstDate(clean);
    var last := LastDate(clean);
    var riskList := RiskList(sorted);
    doc := Some(Document(
      info, |clean|, quarantined, |oro|, areaTable, monthTable,
      rawExpenses, rawBudgets, first, last, duplicates, riskList));
  }
}
