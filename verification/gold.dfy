/**
 * The gold layer: spend per area, the left join with the budgets and the
 * execution KPI, spend per (month, area), and the four-way status of the
 * detail view.
 */
module Gold {
  import opened Common
  import opened Seqs
  import opened Sorting
  import opened Records
  import opened Groups

  // ---------------------------------------------------------------------
  // Aggregations

  /** The key of the monthly trend: `mes` (the period `YYYY-MM`) and `area`. */
  datatype MonthArea = MonthArea(mes: Month, area: string)

  function MonthAreaOf(e: Expense): MonthArea { MonthArea(MonthOf(e.fecha), e.area) }
  function MesOf(e: Expense): Month { MonthOf(e.fecha) }
  function KeyMes(k: MonthArea): Month { k.mes }
  function KeyArea(k: MonthArea): string { k.area }

  /** `df_gasto_area`: `gasto_acumulado` per area. */
  function AreaTotals(clean: seq<Expense>): seq<Group<string>>
  {
    GroupBy(clean, AreaOf, Importe)
  }

  /** `df_mensual`: `gasto_mensual` per (mes, area). */
  function MonthlyTrend(clean: seq<Expense>): seq<Group<MonthArea>>
  {
    GroupBy(clean, MonthAreaOf, Importe)
  }

  /** The spend of one area: the sum of the clean amounts carrying it. */
  function AreaSpend(clean: seq<Expense>, a: string): int
  {
    GroupSum(clean, AreaOf, Importe, a)
  }

  /** The monthly totals of an area add up to the area's accumulated spend. */
  lemma MonthlyAddsUpToArea(clean: seq<Expense>, a: string)
    ensures GroupSum(MonthlyTrend(clean), Lift(KeyArea), GroupTotal, a) == AreaSpend(clean, a)
  {
    Coarsen(clean, MonthAreaOf, KeyArea, AreaOf, Importe, a);
  }

  /** Each per-area row carries the sum of the clean amounts of its area, one row per area with spend. */
  lemma AreaTotalsFacts(clean: seq<Expense>)
    ensures NoDup(Map(AreaTotals(clean), GroupKey))
    ensures forall a :: a in Map(AreaTotals(clean), GroupKey) <==> a in Map(clean, AreaOf)
    ensures forall g :: g in AreaTotals(clean) ==> g.total == AreaSpend(clean, g.key)
  {
    GroupByKeys(clean, AreaOf, Importe);
  }

  // ---------------------------------------------------------------------
  // KPI

  /**
   * `kpi_ejecucion = round(gasto / presupuesto * 100, 2)`, as a whole number
   * of hundredths of a percent; `kpi_ejecucion_decimal = round(gasto /
   * presupuesto, 4)` is the same integer read in units of 0.0001. Division by
   * a zero budget gives an infinity of the sign of the spend, or NaN for a
   * zero spend; a missing budget gives NaN.
   */
  datatype Kpi = NaN | PosInf | NegInf | Finite(hundredths: int)

  function KpiOf(spend: int, budget: Option<int>): (k: Kpi)
    ensures k.Finite? <==> budget.Some? && budget.value != 0
    ensures k.Finite? ==> 2 * Abs(spend * 10000 - k.hundredths * budget.value) <= Abs(budget.value)
    ensures k.PosInf? <==> budget == Some(0) && spend > 0
    ensures k.NegInf? <==> budget == Some(0) && spend < 0
  {
    match budget
    case None => NaN
    case Some(b) =>
      if b != 0 then Finite(RoundHalfEven(spend * 10000, b))
      else if spend > 0 then PosInf
      else if spend < 0 then NegInf
      else NaN
  }

  /** The KPI is above t hundredths of a percent (`kpi > t/100`); NaN compares false. */
  predicate KpiAbove(k: Kpi, t: int)
  {
    k.PosInf? || (k.Finite? && k.hundredths > t)
  }

  /** The KPI is at least t hundredths of a percent (`kpi >= t/100`); NaN compares false. */
  predicate KpiAtLeast(k: Kpi, t: int)
  {
    k.PosInf? || (k.Finite? && k.hundredths >= t)
  }

  lemma MulMono(a: int, b: int, c: int)
    requires a <= b && c > 0
    ensures a * c <= b * c
  {
  }

  /**
   * For a positive budget, the rounded KPI reaches t hundredths of a percent
   * when the exact ratio is above t - 1/2 of them, and only when it is at
   * least that.
   */
  lemma KpiAtLeastExact(spend: int, b: int, t: int)
    requires b > 0
    ensures 20000 * spend > (2 * t - 1) * b ==> KpiAtLeast(KpiOf(spend, Some(b)), t)
    ensures KpiAtLeast(KpiOf(spend, Some(b)), t) ==> 20000 * spend >= (2 * t - 1) * b
  {
    var u := KpiOf(spend, Some(b)).hundredths;
    var n, ub, tb := spend * 10000, u * b, t * b;
    assert 2 * Abs(n - ub) <= b;
    assert -b <= 2 * n - 2 * ub <= b;
    assert (2 * t - 1) * b == 2 * tb - b;
    if u >= t {
      MulMono(t, u, b);
      assert tb <= ub;
    } else {
      MulMono(u, t - 1, b);
      assert (t - 1) * b == tb - b;
      assert ub <= tb - b;
    }
  }

  // ---------------------------------------------------------------------
  // Left join with the budgets

  datatype KpiRow = KpiRow(area: string, presupuesto: Option<int>, gasto: int, kpi: Kpi)

  function RowArea(r: KpiRow): string { r.area }

  function MakeRow(area: string, gasto: int, presupuesto: Option<int>): KpiRow
  {
    KpiRow(area, presupuesto, gasto, KpiOf(gasto, presupuesto))
  }

  /** The budget rows of one area. */
  function AreaIs(a: string): Budget -> bool
  {
    (b: Budget) => b.area == a
  }

  /** The joined rows of one area: one per matching budget row, or one with no budget. */
  function JoinArea(g: Group<string>, budgets: seq<Budget>): (r: seq<KpiRow>)
    ensures |r| == if |Keep(budgets, AreaIs(g.key))| == 0 then 1 else |Keep(budgets, AreaIs(g.key))|
    ensures forall row :: row in r ==> row.area == g.key && row.gasto == g.total
  {
    var m := Keep(budgets, AreaIs(g.key));
    if |m| == 0 then [MakeRow(g.key, g.total, None)]
    else seq(|m|, i requires 0 <= i < |m| => MakeRow(g.key, g.total, m[i].presupuesto))
  }

  /** `merge(how='left', on='area')`: the left rows in order, each with its matches. */
  function LeftJoin(gs: seq<Group<string>>, budgets: seq<Budget>): seq<KpiRow>
  {
    if |gs| == 0 then []
    else LeftJoin(gs[..|gs| - 1], budgets) + JoinArea(gs[|gs| - 1], budgets)
  }

  /** `df_oro`. */
  function KpiTable(clean: seq<Expense>, budgets: seq<Budget>): seq<KpiRow>
  {
    LeftJoin(AreaTotals(clean), budgets)
  }

  lemma {:induction false} LeftJoinMember(gs: seq<Group<string>>, budgets: seq<Budget>, row: KpiRow)
    ensures row in LeftJoin(gs, budgets) <==> exists g :: g in gs && row in JoinArea(g, budgets)
  {
    if |gs| > 0 {
      var init, last := gs[..|gs| - 1], gs[|gs| - 1];
      LeftJoinMember(init, budgets, row);
      assert LeftJoin(gs, budgets) == LeftJoin(init, budgets) + JoinArea(last, budgets);
      if row in LeftJoin(gs, budgets) {
        if row !in JoinArea(last, budgets) {
          var g :| g in init && row in JoinArea(g, budgets);
          assert g in gs;
        }
      }
      if exists g :: g in gs && row in JoinArea(g, budgets) {
        var g :| g in gs && row in JoinArea(g, budgets);
        if g != last {
          assert g in init;
        }
      }
    }
  }

  lemma JoinAreaMember(g: Group<string>, budgets: seq<Budget>, row: KpiRow)
    requires row in JoinArea(g, budgets)
    ensures row == MakeRow(g.key, g.total, row.presupuesto)
    ensures (exists b :: b in budgets && b.area == g.key && b.presupuesto == row.presupuesto)
      || (row.presupuesto.None? && forall b :: b in budgets ==> b.area != g.key)
  {
    var m := Keep(budgets, AreaIs(g.key));
    if |m| > 0 {
      var i :| 0 <= i < |m| && JoinArea(g, budgets)[i] == row;
      assert m[i] in budgets && m[i].area == g.key;
    } else {
      forall b | b in budgets
        ensures b.area != g.key
      {
        assert AreaIs(g.key)(b) ==> b in m;
      }
    }
  }

  /**
   * Every joined row belongs to an area with spend and carries that area's
   * accumulated spend, the KPI of that spend against its budget, and a
   * budget that is either a budget row of the area or missing because the
   * area has no budget row.
   */
  lemma KpiRowFacts(clean: seq<Expense>, budgets: seq<Budget>, row: KpiRow)
    requires row in KpiTable(clean, budgets)
    ensures row.area in Map(clean, AreaOf)
    ensures row.gasto == AreaSpend(clean, row.area)
    ensures row.kpi == KpiOf(row.gasto, row.presupuesto)
    ensures (exists b :: b in budgets && b.area == row.area && b.presupuesto == row.presupuesto)
      || (row.presupuesto.None? && forall b :: b in budgets ==> b.area != row.area)
  {
    LeftJoinMember(AreaTotals(clean), budgets, row);
    var g :| g in AreaTotals(clean) && row in JoinArea(g, budgets);
    AreaTotalsFacts(clean);
    MapIn(AreaTotals(clean), GroupKey, g);
    JoinAreaMember(g, budgets, row);
  }

  /** Every area with spend has a row in the KPI table (the join is a left join). */
  lemma KpiCoversAreas(clean: seq<Expense>, budgets: seq<Budget>, a: string)
    requires a in Map(clean, AreaOf)
    ensures exists row :: row in KpiTable(clean, budgets) && row.area == a && row.gasto == AreaSpend(clean, a)
  {
    AreaTotalsFacts(clean);
    var g := MapFrom(AreaTotals(clean), GroupKey, a);
    var row := JoinArea(g, budgets)[0];
    LeftJoinMember(AreaTotals(clean), budgets, row);
  }

  /**
   * An area with spend but no budget row gets exactly one row, with no
   * budget and an undefined KPI.
   */
  lemma NoBudgetRow(clean: seq<Expense>, budgets: seq<Budget>, a: string)
    requires a in Map(clean, AreaOf)
    requires forall b :: b in budgets ==> b.area != a
    ensures Keep(KpiTable(clean, budgets), RowAreaIs(a)) == [KpiRow(a, None, AreaSpend(clean, a), NaN)]
  {
    AreaTotalsFacts(clean);
    var gs := AreaTotals(clean);
    var g := MapFrom(gs, GroupKey, a);
    assert |Keep(budgets, AreaIs(a))| == 0 by {
      if |Keep(budgets, AreaIs(a))| > 0 {
        assert Keep(budgets, AreaIs(a))[0] in Keep(budgets, AreaIs(a));
      }
    }
    KeepAreaOnce(gs, budgets, a, g);
  }

  function RowAreaIs(a: string): KpiRow -> bool
  {
    (r: KpiRow) => r.area == a
  }

  /** The rows of area a in a left join whose left side holds a exactly once, as group g. */
  lemma {:induction false} KeepAreaOnce(gs: seq<Group<string>>, budgets: seq<Budget>, a: string, g: Group<string>)
    requires NoDup(Map(gs, GroupKey)) && g in gs && g.key == a
    ensures Keep(LeftJoin(gs, budgets), RowAreaIs(a)) == JoinArea(g, budgets)
  {
    var n := |gs|;
    var gs' := gs[..n - 1];
    var last := gs[n - 1];
    var j, p := JoinArea(last, budgets), RowAreaIs(a);
    assert LeftJoin(gs, budgets) == LeftJoin(gs', budgets) + j;
    KeepAppend(LeftJoin(gs', budgets), j, p);
    NoDupGroupsInit(gs);
    if last == g {
      forall h | h in gs'
        ensures h.key != a
      {
        var i :| 0 <= i < n - 1 && gs'[i] == h;
        NoDupGroupsLast(gs, i);
      }
      KeepAreaAbsent(gs', budgets, a);
      KeepAll(j, p);
      assert Keep(LeftJoin(gs, budgets), p) == [] + j;
    } else {
      var i :| 0 <= i < n && gs[i] == g;
      assert i < n - 1 && gs'[i] == g;
      KeepAreaOnce(gs', budgets, a, g);
      NoDupGroupsLast(gs, i);
      KeepNone(j, p);
      assert Keep(LeftJoin(gs, budgets), p) == JoinArea(g, budgets) + [];
    }
  }

  lemma NoDupGroupsInit(gs: seq<Group<string>>)
    requires |gs| > 0 && NoDup(Map(gs, GroupKey))
    ensures NoDup(Map(gs[..|gs| - 1], GroupKey))
  {
    assert Map(gs[..|gs| - 1], GroupKey) == Map(gs, GroupKey)[..|gs| - 1];
  }

  lemma NoDupGroupsLast(gs: seq<Group<string>>, i: nat)
    requires i < |gs| - 1 && NoDup(Map(gs, GroupKey))
    ensures gs[i].key != gs[|gs| - 1].key
  {
    assert Map(gs, GroupKey)[i] != Map(gs, GroupKey)[|gs| - 1];
  }

  lemma {:induction false} KeepAreaAbsent(gs: seq<Group<string>>, budgets: seq<Budget>, a: string)
    requires forall h :: h in gs ==> h.key != a
    ensures Keep(LeftJoin(gs, budgets), RowAreaIs(a)) == []
  {
    KeepNone(LeftJoin(gs, budgets), RowAreaIs(a)) by {
      forall row | row in LeftJoin(gs, budgets)
        ensures !RowAreaIs(a)(row)
      {
        LeftJoinMember(gs, budgets, row);
      }
    }
  }

  /** With at most one budget row per area, the KPI table has exactly one row per area with spend. */
  lemma OneRowPerArea(clean: seq<Expense>, budgets: seq<Budget>)
    requires NoDup(Map(budgets, BudgetArea))
    ensures |KpiTable(clean, budgets)| == |AreaTotals(clean)|
    ensures NoDup(Map(KpiTable(clean, budgets), RowArea))
    ensures forall a :: a in Map(KpiTable(clean, budgets), RowArea) <==> a in Map(clean, AreaOf)
  {
    AreaTotalsFacts(clean);
    LeftJoinAreas(AreaTotals(clean), budgets);
  }

  lemma {:induction false} LeftJoinAreas(gs: seq<Group<string>>, budgets: seq<Budget>)
    requires NoDup(Map(budgets, BudgetArea))
    ensures Map(LeftJoin(gs, budgets), RowArea) == Map(gs, GroupKey)
  {
    if |gs| > 0 {
      var g := gs[|gs| - 1];
      var gs' := gs[..|gs| - 1];
      LeftJoinAreas(gs', budgets);
      JoinAreaSingle(g, budgets);
      LeftJoinSnoc(gs, budgets);
      MapAppend(LeftJoin(gs', budgets), JoinArea(g, budgets), RowArea);
      MapSnoc(gs, GroupKey);
    }
  }

  lemma LeftJoinSnoc(gs: seq<Group<string>>, budgets: seq<Budget>)
    requires |gs| > 0
    ensures LeftJoin(gs, budgets) == LeftJoin(gs[..|gs| - 1], budgets) + JoinArea(gs[|gs| - 1], budgets)
  {
  }

  lemma MapSnoc<T, U>(s: seq<T>, f: T -> U)
    requires |s| > 0
    ensures Map(s, f) == Map(s[..|s| - 1], f) + [f(s[|s| - 1])]
  {
  }

  lemma JoinAreaSingle(g: Group<string>, budgets: seq<Budget>)
    requires NoDup(Map(budgets, BudgetArea))
    ensures Map(JoinArea(g, budgets), RowArea) == [g.key]
  {
    AtMostOneBudget(budgets, g.key);
    var j := JoinArea(g, budgets);
    assert |j| == 1;
    assert j[0] in j;
  }

  lemma {:induction false} AtMostOneBudget(budgets: seq<Budget>, a: string)
    requires NoDup(Map(budgets, BudgetArea))
    ensures |Keep(budgets, AreaIs(a))| <= 1
  {
    if |budgets| > 0 {
      var rest := budgets[1..];
      assert Map(rest, BudgetArea) == Map(budgets, BudgetArea)[1..];
      AtMostOneBudget(rest, a);
      if budgets[0].area == a {
        forall b | b in rest
          ensures !AreaIs(a)(b)
        {
          var i :| 0 <= i < |rest| && rest[i] == b;
          assert Map(budgets, BudgetArea)[i + 1] != Map(budgets, BudgetArea)[0];
        }
        KeepNone(rest, AreaIs(a));
      }
    }
  }

  // ---------------------------------------------------------------------
  // Status of the detail view

  datatype Status = OverBudget | AtRisk | NormalUse | LowUse

  /** The labels of the `estado` column. */
  function StatusLabel(s: Status): string
  {
    match s
    case OverBudget => "SOBRE PRESUPUESTO"
    case AtRisk => "EN RIESGO"
    case NormalUse => "NORMAL"
    case LowUse => "BAJO CONSUMO"
  }

  /** Distinct statuses get distinct labels, so the `estado` column determines the status. */
  lemma StatusLabelsDistinct(a: Status, b: Status)
    ensures StatusLabel(a) == StatusLabel(b) <==> a == b
  {
  }

  /**
   * The CASE of `v_ejecucion_detalle`: the first threshold the KPI passes
   * decides, and a NULL KPI passes none.
   */
  function StatusOf(k: Kpi): (s: Status)
    ensures s == OverBudget <==> KpiAbove(k, 10000)
    ensures s == AtRisk <==> KpiAtLeast(k, 9000) && !KpiAbove(k, 10000)
    ensures s == NormalUse <==> KpiAtLeast(k, 7000) && !KpiAtLeast(k, 9000)
    ensures s == LowUse <==> !KpiAtLeast(k, 7000)
  {
    if KpiAbove(k, 10000) then OverBudget
    else if KpiAtLeast(k, 9000) then AtRisk
    else if KpiAtLeast(k, 7000) then NormalUse
    else LowUse
  }

  function Severity(s: Status): nat
  {
    match s
    case LowUse => 0
    case NormalUse => 1
    case AtRisk => 2
    case OverBudget => 3
  }

  /** Numeric order on KPI values that are not NaN. */
  predicate KpiLe(a: Kpi, b: Kpi)
  {
    a.NegInf? || b.PosInf? || (a.Finite? && b.Finite? && a.hundredths <= b.hundredths)
  }

  /** A larger KPI never gets a milder status; a NaN KPI is "BAJO CONSUMO". */
  lemma StatusMonotone(a: Kpi, b: Kpi)
    ensures !a.NaN? && !b.NaN? && KpiLe(a, b) ==> Severity(StatusOf(a)) <= Severity(StatusOf(b))
    ensures StatusOf(NaN) == LowUse
  {
  }

  /**
   * For a positive budget the status follows the exact spend/budget ratio
   * up to the rounding of the KPI to hundredths of a percent: over budget
   * implies spend above budget, a spend above 100.005 % is over budget, a
   * spend of at least 90 % is at risk or over, and so on.
   */
  lemma StatusBands(spend: int, b: int)
    requires b > 0
    ensures var s := StatusOf(KpiOf(spend, Some(b)));
      && (s == OverBudget ==> spend > b)
      && (20000 * spend > 20001 * b ==> s == OverBudget)
      && (100 * spend >= 90 * b ==> s == OverBudget || s == AtRisk)
      && (s == OverBudget || s == AtRisk ==> 20000 * spend >= 17999 * b)
      && (100 * spend >= 70 * b ==> s != LowUse)
      && (s != LowUse ==> 20000 * spend >= 13999 * b)
  {
    KpiAtLeastExact(spend, b, 10001);
    KpiAtLeastExact(spend, b, 9000);
    KpiAtLeastExact(spend, b, 7000);
  }

  // ---------------------------------------------------------------------
  // Ordering by KPI and the detail view

  /**
   * The position of a KPI in `ORDER BY kpi DESC` and in
   * `sort_values(ascending=False)`: +inf first, then the finite values from
   * largest to smallest, then -inf, and NaN (NULL) last.
   */
  function KpiSortKey(k: Kpi): SortKey
  {
    match k
    case PosInf => SortKey(0, 0)
    case Finite(u) => SortKey(1, -u)
    case NegInf => SortKey(2, 0)
    case NaN => SortKey(3, 0)
  }

  function RowSortKey(r: KpiRow): SortKey { KpiSortKey(r.kpi) }

  /** a comes no later than b in descending KPI order with NaN last. */
  predicate KpiGe(a: Kpi, b: Kpi)
  {
    b.NaN? || (!a.NaN? && KpiLe(b, a))
  }

  /** The KPI table in descending KPI order, ties in table order. */
  function SortByKpi(rows: seq<KpiRow>): seq<KpiRow>
  {
    var ix := ArgSort(Map(rows, RowSortKey));
    assert forall p :: 0 <= p < |ix| ==> ix[p] < |rows| by {
      assert InRange(Map(rows, RowSortKey), ix);
    }
    Take(rows, ix)
  }

  /** Sorting by KPI reorders the rows, losing none, into descending KPI order. */
  lemma SortByKpiFacts(rows: seq<KpiRow>)
    ensures multiset(SortByKpi(rows)) == multiset(rows)
    ensures forall p, q :: 0 <= p < q < |SortByKpi(rows)| ==> KpiGe(SortByKpi(rows)[p].kpi, SortByKpi(rows)[q].kpi)
  {
    var keys := Map(rows, RowSortKey);
    SortedRowsPermutation(rows, keys);
    var r := SortByKpi(rows);
    forall p, q | 0 <= p < q < |r|
      ensures KpiGe(r[p].kpi, r[q].kpi)
    {
      ArgSortOrdered(keys, p, q);
    }
  }

  /** A row of `v_ejecucion_detalle`. */
  datatype DetailRow = DetailRow(
    area: string, presupuesto: Option<int>, gasto: int, kpi: Kpi,
    estado: string, restante: Option<int>)

  /** `presupuesto_anual - gasto_acumulado`; NULL when there is no budget. */
  function Remaining(presupuesto: Option<int>, gasto: int): (r: Option<int>)
    ensures r.Some? <==> presupuesto.Some?
    ensures r.Some? ==> r.value + gasto == presupuesto.value
  {
    if presupuesto.Some? then Some(presupuesto.value - gasto) else None
  }

  function Detail(r: KpiRow): DetailRow
  {
    DetailRow(r.area, r.presupuesto, r.gasto, r.kpi, StatusLabel(StatusOf(r.kpi)), Remaining(r.presupuesto, r.gasto))
  }

  /** `SELECT ... FROM kpi_ejecucion ORDER BY kpi_ejecucion DESC`. */
  function DetailView(rows: seq<KpiRow>): seq<DetailRow>
  {
    Map(SortByKpi(rows), Detail)
  }

  /** The detail view lists every KPI row once, most executed first, each with its status. */
  lemma DetailViewFacts(rows: seq<KpiRow>)
    ensures |DetailView(rows)| == |rows|
    ensures forall p, q :: 0 <= p < q < |DetailView(rows)| ==> KpiGe(DetailView(rows)[p].kpi, DetailView(rows)[q].kpi)
    ensures forall d :: d in DetailView(rows) ==> d.estado == StatusLabel(StatusOf(d.kpi))
    ensures forall r :: r in rows ==> Detail(r) in DetailView(rows)
  {
    SortByKpiFacts(rows);
    assert |multiset(SortByKpi(rows))| == |multiset(rows)|;
    forall r | r in rows
      ensures Detail(r) in DetailView(rows)
    {
      assert r in multiset(SortByKpi(rows));
      MapIn(SortByKpi(rows), Detail, r);
    }
  }
}
