/**
 * One batch run of the finance ETL, in the order the script runs it: the
 * expense cleaning reassigns the working frame stage by stage and sends each
 * stage's rejects to the quarantine list, then the budget cleaning, the
 * gold tables and the report. Reading the CSV files, writing Parquet and
 * SQLite, and the wall clock are outside the model; `clock(k)` stands for
 * the time at the k-th quarantine call.
 */
module Pipeline {
  import opened Common
  import opened Seqs
  import opened Records
  import opened Deduplication
  import opened QuarantineStore
  import opened Silver
  import opened Groups
  import opened Gold
  import opened Report

  /**
   * The expense cleaning, stages 1 to 7: each stage routes its rejects to
   * `q` and keeps the rest; the last stage deduplicates. Returns the clean
   * frame and the number of duplicates removed. Stage 3 uses the range mask
   * `range`: the script's own check is `NonPositiveAsWritten`, the
   * corrected one `NonPositive`.
   */
  method CleanExpenses(ps: Parsers, range: Parsed -> bool, raw: seq<RawExpense>, q: Quarantine, clock: nat -> string)
    returns (clean: seq<Expense>, duplicates: int)
    requires q.Valid()
    modifies q
    ensures q.Valid()
    ensures clean == StagesWith(ps, raw, range).clean
    ensures duplicates == |StagesWith(ps, raw, range).valid| - |clean| >= 0
    ensures q.batches == old(q.batches) + ExpenseBatches(StagesWith(ps, raw, range), clock)
  {
    ghost var st := StagesWith(ps, raw, range);
    ghost var b0 := q.batches;
    // 1. Mandatory fields.
    var nulls := Keep(raw, HasNull);
    q.Send(Map(nulls, FromRaw), REASON_NULLS, clock(1));
    var present := Keep(raw, Not(HasNull));
    assert nulls == st.nulls && present == st.present;

    // 2. Type coercion.
    var coerced := CoerceAll(ps, present);
    var badTypes := Keep(coerced, ConversionFailed);
    q.Send(Map(badTypes, FromCoerced), REASON_TYPES, clock(2));
    var parsed := Map(Keep(coerced, Not(ConversionFailed)), ToParsed);
    assert badTypes == st.badTypes && parsed == st.parsed;

    // 3. Amount range.
    var nonPositive := Keep(parsed, range);
    q.Send(Map(nonPositive, FromParsed), REASON_RANGE, clock(3));

    // 4. Area normalisation and closed-set check.
    var normalized := Map(Keep(parsed, Not(range)), NormalizeArea);
    var badArea := Keep(normalized, UnknownArea);
    assert nonPositive == st.nonPositive && badArea == st.badArea;
    q.Send(Map(badArea, FromParsed), REASON_AREA, clock(4));

    // 5, 6. Budget-line normalisation and rounding.
    var valid := Map(Keep(normalized, Not(UnknownArea)), Finish);
    assert valid == st.valid;

    ghost var b1 := BatchIf(Map(st.nulls, FromRaw), REASON_NULLS, clock(1));
    ghost var b2 := BatchIf(Map(st.badTypes, FromCoerced), REASON_TYPES, clock(2));
    ghost var b3 := BatchIf(Map(st.nonPositive, FromParsed), REASON_RANGE, clock(3));
    ghost var b4 := BatchIf(Map(st.badArea, FromParsed), REASON_AREA, clock(4));
    assert q.batches == b0 + b1 + b2 + b3 + b4;
    assert ExpenseBatches(st, clock) == b1 + b2 + b3 + b4;
    AppendAssoc(b0, b1, b2, b3, b4);

    // 7. Deduplication.
    var before := |valid|;
    clean := Dedup(valid);
    duplicates := before - |clean|;
  }

  /** The budget cleaning: rows with a null field are quarantined, the rest coerced and normalised. */
  method CleanBudgetTable(ps: Parsers, raw: seq<RawBudget>, q: Quarantine, clock: nat -> string)
    returns (budgets: seq<Budget>)
    requires q.Valid()
    modifies q
    ensures q.Valid()
    ensures budgets == CleanBudgets(ps, raw)
    ensures q.batches == old(q.batches) + BudgetBatches(raw, clock)
  {
    var rejects := Keep(raw, BudgetHasNull);
    q.Send(Map(rejects, FromBudget), REASON_BUDGET_NULLS, clock(5));
    budgets := Map(Keep(raw, Not(BudgetHasNull)), x => CleanBudget(ps, x));
  }

  /**
   * A whole batch: silver, gold and the report, with the stage 3 range mask
   * `range`. The quarantine list starts empty and ends with the expense
   * batches followed by the budget batch; every raw row's event id ends in
   * the quarantine list or in a cleaned frame.
   */
  method RunBatch(
    ps: Parsers, range: Parsed -> bool, rawExpenses: seq<RawExpense>, rawBudgets: seq<RawBudget>,
    clock: nat -> string, info: RunInfo)
    returns (q: Quarantine, clean: seq<Expense>, duplicates: int, budgets: seq<Budget>,
             oro: seq<KpiRow>, monthly: seq<Group<MonthArea>>, report: Option<Document>)
    ensures fresh(q) && q.Valid()
    ensures q.batches == ExpenseBatches(StagesWith(ps, rawExpenses, range), clock) + BudgetBatches(rawBudgets, clock)
    ensures clean == StagesWith(ps, rawExpenses, range).clean
    ensures duplicates == |StagesWith(ps, rawExpenses, range).valid| - |clean| >= 0
    ensures budgets == CleanBudgets(ps, rawBudgets)
    ensures oro == KpiTable(clean, budgets)
    ensures monthly == MonthlyTrend(clean)
    ensures report == ReportOf(info, clean, oro, monthly, |q.Rows()|, |rawExpenses|, |rawBudgets|, duplicates)
    ensures multiset(Map(rawExpenses, RawId)) + multiset(Map(rawBudgets, RawBudgetId)) ==
      multiset(Map(q.Rows(), HeldId)) + multiset(Map(StagesWith(ps, rawExpenses, range).valid, ExpenseId))
      + multiset(Map(budgets, BudgetId))
    ensures |rawExpenses| + |rawBudgets| == |q.Rows()| + |StagesWith(ps, rawExpenses, range).valid| + |budgets|
  {
    q := new Quarantine();
    clean, duplicates := CleanExpenses(ps, range, rawExpenses, q, clock);
    budgets := CleanBudgetTable(ps, rawBudgets, q, clock);
    assert q.batches == ExpenseBatches(StagesWith(ps, rawExpenses, range), clock) + BudgetBatches(rawBudgets, clock) by {
      assert [] + ExpenseBatches(StagesWith(ps, rawExpenses, range), clock) == ExpenseBatches(StagesWith(ps, rawExpenses, range), clock);
    }
    var quarantined := |q.Rows()|;
    RunAccounting(ps, range, rawExpenses, rawBudgets, clock);

    oro := KpiTable(clean, budgets);
    monthly := MonthlyTrend(clean);

    report := Render(info, clean, oro, monthly, quarantined, |rawExpenses|, |rawBudgets|, duplicates);
  }

  /**
   * Row accounting of a batch: the event ids of both raw files are those of
   * the quarantine list plus those of the valid expense frame (before
   * deduplication) plus those of the cleaned budgets, so every raw row ends
   * in exactly one of them, and the counts add up.
   */
  lemma RunAccounting(ps: Parsers, range: Parsed -> bool, rawExpenses: seq<RawExpense>, rawBudgets: seq<RawBudget>, clock: nat -> string)
    ensures var st := StagesWith(ps, rawExpenses, range);
      var held := AllRows(ExpenseBatches(st, clock) + BudgetBatches(rawBudgets, clock));
      && multiset(Map(rawExpenses, RawId)) + multiset(Map(rawBudgets, RawBudgetId)) ==
           multiset(Map(held, HeldId)) + multiset(Map(st.valid, ExpenseId)) + multiset(Map(CleanBudgets(ps, rawBudgets), BudgetId))
      && |rawExpenses| + |rawBudgets| == |held| + |st.valid| + |CleanBudgets(ps, rawBudgets)|
  {
    var st := StagesWith(ps, rawExpenses, range);
    var eb, bb := ExpenseBatches(st, clock), BudgetBatches(rawBudgets, clock);
    var held := AllRows(eb + bb);
    ExpenseAccounting(ps, rawExpenses, range, clock);
    BudgetAccounting(ps, rawBudgets, clock);
    AllRowsAppend(eb, bb);
    MapAppend(AllRows(eb), AllRows(bb), HeldId);
    var e, b := multiset(Map(AllRows(eb), HeldId)), multiset(Map(AllRows(bb), HeldId));
    var v, c := multiset(Map(st.valid, ExpenseId)), multiset(Map(CleanBudgets(ps, rawBudgets), BudgetId));
    assert multiset(Map(held, HeldId)) == e + b;
    calc {
      multiset(Map(rawExpenses, RawId)) + multiset(Map(rawBudgets, RawBudgetId));
      (e + v) + (b + c);
      (e + b) + v + c;
      multiset(Map(held, HeldId)) + v + c;
    }
    assert |multiset(Map(rawExpenses, RawId)) + multiset(Map(rawBudgets, RawBudgetId))| == |rawExpenses| + |rawBudgets|;
    assert |multiset(Map(held, HeldId)) + v + c| == |held| + |st.valid| + |CleanBudgets(ps, rawBudgets)|;
  }

  lemma AppendAssoc<T>(a: seq<T>, b: seq<T>, c: seq<T>, d: seq<T>, e: seq<T>)
    ensures a + b + c + d + e == a + (b + c + d + e)
  {
  }
}
