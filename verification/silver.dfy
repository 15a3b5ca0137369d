/**
 * The cleaning and validation stages of the silver layer. Each stage is a
 * boolean mask: the rows it selects go to quarantine under the stage's
 * reason, the others continue to the next stage.
 */
module Silver {
  import opened Common
  import opened Seqs
  import opened Text
  import opened Records
  import opened Deduplication
  import opened QuarantineStore

  const REASON_NULLS := "Campos obligatorios nulos"
  const REASON_TYPES := "Error en conversion de tipos"
  const REASON_RANGE := "Importe negativo o cero"
  const REASON_AREA := "Area no reconocida"
  const REASON_BUDGET_NULLS := "Campos obligatorios nulos en presupuesto"

  /**
   * The cell parsers of `pd.to_datetime(errors='coerce')` and
   * `pd.to_numeric(errors='coerce')`: a cell that does not parse gives None.
   */
  datatype Parsers = Parsers(date: string -> Option<Date>, number: string -> Option<Decimal>)

  /** The value of a cell known to be present (rows with null cells never get here). */
  function CellOr(c: Option<string>): string
  {
    if c.Some? then c.value else ""
  }

  // ---------------------------------------------------------------------
  // Expense stages

  /** Stage 1 mask: one of `fecha`, `area`, `partida`, `importe` is null. */
  predicate HasNull(x: RawExpense)
  {
    x.fecha.None? || x.area.None? || x.partida.None? || x.importe.None?
  }

  /** Stage 2: date and number coercion of a row without nulls. */
  function Coerce(ps: Parsers, x: RawExpense): Coerced
  {
    Coerced(
      if x.fecha.Some? then ps.date(x.fecha.value) else None,
      CellOr(x.area),
      CellOr(x.partida),
      if x.importe.Some? then ps.number(x.importe.value) else None,
      x.meta)
  }

  /** Stage 2 mask: the date or the amount did not parse. */
  predicate ConversionFailed(c: Coerced)
  {
    c.fecha.None? || c.importe.None?
  }

  /** A coerced row whose date and amount both parsed. */
  function ToParsed(c: Coerced): Parsed
  {
    Parsed(
      if c.fecha.Some? then c.fecha.value else Date(0, 0, 0),
      c.area,
      c.partida,
      if c.importe.Some? then c.importe.value else Decimal(0, 0),
      c.meta)
  }

  /**
   * Stage 3 mask as written: the amount as parsed is zero or negative. It
   * runs before the rounding of stage 6.
   */
  predicate NonPositiveAsWritten(p: Parsed)
  {
    p.importe.units <= 0
  }

  /** Stage 3 mask, corrected: the amount as it will be stored (rounded to cents) is zero or negative. */
  predicate NonPositive(p: Parsed)
  {
    Cents(p.importe) <= 0
  }

  /** Stage 4: area dictionary replacement and title-casing. */
  function NormalizeArea(p: Parsed): Parsed
  {
    p.(area := Normalize(AREA_MAP, p.area))
  }

  /** Stage 4 mask, on the normalised area: not one of the canonical areas. */
  predicate UnknownArea(p: Parsed)
  {
    p.area !in VALID_AREAS
  }

  /** Stages 5 and 6: partida normalisation and rounding of the amount to cents. */
  function Finish(p: Parsed): Expense
  {
    Expense(p.fecha, p.area, Normalize(PARTIDA_MAP, p.partida), Cents(p.importe), p.meta)
  }

  /**
   * Stage 2 over a whole frame: coercion replaces cells and drops no row,
   * so each row keeps its place and its event id.
   */
  function CoerceAll(ps: Parsers, s: seq<RawExpense>): (r: seq<Coerced>)
    ensures Map(r, CoercedId) == Map(s, RawId)
    ensures forall i :: 0 <= i < |s| ==> r[i] == Coerce(ps, s[i])
  {
    Map(s, x => Coerce(ps, x))
  }

  /**
   * The working frame after each stage (`df_gastos` as it is reassigned)
   * and the rejects each stage sends to quarantine.
   */
  datatype ExpenseStages = ExpenseStages(
    nulls: seq<RawExpense>, present: seq<RawExpense>,
    coerced: seq<Coerced>, badTypes: seq<Coerced>, parsed: seq<Parsed>,
    nonPositive: seq<Parsed>, normalized: seq<Parsed>,
    badArea: seq<Parsed>, valid: seq<Expense>,
    clean: seq<Expense>)

  /** The expense cleaning, stages 1 to 7, with the stage 3 mask `range`. */
  function StagesWith(ps: Parsers, raw: seq<RawExpense>, range: Parsed -> bool): ExpenseStages
  {
    var present := Keep(raw, Not(HasNull));
    var coerced := CoerceAll(ps, present);
    var parsed := Map(Keep(coerced, Not(ConversionFailed)), ToParsed);
    var normalized := Map(Keep(parsed, Not(range)), NormalizeArea);
    var valid := Map(Keep(normalized, Not(UnknownArea)), Finish);
    ExpenseStages(
      Keep(raw, HasNull), present,
      coerced, Keep(coerced, ConversionFailed), parsed,
      Keep(parsed, range), normalized,
      Keep(normalized, UnknownArea), valid,
      Dedup(valid))
  }

  /** The expense cleaning with the corrected range check. */
  function ExpenseStagesOf(ps: Parsers, raw: seq<RawExpense>): ExpenseStages
  {
    StagesWith(ps, raw, NonPositive)
  }

  /** The quarantine batches the expense stages send, in stage order; `clock(k)` is the time of stage k. */
  function ExpenseBatches(st: ExpenseStages, clock: nat -> string): seq<Batch>
  {
    BatchIf(Map(st.nulls, FromRaw), REASON_NULLS, clock(1))
    + BatchIf(Map(st.badTypes, FromCoerced), REASON_TYPES, clock(2))
    + BatchIf(Map(st.nonPositive, FromParsed), REASON_RANGE, clock(3))
    + BatchIf(Map(st.badArea, FromParsed), REASON_AREA, clock(4))
  }

  // ---------------------------------------------------------------------
  // Budget stage

  /** The budget null mask: `area` or `presupuesto_anual` is null. */
  predicate BudgetHasNull(x: RawBudget)
  {
    x.area.None? || x.presupuesto.None?
  }

  /** Number coercion rounded to cents, then area normalisation; no further rejection. */
  function CleanBudget(ps: Parsers, x: RawBudget): Budget
  {
    var n := if x.presupuesto.Some? then ps.number(x.presupuesto.value) else None;
    Budget(
      Normalize(AREA_MAP, CellOr(x.area)),
      if n.Some? then Some(Cents(n.value)) else None,
      x.meta)
  }

  function BudgetRejects(raw: seq<RawBudget>): seq<RawBudget>
  {
    Keep(raw, BudgetHasNull)
  }

  function CleanBudgets(ps: Parsers, raw: seq<RawBudget>): seq<Budget>
  {
    Map(Keep(raw, Not(BudgetHasNull)), x => CleanBudget(ps, x))
  }

  function BudgetBatches(raw: seq<RawBudget>, clock: nat -> string): seq<Batch>
  {
    BatchIf(Map(BudgetRejects(raw), FromBudget), REASON_BUDGET_NULLS, clock(5))
  }

  // ---------------------------------------------------------------------
  // Where each expense row ends up

  /** A raw row that passes every check of stages 1 to 4 under the range mask `range`. */
  predicate Passes(ps: Parsers, range: Parsed -> bool, x: RawExpense)
  {
    var p := ToParsed(Coerce(ps, x));
    !HasNull(x) && !ConversionFailed(Coerce(ps, x)) && !range(p) && !UnknownArea(NormalizeArea(p))
  }

  /** The clean row a passing raw row becomes. */
  function Cleaned(ps: Parsers, x: RawExpense): Expense
  {
    Finish(NormalizeArea(ToParsed(Coerce(ps, x))))
  }

  /**
   * Each raw row is rejected by the first check it fails, and lands in that
   * stage's quarantine frame in the shape it had there; a row that fails no
   * check reaches the valid frame.
   */
  lemma RowFate(ps: Parsers, raw: seq<RawExpense>, range: Parsed -> bool, x: RawExpense)
    requires x in raw
    ensures var st := StagesWith(ps, raw, range);
      var c := Coerce(ps, x);
      var p := ToParsed(c);
      (HasNull(x) ==> x in st.nulls)
      && (!HasNull(x) && ConversionFailed(c) ==> c in st.badTypes)
      && (!HasNull(x) && !ConversionFailed(c) && range(p) ==> p in st.nonPositive)
      && ((!HasNull(x) && !ConversionFailed(c) && !range(p) && UnknownArea(NormalizeArea(p)))
            ==> NormalizeArea(p) in st.badArea)
      && (Passes(ps, range, x) ==> Cleaned(ps, x) in st.valid)
  {
    var st := StagesWith(ps, raw, range);
    var c := Coerce(ps, x);
    var p := ToParsed(c);
    if !HasNull(x) {
      assert x in st.present;
      var i :| 0 <= i < |st.present| && st.present[i] == x;
      assert st.coerced[i] == c;
      if !ConversionFailed(c) {
        MapIn(Keep(st.coerced, Not(ConversionFailed)), ToParsed, c);
        if !range(p) {
          MapIn(Keep(st.parsed, Not(range)), NormalizeArea, p);
          if !UnknownArea(NormalizeArea(p)) {
            MapIn(Keep(st.normalized, Not(UnknownArea)), Finish, NormalizeArea(p));
          }
        }
      }
    }
  }

  /** The valid frame holds exactly the cleaned forms of the raw rows that pass every check. */
  lemma ValidRows(ps: Parsers, raw: seq<RawExpense>, range: Parsed -> bool, e: Expense)
    ensures e in StagesWith(ps, raw, range).valid <==>
      exists x :: x in raw && Passes(ps, range, x) && e == Cleaned(ps, x)
  {
    var st := StagesWith(ps, raw, range);
    if e in st.valid {
      var x := ValidOrigin(ps, raw, range, e);
    } else {
      forall x | x in raw && Passes(ps, range, x)
        ensures e != Cleaned(ps, x)
      {
        RowFate(ps, raw, range, x);
      }
    }
  }

  /** The raw row a valid row comes from. */
  lemma ValidOrigin(ps: Parsers, raw: seq<RawExpense>, range: Parsed -> bool, e: Expense) returns (x: RawExpense)
    requires e in StagesWith(ps, raw, range).valid
    ensures x in raw && Passes(ps, range, x) && e == Cleaned(ps, x)
  {
    var st := StagesWith(ps, raw, range);
    var n := MapFrom(Keep(st.normalized, Not(UnknownArea)), Finish, e);
    assert n in st.normalized && !UnknownArea(n);
    var p := MapFrom(Keep(st.parsed, Not(range)), NormalizeArea, n);
    assert p in st.parsed && !range(p);
    var c := MapFrom(Keep(st.coerced, Not(ConversionFailed)), ToParsed, p);
    assert c in st.coerced && !ConversionFailed(c);
    x := CoercedOrigin(ps, raw, c);
  }

  /** The raw row a coerced row comes from. */
  lemma CoercedOrigin(ps: Parsers, raw: seq<RawExpense>, c: Coerced) returns (x: RawExpense)
    requires c in CoerceAll(ps, Keep(raw, Not(HasNull)))
    ensures x in raw && !HasNull(x) && c == Coerce(ps, x)
  {
    var present := Keep(raw, Not(HasNull));
    var i :| 0 <= i < |present| && CoerceAll(ps, present)[i] == c;
    x := present[i];
    assert x in present;
  }

  /**
   * Under any range check, every row of the clean table has a canonical
   * area and an already normalised partida.
   */
  lemma CleanRowShape(ps: Parsers, raw: seq<RawExpense>, range: Parsed -> bool, e: Expense)
    requires e in StagesWith(ps, raw, range).clean
    ensures e.area in VALID_AREAS
    ensures Normalize(PARTIDA_MAP, e.partida) == e.partida
  {
    ValidRows(ps, raw, range, e);
    var x :| x in raw && Passes(ps, range, x) && e == Cleaned(ps, x);
    PartidaMapTitleFree();
    NormalizeIdempotent(PARTIDA_MAP, ToParsed(Coerce(ps, x)).partida);
  }

  /**
   * With the corrected range check, every row of the clean table has a
   * positive amount, a canonical area and an already normalised partida.
   */
  lemma CleanRowInvariants(ps: Parsers, raw: seq<RawExpense>, e: Expense)
    requires e in ExpenseStagesOf(ps, raw).clean
    ensures e.importe > 0
    ensures e.area in VALID_AREAS
    ensures Normalize(PARTIDA_MAP, e.partida) == e.partida
  {
    ValidRows(ps, raw, NonPositive, e);
    CleanRowShape(ps, raw, NonPositive, e);
  }

  /**
   * With the range check as written, a clean row's amount is only known to
   * be non-negative: a positive amount below half a cent is stored as 0.
   */
  lemma AsWrittenCleanAmount(ps: Parsers, raw: seq<RawExpense>, e: Expense)
    requires e in StagesWith(ps, raw, NonPositiveAsWritten).clean
    ensures e.importe >= 0
  {
    ValidRows(ps, raw, NonPositiveAsWritten, e);
    var x :| x in raw && Passes(ps, NonPositiveAsWritten, x) && e == Cleaned(ps, x);
    CentsNonNegative(ToParsed(Coerce(ps, x)).importe);
  }

  // ---------------------------------------------------------------------
  // Nothing is lost

  /** Each stage removes from the working frame exactly the rows it rejects. */
  lemma ExpenseNoLoss(ps: Parsers, raw: seq<RawExpense>, range: Parsed -> bool)
    ensures var st := StagesWith(ps, raw, range);
      multiset(Map(raw, RawId)) ==
        multiset(Map(st.nulls, RawId)) + multiset(Map(st.badTypes, CoercedId))
        + multiset(Map(st.nonPositive, ParsedId)) + multiset(Map(st.badArea, ParsedId))
        + multiset(Map(st.valid, ExpenseId))
  {
    var st := StagesWith(ps, raw, range);
    var n, b, r, a := multiset(Map(st.nulls, RawId)), multiset(Map(st.badTypes, CoercedId)),
      multiset(Map(st.nonPositive, ParsedId)), multiset(Map(st.badArea, ParsedId));
    KeepSplit(raw, HasNull, RawId);
    assert Map(st.coerced, CoercedId) == Map(st.present, RawId);
    assert multiset(Map(raw, RawId)) == n + multiset(Map(st.coerced, CoercedId));
    KeepSplitMap(st.coerced, ConversionFailed, ToParsed, CoercedId, ParsedId);
    assert multiset(Map(st.coerced, CoercedId)) == b + multiset(Map(st.parsed, ParsedId));
    KeepSplitMap(st.parsed, range, NormalizeArea, ParsedId, ParsedId);
    assert multiset(Map(st.parsed, ParsedId)) == r + multiset(Map(st.normalized, ParsedId));
    KeepSplitMap(st.normalized, UnknownArea, Finish, ParsedId, ExpenseId);
    assert multiset(Map(st.normalized, ParsedId)) == a + multiset(Map(st.valid, ExpenseId));
  }

  /** The quarantined rows of the expense stages, in the order they were sent. */
  lemma ExpenseQuarantineRows(st: ExpenseStages, clock: nat -> string)
    ensures AllRows(ExpenseBatches(st, clock)) ==
      Map(st.nulls, FromRaw) + Map(st.badTypes, FromCoerced)
      + Map(st.nonPositive, FromParsed) + Map(st.badArea, FromParsed)
  {
    var b1 := BatchIf(Map(st.nulls, FromRaw), REASON_NULLS, clock(1));
    var b2 := BatchIf(Map(st.badTypes, FromCoerced), REASON_TYPES, clock(2));
    var b3 := BatchIf(Map(st.nonPositive, FromParsed), REASON_RANGE, clock(3));
    var b4 := BatchIf(Map(st.badArea, FromParsed), REASON_AREA, clock(4));
    AllRowsAppend(b1, b2);
    AllRowsAppend(b1 + b2, b3);
    AllRowsAppend(b1 + b2 + b3, b4);
  }

  /** The event ids of the quarantined expense rows, stage by stage. */
  lemma ExpenseQuarantineIds(st: ExpenseStages, clock: nat -> string)
    ensures Map(AllRows(ExpenseBatches(st, clock)), HeldId) ==
      Map(st.nulls, RawId) + Map(st.badTypes, CoercedId)
      + Map(st.nonPositive, ParsedId) + Map(st.badArea, ParsedId)
  {
    ExpenseQuarantineRows(st, clock);
    var a, b, c, d := Map(st.nulls, FromRaw), Map(st.badTypes, FromCoerced), Map(st.nonPositive, FromParsed), Map(st.badArea, FromParsed);
    MapAppend(a + b + c, d, HeldId);
    MapAppend(a + b, c, HeldId);
    MapAppend(a, b, HeldId);
    MapCompose(st.nulls, FromRaw, HeldId, RawId);
    MapCompose(st.badTypes, FromCoerced, HeldId, CoercedId);
    MapCompose(st.nonPositive, FromParsed, HeldId, ParsedId);
    MapCompose(st.badArea, FromParsed, HeldId, ParsedId);
  }

  /**
   * Every raw expense row is either quarantined or valid: the event ids of
   * the raw table are those of the quarantine plus those of the valid
   * frame, so the raw count is the quarantined count plus the clean count
   * plus the duplicates removed.
   */
  lemma ExpenseAccounting(ps: Parsers, raw: seq<RawExpense>, range: Parsed -> bool, clock: nat -> string)
    ensures var st := StagesWith(ps, raw, range);
      var q := AllRows(ExpenseBatches(st, clock));
      && multiset(Map(raw, RawId)) == multiset(Map(q, HeldId)) + multiset(Map(st.valid, ExpenseId))
      && |st.clean| <= |st.valid|
      && |raw| == |q| + |st.clean| + (|st.valid| - |st.clean|)
  {
    var st := StagesWith(ps, raw, range);
    var q := AllRows(ExpenseBatches(st, clock));
    ExpenseNoLoss(ps, raw, range);
    ExpenseQuarantineIds(st, clock);
    assert multiset(Map(raw, RawId)) == multiset(Map(q, HeldId)) + multiset(Map(st.valid, ExpenseId));
    assert |multiset(Map(raw, RawId))| == |multiset(Map(q, HeldId))| + |multiset(Map(st.valid, ExpenseId))|;
  }

  /**
   * With distinct event ids in the raw table, no row is quarantined twice
   * and no quarantined row is also valid: the batches and the valid frame
   * are pairwise disjoint.
   */
  lemma QuarantineDisjoint(ps: Parsers, raw: seq<RawExpense>, range: Parsed -> bool, clock: nat -> string)
    requires NoDup(Map(raw, RawId))
    ensures var st := StagesWith(ps, raw, range);
      NoDup(Map(AllRows(ExpenseBatches(st, clock)), HeldId) + Map(st.valid, ExpenseId))
  {
    var st := StagesWith(ps, raw, range);
    ExpenseAccounting(ps, raw, range, clock);
    NoDupPermutation(Map(raw, RawId), Map(AllRows(ExpenseBatches(st, clock)), HeldId) + Map(st.valid, ExpenseId));
  }

  /**
   * A raw row with a null mandatory cell is quarantined as
   * "Campos obligatorios nulos" and, event ids being distinct, its id is in
   * no later frame and not in the clean table.
   */
  lemma NullRowQuarantined(ps: Parsers, raw: seq<RawExpense>, range: Parsed -> bool, clock: nat -> string, x: RawExpense)
    requires NoDup(Map(raw, RawId))
    requires x in raw && HasNull(x)
    ensures var st := StagesWith(ps, raw, range);
      && (exists b :: b in ExpenseBatches(st, clock) && b.reason == REASON_NULLS && FromRaw(x) in b.rows)
      && RawId(x) !in Map(st.valid, ExpenseId)
      && RawId(x) !in Map(st.clean, ExpenseId)
  {
    var st := StagesWith(ps, raw, range);
    RowFate(ps, raw, range, x);
    MapIn(st.nulls, FromRaw, x);
    assert Batch(Map(st.nulls, FromRaw), REASON_NULLS, clock(1)) in ExpenseBatches(st, clock);
    QuarantineDisjoint(ps, raw, range, clock);
    ExpenseQuarantineIds(st, clock);
    MapIn(st.nulls, RawId, x);
    var v := Map(st.valid, ExpenseId);
    NoDupSplit(Map(AllRows(ExpenseBatches(st, clock)), HeldId), v, RawId(x));
    if RawId(x) in Map(st.clean, ExpenseId) {
      var e := MapFrom(st.clean, ExpenseId, RawId(x));
      MapIn(st.valid, ExpenseId, e);
    }
  }

  /** A present row whose date or amount fails to parse is quarantined as "Error en conversion de tipos". */
  lemma ConversionFailureQuarantined(ps: Parsers, raw: seq<RawExpense>, range: Parsed -> bool, clock: nat -> string, x: RawExpense)
    requires x in raw && !HasNull(x)
    requires ps.date(x.fecha.value).None? || ps.number(x.importe.value).None?
    ensures var st := StagesWith(ps, raw, range);
      exists b :: b in ExpenseBatches(st, clock) && b.reason == REASON_TYPES && FromCoerced(Coerce(ps, x)) in b.rows
  {
    var st := StagesWith(ps, raw, range);
    RowFate(ps, raw, range, x);
    MapIn(st.badTypes, FromCoerced, Coerce(ps, x));
    assert Batch(Map(st.badTypes, FromCoerced), REASON_TYPES, clock(2)) in ExpenseBatches(st, clock);
  }

  /**
   * A parsed row that the range mask selects is quarantined as "Importe
   * negativo o cero"; a parsed row that survives the range check but has an
   * area outside the canonical set is quarantined as "Area no reconocida",
   * carrying its normalised area. This holds for the check as written
   * (`NonPositiveAsWritten`) and for the corrected one (`NonPositive`).
   */
  lemma RangeAndAreaQuarantined(ps: Parsers, raw: seq<RawExpense>, range: Parsed -> bool, clock: nat -> string, x: RawExpense)
    requires x in raw && !HasNull(x) && !ConversionFailed(Coerce(ps, x))
    ensures var st := StagesWith(ps, raw, range);
      var p := ToParsed(Coerce(ps, x));
      && (range(p) ==>
            exists b :: b in ExpenseBatches(st, clock) && b.reason == REASON_RANGE && FromParsed(p) in b.rows)
      && (!range(p) && Normalize(AREA_MAP, p.area) !in VALID_AREAS ==>
            exists b :: b in ExpenseBatches(st, clock) && b.reason == REASON_AREA && FromParsed(NormalizeArea(p)) in b.rows)
  {
    var st := StagesWith(ps, raw, range);
    var p := ToParsed(Coerce(ps, x));
    RowFate(ps, raw, range, x);
    if range(p) {
      MapIn(st.nonPositive, FromParsed, p);
      assert Batch(Map(st.nonPositive, FromParsed), REASON_RANGE, clock(3)) in ExpenseBatches(st, clock);
    } else if Normalize(AREA_MAP, p.area) !in VALID_AREAS {
      MapIn(st.badArea, FromParsed, NormalizeArea(p));
      assert Batch(Map(st.badArea, FromParsed), REASON_AREA, clock(4)) in ExpenseBatches(st, clock);
    }
  }

  // ---------------------------------------------------------------------
  // The range check and rounding

  /** The corrected range check rejects every amount the original check rejects. */
  lemma RangeCheckStricter(p: Parsed)
    ensures NonPositiveAsWritten(p) ==> NonPositive(p)
  {
    CentsSign(p.importe);
  }

  /**
   * The original range check, run before rounding, lets "0.004" through:
   * the row reaches the valid frame with an amount of 0.00, while the
   * corrected check quarantines it.
   */
  lemma AsWrittenAdmitsZeroAmount()
    ensures var ps := Parsers(s => Some(Date(2024, 3, 1)), s => Some(Decimal(4, 3)));
      var x := RawExpense(Some("2024-03-01"), Some("Ventas"), Some("Salarios"), Some("0.004"),
                          Trace(0, "gastos.csv", "b1", "e1"));
      && Cleaned(ps, x) in StagesWith(ps, [x], NonPositiveAsWritten).valid
      && Cleaned(ps, x).importe == 0
      && ToParsed(Coerce(ps, x)) in ExpenseStagesOf(ps, [x]).nonPositive
  {
    var ps := Parsers(s => Some(Date(2024, 3, 1)), s => Some(Decimal(4, 3)));
    var x := RawExpense(Some("2024-03-01"), Some("Ventas"), Some("Salarios"), Some("0.004"),
                        Trace(0, "gastos.csv", "b1", "e1"));
    assert Cents(Decimal(4, 3)) == 0;
    CanonicalAreasFixed("Ventas");
    RowFate(ps, [x], NonPositiveAsWritten, x);
    RowFate(ps, [x], NonPositive, x);
  }

  // ---------------------------------------------------------------------
  // Budgets

  /** Every raw budget row is either quarantined or cleaned, never both, never neither. */
  lemma BudgetAccounting(ps: Parsers, raw: seq<RawBudget>, clock: nat -> string)
    ensures multiset(Map(raw, RawBudgetId)) ==
      multiset(Map(AllRows(BudgetBatches(raw, clock)), HeldId)) + multiset(Map(CleanBudgets(ps, raw), BudgetId))
  {
    KeepSplit(raw, BudgetHasNull, RawBudgetId);
    MapCompose(BudgetRejects(raw), FromBudget, HeldId, RawBudgetId);
    assert Map(CleanBudgets(ps, raw), BudgetId) == Map(Keep(raw, Not(BudgetHasNull)), RawBudgetId);
  }

  /**
   * A budget row with a null area or amount is quarantined as
   * "Campos obligatorios nulos en presupuesto"; any other row is kept,
   * cleaned, whatever its area and whether or not its amount parses.
   */
  lemma BudgetRowFate(ps: Parsers, raw: seq<RawBudget>, clock: nat -> string, x: RawBudget)
    requires x in raw
    ensures BudgetHasNull(x) ==>
      exists b :: b in BudgetBatches(raw, clock) && b.reason == REASON_BUDGET_NULLS && FromBudget(x) in b.rows
    ensures !BudgetHasNull(x) ==> CleanBudget(ps, x) in CleanBudgets(ps, raw)
  {
    if BudgetHasNull(x) {
      MapIn(BudgetRejects(raw), FromBudget, x);
      assert Batch(Map(BudgetRejects(raw), FromBudget), REASON_BUDGET_NULLS, clock(5)) in BudgetBatches(raw, clock);
    } else {
      var k := Keep(raw, Not(BudgetHasNull));
      var i :| 0 <= i < |k| && k[i] == x;
      assert CleanBudgets(ps, raw)[i] == CleanBudget(ps, x);
    }
  }

  /** Cleaned budget areas are already normalised: normalising again changes nothing. */
  lemma BudgetAreasNormalized(ps: Parsers, raw: seq<RawBudget>, b: Budget)
    requires b in CleanBudgets(ps, raw)
    ensures Normalize(AREA_MAP, b.area) == b.area
  {
    var k := Keep(raw, Not(BudgetHasNull));
    var i :| 0 <= i < |k| && CleanBudgets(ps, raw)[i] == b;
    AreaMapTitleFree();
    NormalizeIdempotent(AREA_MAP, CellOr(k[i].area));
  }
}
