/**
 * The rows of the two input tables and the shapes an expense row takes as it
 * moves through the cleaning stages. Every shape keeps the traceability
 * columns, so a row can be followed by its `_event_id` from the raw table to
 * the clean table or to quarantine.
 */
module Records {
  import opened Common

  /** An expense row as read from `gastos.csv`: any of the four cells may be null. */
  datatype RawExpense = RawExpense(
    fecha: Option<string>,
    area: Option<string>,
    partida: Option<string>,
    importe: Option<string>,
    meta: Trace)

  /**
   * An expense row after date and number coercion: a cell that did not parse
   * is null (NaT or NaN).
   */
  datatype Coerced = Coerced(
    fecha: Option<Date>,
    area: string,
    partida: string,
    importe: Option<Decimal>,
    meta: Trace)

  /** An expense row whose date and amount both parsed. */
  datatype Parsed = Parsed(fecha: Date, area: string, partida: string, importe: Decimal, meta: Trace)

  /** A clean expense row: the amount is a whole number of cents (DECIMAL(18,2)). */
  datatype Expense = Expense(fecha: Date, area: string, partida: string, importe: int, meta: Trace)

  /** A budget row as read from `presupuesto.csv`. */
  datatype RawBudget = RawBudget(area: Option<string>, presupuesto: Option<string>, meta: Trace)

  /** A cleaned budget row; an annual budget that did not parse stays null (NaN). */
  datatype Budget = Budget(area: string, presupuesto: Option<int>, meta: Trace)

  function RawId(x: RawExpense): string { x.meta.eventId }
  function CoercedId(x: Coerced): string { x.meta.eventId }
  function ParsedId(x: Parsed): string { x.meta.eventId }
  function ExpenseId(x: Expense): string { x.meta.eventId }
  function RawBudgetId(x: RawBudget): string { x.meta.eventId }
  function BudgetId(x: Budget): string { x.meta.eventId }

  function Importe(e: Expense): int { e.importe }
  function AreaOf(e: Expense): string { e.area }
  function BudgetArea(b: Budget): string { b.area }
}
