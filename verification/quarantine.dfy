/**
 * The quarantine accumulator: a list of rejected batches, each tagged with
 * the reason its rows were rejected and the time they were sent. Stages send
 * their rejects here; an empty reject set sends nothing.
 */
module QuarantineStore {
  import opened Seqs
  import opened Records

  /** A rejected row, in the shape the row had at the stage that rejected it. */
  datatype Held =
    | HeldRaw(raw: RawExpense)
    | HeldCoerced(coerced: Coerced)
    | HeldParsed(parsed: Parsed)
    | HeldBudget(budget: RawBudget)

  function HeldId(h: Held): string
  {
    match h
    case HeldRaw(x) => RawId(x)
    case HeldCoerced(x) => CoercedId(x)
    case HeldParsed(x) => ParsedId(x)
    case HeldBudget(x) => RawBudgetId(x)
  }

  function FromRaw(x: RawExpense): Held { HeldRaw(x) }
  function FromCoerced(x: Coerced): Held { HeldCoerced(x) }
  function FromParsed(x: Parsed): Held { HeldParsed(x) }
  function FromBudget(x: RawBudget): Held { HeldBudget(x) }

  /** One quarantined frame: its rows, `_quarantine_reason` and `_quarantine_ts`. */
  datatype Batch = Batch(rows: seq<Held>, reason: string, quarantineTs: string)

  function BatchRows(b: Batch): seq<Held>
  {
    b.rows
  }

  /**
   * What one call of the router appends: nothing for an empty frame, and no
   * batch that is empty. Either way the rows it adds are the frame itself.
   */
  function BatchIf(rows: seq<Held>, reason: string, now: string): (r: seq<Batch>)
    ensures AllRows(r) == rows
    ensures forall b :: b in r ==> |b.rows| > 0 && b.reason == reason && b.quarantineTs == now
  {
    if |rows| > 0 then
      assert Map([Batch(rows, reason, now)], BatchRows) == [rows];
      assert Flatten([rows]) == Flatten([]) + rows;
      [Batch(rows, reason, now)]
    else
      []
  }

  /** Every quarantined row, batch after batch (`pd.concat(cuarentena)`). */
  function AllRows(bs: seq<Batch>): seq<Held>
  {
    Flatten(Map(bs, BatchRows))
  }

  lemma AllRowsAppend(a: seq<Batch>, b: seq<Batch>)
    ensures AllRows(a + b) == AllRows(a) + AllRows(b)
  {
    MapAppend(a, b, BatchRows);
    FlattenAppend(Map(a, BatchRows), Map(b, BatchRows));
  }

  /**
   * A list of non-empty batches holds at least as many rows as batches, so
   * the list is empty exactly when no row was quarantined (the `if
   * cuarentena:` test before the concatenation).
   */
  lemma {:induction false} NonEmptyBatches(bs: seq<Batch>)
    requires forall b :: b in bs ==> |b.rows| > 0
    ensures |bs| <= |AllRows(bs)|
    ensures |bs| == 0 <==> |AllRows(bs)| == 0
  {
    if |bs| > 0 {
      var init, last := bs[..|bs| - 1], bs[|bs| - 1];
      NonEmptyBatches(init);
      AllRowsAppend(init, [last]);
      assert bs == init + [last];
      assert Map([last], BatchRows) == [last.rows];
      assert Flatten([last.rows]) == Flatten([]) + last.rows;
    }
  }

  /** The module-level list `cuarentena`. */
  class Quarantine {
    var batches: seq<Batch>

    /** No batch in the list is empty. */
    ghost predicate Valid()
      reads this
    {
      forall b :: b in batches ==> |b.rows| > 0
    }

    function Rows(): seq<Held>
      reads this
    {
      AllRows(batches)
    }

    constructor()
      ensures batches == [] && Valid()
    {
      batches := [];
    }

    /**
     * `enviar_a_cuarentena`: tags a non-empty frame with its reason and the
     * current time and appends it; an empty frame changes nothing.
     */
    method Send(rows: seq<Held>, reason: string, now: string)
      requires Valid()
      modifies this
      ensures Valid()
      ensures batches == old(batches) + BatchIf(rows, reason, now)
      ensures Rows() == old(Rows()) + rows
    {
      if |rows| > 0 {
        batches := batches + [Batch(rows, reason, now)];
      }
      AllRowsAppend(old(batches), BatchIf(rows, reason, now));
    }
  }
}
