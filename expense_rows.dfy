/** The table rows of the expense page (src/pages/Expenses.tsx,
    `buildExpenseRows`): one row per expense, in list order, with a divider
    in front of every row whose calendar day differs from the previous row's.
    The day of an expense (`getDayKey`) is a parameter of the model. */
module ExpenseRows {
  import opened Common
  import opened RunningBalance

  /** Everything a row reads besides its expense. */
  datatype RowContext = RowContext(
    selectedCard: string,
    expandedRow: Option<string>,
    selectedIds: seq<string>,
    cards: Option<seq<Card>>,
    sums: map<string, int>)

  datatype Row =
    | Divider(colSpan: int)
    | ExpenseRow(expense: Transaction, expanded: bool, selected: bool, creditDeltaAfter: Option<int>)

  /** `selectedCard === 'all' ? 7 : 6`: the card column only shows for all cards. */
  function ColSpan(selectedCard: string): (n: int)
    ensures n == 7 <==> selectedCard == "all"
    ensures n == 6 <==> selectedCard != "all"
  {
    if selectedCard == "all" then 7 else 6
  }

  /** The row of one expense (src/pages/Expenses.tsx:93-107). */
  function RowFor(e: Transaction, ctx: RowContext): (r: Row)
    ensures r.ExpenseRow? && r.expense == e
    ensures r.expanded <==> e.id.Some? && e.id == ctx.expandedRow
    ensures r.selected <==> IdOrEmpty(e) in ctx.selectedIds
    ensures r.creditDeltaAfter == CreditDeltaAfter(e, ctx.selectedCard, ctx.cards, ctx.sums)
  {
    ExpenseRow(e, e.id.Some? && e.id == ctx.expandedRow, IdOrEmpty(e) in ctx.selectedIds,
               CreditDeltaAfter(e, ctx.selectedCard, ctx.cards, ctx.sums))
  }

  /** Whether the day changes between expense `i - 1` and expense `i`. */
  predicate DayChangesAt(es: seq<Transaction>, dayKey: string -> string, i: nat)
    requires 0 < i < |es|
  {
    dayKey(es[i].date) != dayKey(es[i - 1].date)
  }

  /** The number of day changes along the list. */
  function DayChanges(es: seq<Transaction>, dayKey: string -> string): nat {
    if |es| <= 1 then 0
    else DayChanges(es[..|es| - 1], dayKey) + (if DayChangesAt(es, dayKey, |es| - 1) then 1 else 0)
  }

  /** The rows built for `es`. */
  function Rows(es: seq<Transaction>, ctx: RowContext, dayKey: string -> string): seq<Row> {
    if es == [] then []
    else
      var n := |es| - 1;
      Rows(es[..n], ctx, dayKey)
      + (if n > 0 && DayChangesAt(es, dayKey, n) then [Divider(ColSpan(ctx.selectedCard))] else [])
      + [RowFor(es[n], ctx)]
  }

  /** `buildExpenseRows` (src/pages/Expenses.tsx:48-110). */
  method BuildExpenseRows(es: seq<Transaction>, ctx: RowContext, dayKey: string -> string) returns (nodes: seq<Row>)
    ensures nodes == Rows(es, ctx, dayKey)
  {
    nodes := [];
    var lastDayKey: Option<string> := None;
    for i := 0 to |es|
      invariant nodes == Rows(es[..i], ctx, dayKey)
      invariant i == 0 ==> lastDayKey.None?
      invariant i > 0 ==> lastDayKey == Some(dayKey(es[i - 1].date))
    {
      assert es[..i + 1][..i] == es[..i];
      var currentKey := dayKey(es[i].date);
      var showDivider := lastDayKey.Some? && currentKey != lastDayKey.value;
      lastDayKey := Some(currentKey);
      if showDivider {
        nodes := nodes + [Divider(ColSpan(ctx.selectedCard))];
      }
      nodes := nodes + [RowFor(es[i], ctx)];
    }
    assert es[..|es|] == es;
  }

  /** There are as many rows as expenses plus day changes. */
  lemma {:induction false} RowsLength(es: seq<Transaction>, ctx: RowContext, dayKey: string -> string)
    ensures |Rows(es, ctx, dayKey)| == |es| + DayChanges(es, dayKey)
  {
    if es != [] {
      var n := |es| - 1;
      RowsLength(es[..n], ctx, dayKey);
      if n > 0 {
        assert es[..n][..n - 1] == es[..n - 1];
      }
    }
  }

  /** Building the rows of a longer list only appends. */
  lemma {:induction false} RowsPrefix(es: seq<Transaction>, ctx: RowContext, dayKey: string -> string, j: nat)
    requires j <= |es|
    ensures Rows(es[..j], ctx, dayKey) <= Rows(es, ctx, dayKey)
    decreases |es| - j
  {
    if j < |es| {
      var n := |es| - 1;
      assert es[..n][..j] == es[..j];
      RowsPrefix(es[..n], ctx, dayKey, j);
      var whole := Rows(es, ctx, dayKey);
      var init := Rows(es[..n], ctx, dayKey);
      assert init <= whole;
      var part := Rows(es[..j], ctx, dayKey);
      assert part <= init;
      assert forall k :: 0 <= k < |part| ==> part[k] == init[k] == whole[k];
    } else {
      assert es[..j] == es;
    }
  }

  /** Where expense `i` lands: after `i` earlier expense rows and the
      dividers of the day changes up to it. */
  function Pos(es: seq<Transaction>, dayKey: string -> string, i: nat): nat
    requires i < |es|
  {
    i + DayChanges(es[..i + 1], dayKey)
  }

  /** Expense `i` is at `Pos(i)`, and a divider sits right before it exactly
      when its day differs from the previous expense's. */
  lemma RowAt(es: seq<Transaction>, ctx: RowContext, dayKey: string -> string, i: nat)
    requires i < |es|
    ensures Pos(es, dayKey, i) < |Rows(es, ctx, dayKey)|
    ensures Rows(es, ctx, dayKey)[Pos(es, dayKey, i)] == RowFor(es[i], ctx)
    ensures i > 0 ==> (Rows(es, ctx, dayKey)[Pos(es, dayKey, i) - 1].Divider? <==> DayChangesAt(es, dayKey, i))
  {
    var pre := es[..i + 1];
    RowsLength(pre, ctx, dayKey);
    RowsPrefix(es, ctx, dayKey, i + 1);
    assert pre[..i] == es[..i];
    if i > 0 {
      assert pre[..i][..i - 1] == es[..i - 1];
      assert pre[i - 1] == es[i - 1];
      var before := Rows(es[..i], ctx, dayKey);
      RowsLength(es[..i], ctx, dayKey);
      assert before[|before| - 1] == RowFor(es[i - 1], ctx);
    }
  }

  /** The first row is never a divider. */
  lemma FirstRowIsExpense(es: seq<Transaction>, ctx: RowContext, dayKey: string -> string)
    requires es != []
    ensures Rows(es, ctx, dayKey)[0] == RowFor(es[0], ctx)
  {
    RowAt(es, ctx, dayKey, 0);
  }

  /** The expenses shown, in row order. */
  function ExpensesOf(rows: seq<Row>): seq<Transaction> {
    if rows == [] then []
    else ExpensesOf(rows[..|rows| - 1]) + (if rows[|rows| - 1].ExpenseRow? then [rows[|rows| - 1].expense] else [])
  }

  lemma {:induction false} ExpensesOfAppend(a: seq<Row>, b: seq<Row>)
    ensures ExpensesOf(a + b) == ExpensesOf(a) + ExpensesOf(b)
    decreases |b|
  {
    if b == [] {
      assert a + b == a;
    } else {
      assert (a + b)[..|a + b| - 1] == a + b[..|b| - 1];
      ExpensesOfAppend(a, b[..|b| - 1]);
    }
  }

  /** The expense rows show the list exactly, in its order. */
  lemma {:induction false} RowsKeepOrder(es: seq<Transaction>, ctx: RowContext, dayKey: string -> string)
    ensures ExpensesOf(Rows(es, ctx, dayKey)) == es
  {
    if es != [] {
      var n := |es| - 1;
      RowsKeepOrder(es[..n], ctx, dayKey);
      RowsStepShows(es, ctx, dayKey);
      assert es[..n] + [es[n]] == es;
    }
  }

  /** The rows added for the last expense show exactly that expense. */
  lemma RowsStepShows(es: seq<Transaction>, ctx: RowContext, dayKey: string -> string)
    requires es != []
    ensures ExpensesOf(Rows(es, ctx, dayKey)) == ExpensesOf(Rows(es[..|es| - 1], ctx, dayKey)) + [es[|es| - 1]]
  {
    var n := |es| - 1;
    var init := Rows(es[..n], ctx, dayKey);
    var div: seq<Row> := if n > 0 && DayChangesAt(es, dayKey, n) then [Divider(ColSpan(ctx.selectedCard))] else [];
    assert Rows(es, ctx, dayKey) == init + div + [RowFor(es[n], ctx)];
    ExpensesOfAppend(init, div);
    ExpensesOfAppend(init + div, [RowFor(es[n], ctx)]);
    DividersShowNothing(div);
    OneRowShows(RowFor(es[n], ctx));
  }

  lemma DividersShowNothing(div: seq<Row>)
    requires |div| <= 1 && forall k :: 0 <= k < |div| ==> div[k].Divider?
    ensures ExpensesOf(div) == []
  {
    if div != [] {
      assert div[..0] == [];
    }
  }

  lemma OneRowShows(r: Row)
    requires r.ExpenseRow?
    ensures ExpensesOf([r]) == [r.expense]
  {
    assert [r][..0] == [];
  }
}
