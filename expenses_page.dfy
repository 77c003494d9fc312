/** The state of the expense page (src/pages/Expenses.tsx) and the handlers
    that change it. Query results (`expenses`, `cards`, `incomes`) are
    parameters; a mutation a handler fires is returned as a `Request`. */
module ExpensesPage {
  import opened Common
  import opened Seqs
  import opened Selection

  /** `getTotalCredito` (src/pages/Expenses.tsx:223-232). A card whose initial
      credit is missing arrives from the query as `null`, which the
      subtraction at line 231 reads as 0. */
  function TotalCredito(selectedCard: string, cards: Option<seq<Card>>, expenses: seq<Transaction>,
                        incomes: Option<seq<Transaction>>): (r: int)
    ensures selectedCard == "all" ==> r == TotalInitialCredit(cards) - SumAmounts(expenses) + TotalOf(incomes)
    ensures selectedCard != "all" && (cards.None? || FindCard(cards.value, selectedCard).None?) ==> r == 0
    ensures selectedCard != "all" && cards.Some? && FindCard(cards.value, selectedCard).Some? ==>
              match FindCard(cards.value, selectedCard).value.credit
              case Some(c) => r == c - SumAmounts(expenses) + TotalOf(incomes)
              case None => r == 0 - SumAmounts(expenses) + TotalOf(incomes)
  {
    if selectedCard == "all" then TotalInitialCredit(cards) - SumAmounts(expenses) + TotalOf(incomes)
    else if cards.None? then 0
    else match FindCard(cards.value, selectedCard)
      case None => 0
      case Some(card) =>
        match card.credit
        case Some(c) => c - SumAmounts(expenses) + TotalOf(incomes)
        case None => 0 - SumAmounts(expenses) + TotalOf(incomes)
  }

  /** An expense added to the list lowers the displayed credit by its amount. */
  lemma AddingLowersCredit(selectedCard: string, cards: Option<seq<Card>>, expenses: seq<Transaction>,
                           incomes: Option<seq<Transaction>>, e: Transaction)
    requires selectedCard == "all" || (cards.Some? && FindCard(cards.value, selectedCard).Some?)
    ensures TotalCredito(selectedCard, cards, [e] + expenses, incomes)
            == TotalCredito(selectedCard, cards, expenses, incomes) - e.amount
  {
    SumAmountsCons(e, expenses);
  }

  /** Removing expenses raises the displayed credit by the amounts removed. */
  lemma RemovingRaisesCredit(selectedCard: string, cards: Option<seq<Card>>, expenses: seq<Transaction>,
                             incomes: Option<seq<Transaction>>, keep: Transaction -> bool, drop: Transaction -> bool)
    requires forall i :: 0 <= i < |expenses| ==> drop(expenses[i]) == !keep(expenses[i])
    requires selectedCard == "all" || (cards.Some? && FindCard(cards.value, selectedCard).Some?)
    ensures TotalCredito(selectedCard, cards, Filter(expenses, keep), incomes)
            == TotalCredito(selectedCard, cards, expenses, incomes) + SumAmounts(Filter(expenses, drop))
  {
    SumAmountsFilterSplit(expenses, keep, drop);
  }

  /** The walk-through of the expense page: a card starting at 500 with one
      expense of 20 shows 480, and 405 once an expense of 75 is added; a card
      with a `null` initial credit shows -20 after the same expense of 20. */
  lemma CreditWalkThrough(e20: Transaction, e75: Transaction)
    requires e20.amount == 20 && e75.amount == 75
    ensures TotalCredito("c1", Some([Card("c1", "Visa", Some(500), "")]), [e20], None) == 480
    ensures TotalCredito("c1", Some([Card("c1", "Visa", Some(500), "")]), [e75, e20], None) == 405
    ensures TotalCredito("c1", Some([Card("c1", "Visa", None, "")]), [e20], None) == -20
  {
    SumAmountsCons(e20, []);
    SumAmountsCons(e75, [e20]);
    assert [e75] + [e20] == [e75, e20];
    assert [e20] + [] == [e20];
  }

  function WithoutId(id: Option<string>): Transaction -> bool {
    (e: Transaction) => e.id != id
  }

  function NotSelected(ids: seq<string>): Transaction -> bool {
    (e: Transaction) => IdOrEmpty(e) !in ids
  }

  /** `expenses.map(e => e.id).filter(id => typeof id === 'string')`: the ids
      that are present, an empty one included, in list order. */
  function DefinedIds(es: seq<Transaction>): (ids: seq<string>)
    ensures |ids| <= |es|
    ensures forall k :: k in ids <==> exists i :: 0 <= i < |es| && es[i].id == Some(k)
  {
    if es == [] then []
    else
      var rest := DefinedIds(es[1..]);
      assert forall i :: 0 < i < |es| ==> es[i] == es[1..][i - 1];
      match es[0].id
      case Some(k) => [k] + rest
      case None => rest
  }

  function HasId(): Transaction -> bool {
    (e: Transaction) => e.id.Some?
  }

  /** The ids come in list order, one for each expense that has one. */
  lemma {:induction false} DefinedIdsInOrder(es: seq<Transaction>)
    ensures |DefinedIds(es)| == |Filter(es, HasId())|
    ensures forall i :: 0 <= i < |DefinedIds(es)| ==> Filter(es, HasId())[i].id == Some(DefinedIds(es)[i])
  {
    if es != [] {
      DefinedIdsInOrder(es[1..]);
      assert es == [es[0]] + es[1..];
      if es[0].id.Some? {
        FilterConsKept(es[0], es[1..], HasId());
      } else {
        FilterConsDropped(es[0], es[1..], HasId());
      }
    }
  }

  /** Deleting the selection removes exactly the selected expenses and keeps
      the others in their order. */
  lemma DeleteSelectedKeepsOthers(es: seq<Transaction>, ids: seq<string>)
    ensures forall e :: e in Filter(es, NotSelected(ids)) ==> IdOrEmpty(e) !in ids
    ensures forall i :: 0 <= i < |es| && IdOrEmpty(es[i]) !in ids ==> es[i] in Filter(es, NotSelected(ids))
    ensures IsSubsequence(Filter(es, NotSelected(ids)), es)
  {
    FilterIsSubsequence(es, NotSelected(ids));
  }

  class ExpensesPage {
    var allExpenses: seq<Transaction>
    var selectedCard: string
    var description: string
    var amount: string
    var date: string
    var category: string
    var selectedIds: seq<string>
    var expandedRow: Option<string>
    var credito: string
    var startDate: string

    /** The initial state (src/pages/Expenses.tsx:113-119, 146, 322-323). */
    constructor ()
      ensures allExpenses == [] && selectedCard == "all" && selectedIds == [] && expandedRow.None?
      ensures description == "" && amount == "" && date == "" && category == ""
      ensures credito == "" && startDate == ""
    {
      allExpenses := [];
      selectedCard := "all";
      description := "";
      amount := "";
      date := "";
      category := "";
      selectedIds := [];
      expandedRow := None;
      credito := "";
      startDate := "";
    }

    /** The effects that copy the query result into the local list
        (src/pages/Expenses.tsx:139-143, 150-152); no data gives the empty list. */
    method OnExpensesLoaded(data: Option<seq<Transaction>>)
      modifies this
      ensures allExpenses == data.GetOr([])
      ensures selectedCard == old(selectedCard) && selectedIds == old(selectedIds) && expandedRow == old(expandedRow)
      ensures description == old(description) && amount == old(amount) && date == old(date) && category == old(category)
      ensures credito == old(credito) && startDate == old(startDate)
    {
      allExpenses := data.GetOr([]);
    }

    /** `onCardChange` (src/pages/Expenses.tsx:235-249). */
    method OnCardChange(value: string)
      modifies this
      ensures selectedCard == value && selectedIds == [] && expandedRow.None?
      ensures description == "" && amount == "" && category == "" && date == ""
      ensures credito == "" && startDate == ""
      ensures allExpenses == old(allExpenses)
    {
      selectedCard := value;
      selectedIds := [];
      expandedRow := None;
      description := "";
      amount := "";
      category := "";
      date := "";
      credito := "";
      startDate := "";
    }

    /** `handleExpandRow` (src/pages/Expenses.tsx:147-149): clicking the
        expanded row collapses it, any other row becomes the expanded one. */
    method HandleExpandRow(expenseId: string)
      modifies this
      ensures old(expandedRow) == Some(expenseId) ==> expandedRow.None?
      ensures old(expandedRow) != Some(expenseId) ==> expandedRow == Some(expenseId)
      ensures allExpenses == old(allExpenses) && selectedIds == old(selectedIds) && selectedCard == old(selectedCard)
      ensures description == old(description) && amount == old(amount) && date == old(date) && category == old(category)
      ensures credito == old(credito) && startDate == old(startDate)
    {
      expandedRow := if expandedRow == Some(expenseId) then None else Some(expenseId);
    }

    /** `handleDeleteExpense` (src/pages/Expenses.tsx:252-255): every expense
        with that id leaves the list (with no id given, every expense without
        one does), and the deletion is requested. */
    method HandleDeleteExpense(id: Option<string>) returns (req: Request)
      modifies this
      ensures allExpenses == Filter(old(allExpenses), WithoutId(id))
      ensures forall e :: e in allExpenses ==> e.id != id
      ensures IsSubsequence(allExpenses, old(allExpenses))
      ensures req == DeleteExpense(id)
      ensures selectedIds == old(selectedIds) && selectedCard == old(selectedCard) && expandedRow == old(expandedRow)
      ensures description == old(description) && amount == old(amount) && date == old(date) && category == old(category)
      ensures credito == old(credito) && startDate == old(startDate)
    {
      FilterIsSubsequence(allExpenses, WithoutId(id));
      allExpenses := Filter(allExpenses, WithoutId(id));
      req := DeleteExpense(id);
    }

    /** The new expense `handleAddExpense` builds; `parseAmount` stands for
        `Number.parseFloat`. */
    function NewExpense(parseAmount: string -> int): Transaction
      reads this
    {
      Transaction(None, description, parseAmount(amount), Some(selectedCard), date, Some(category))
    }

    /** The add form is complete and a single card is selected. */
    predicate CanAddExpense()
      reads this
    {
      description != "" && amount != "" && date != "" && category != "" && selectedCard != "all"
    }

    /** `handleAddExpense` (src/pages/Expenses.tsx:258-277). */
    method HandleAddExpense(parseAmount: string -> int) returns (req: Option<Request>)
      modifies this
      ensures !old(CanAddExpense()) ==> req.None? && allExpenses == old(allExpenses)
                                         && description == old(description) && amount == old(amount)
                                         && date == old(date) && category == old(category)
      ensures old(CanAddExpense()) ==>
                && allExpenses == [old(NewExpense(parseAmount))] + old(allExpenses)
                && old(NewExpense(parseAmount)).cardId == Some(selectedCard)
                && req == Some(AddExpense(old(NewExpense(parseAmount))))
                && description == "" && amount == "" && date == "" && category == ""
      ensures selectedIds == old(selectedIds) && selectedCard == old(selectedCard) && expandedRow == old(expandedRow)
      ensures credito == old(credito) && startDate == old(startDate)
    {
      if description == "" || amount == "" || date == "" || category == "" || selectedCard == "all" {
        return None;
      }
      var newExpense := Transaction(None, description, parseAmount(amount), Some(selectedCard), date, Some(category));
      allExpenses := [newExpense] + allExpenses;
      req := Some(AddExpense(newExpense));
      description := "";
      amount := "";
      date := "";
      category := "";
    }

    /** `handleSelect` (src/pages/Expenses.tsx:279-283). */
    method HandleSelect(id: string)
      modifies this
      ensures selectedIds == Toggle(old(selectedIds), id)
      ensures allExpenses == old(allExpenses) && selectedCard == old(selectedCard) && expandedRow == old(expandedRow)
      ensures description == old(description) && amount == old(amount) && date == old(date) && category == old(category)
      ensures credito == old(credito) && startDate == old(startDate)
    {
      if id in selectedIds {
        selectedIds := RemoveAll(selectedIds, id);
      } else {
        selectedIds := selectedIds + [id];
      }
    }

    /** `handleSelectAll` (src/pages/Expenses.tsx:285-296): ticking selects
        the present ids of the fetched list, unticking clears the selection. */
    method HandleSelectAll(checked: bool, fetched: Option<seq<Transaction>>)
      modifies this
      ensures checked && fetched.Some? ==> selectedIds == DefinedIds(fetched.value)
      ensures !checked || fetched.None? ==> selectedIds == []
      ensures allExpenses == old(allExpenses) && selectedCard == old(selectedCard) && expandedRow == old(expandedRow)
      ensures description == old(description) && amount == old(amount) && date == old(date) && category == old(category)
      ensures credito == old(credito) && startDate == old(startDate)
    {
      if checked {
        selectedIds := if fetched.Some? then DefinedIds(fetched.value) else [];
      } else {
        selectedIds := [];
      }
    }

    /** `handleDeleteSelected` (src/pages/Expenses.tsx:298-309). */
    method HandleDeleteSelected() returns (req: Option<Request>)
      modifies this
      ensures old(selectedIds) == [] ==> req.None? && allExpenses == old(allExpenses) && selectedIds == []
      ensures old(selectedIds) != [] ==>
                && allExpenses == Filter(old(allExpenses), NotSelected(old(selectedIds)))
                && req == Some(DeleteExpenses(old(selectedIds)))
                && selectedIds == []
      ensures selectedCard == old(selectedCard) && expandedRow == old(expandedRow)
      ensures description == old(description) && amount == old(amount) && date == old(date) && category == old(category)
      ensures credito == old(credito) && startDate == old(startDate)
    {
      var idsToDelete := selectedIds;
      if |idsToDelete| == 0 {
        return None;
      }
      allExpenses := Filter(allExpenses, NotSelected(idsToDelete));
      req := Some(DeleteExpenses(idsToDelete));
      selectedIds := [];
    }
  }
}
