/** The state of the income page (src/pages/Incomes.tsx) and the handlers
    that change it. The fetched incomes are a parameter; a mutation a
    handler fires is returned as a `Request`. */
module IncomesPage {
  import opened Common
  import opened Seqs
  import opened Selection

  /** The row filter of `getDisplayedIncomes`: every income for `'all'`,
      otherwise the incomes of the selected card. */
  function OnCard(selectedCard: string): Transaction -> bool {
    (e: Transaction) => selectedCard == "all" || e.cardId == Some(selectedCard)
  }

  function OffCard(selectedCard: string): Transaction -> bool {
    (e: Transaction) => !(selectedCard == "all" || e.cardId == Some(selectedCard))
  }

  /** `getDisplayedIncomes` (src/pages/Incomes.tsx:129-134): no data shows
      nothing; otherwise the incomes of the selected card, in their order. */
  function DisplayedIncomes(selectedCard: string, data: Option<seq<Transaction>>): (r: seq<Transaction>)
    ensures data.None? ==> r == []
    ensures data.Some? ==> IsSubsequence(r, data.value)
    ensures forall e :: e in r ==> selectedCard == "all" || e.cardId == Some(selectedCard)
    ensures data.Some? ==>
              forall i :: 0 <= i < |data.value| && (selectedCard == "all" || data.value[i].cardId == Some(selectedCard)) ==>
                data.value[i] in r
  {
    match data
    case None => []
    case Some(ts) =>
      FilterIsSubsequence(ts, OnCard(selectedCard));
      Filter(ts, OnCard(selectedCard))
  }

  /** With `'all'` selected the page shows the fetched list unchanged. */
  lemma AllShowsEverything(ts: seq<Transaction>)
    ensures DisplayedIncomes("all", Some(ts)) == ts
  {
    FilterAll(ts, OnCard("all"));
  }

  /** An income of the selected card is shown as many times as it was
      fetched, any other income not at all. */
  lemma DisplayedExactly(selectedCard: string, ts: seq<Transaction>, e: Transaction)
    ensures multiset(DisplayedIncomes(selectedCard, Some(ts)))[e]
            == if selectedCard == "all" || e.cardId == Some(selectedCard) then multiset(ts)[e] else 0
  {
    FilterMultiplicity(ts, OnCard(selectedCard), e);
  }

  /** `getTotalIncomes` (src/pages/Incomes.tsx:125-127) is `TotalOf` of the
      fetched list: it counts the incomes the card filter hides as well as
      the ones it shows. */
  lemma TotalCountsHidden(selectedCard: string, ts: seq<Transaction>)
    ensures TotalOf(Some(ts))
            == SumAmounts(DisplayedIncomes(selectedCard, Some(ts))) + SumAmounts(Filter(ts, OffCard(selectedCard)))
  {
    SumAmountsFilterSplit(ts, OnCard(selectedCard), OffCard(selectedCard));
  }

  /** `incomes.map(income => income.id!)`: the ids as they are, a missing
      one included. */
  function IdsOf(es: seq<Transaction>): (r: seq<Option<string>>)
    ensures |r| == |es|
    ensures forall i :: 0 <= i < |es| ==> r[i] == es[i].id
  {
    if es == [] then [] else [es[0].id] + IdsOf(es[1..])
  }

  /** A row's checkbox: `selectedIds.includes(income.id ?? '')`. */
  predicate RowChecked(selectedIds: seq<Option<string>>, e: Transaction) {
    Some(IdOrEmpty(e)) in selectedIds
  }

  /** The header checkbox (src/pages/Incomes.tsx:304): as many ids selected
      as incomes fetched, and at least one. */
  predicate HeaderChecked(selectedIds: seq<Option<string>>, data: Option<seq<Transaction>>) {
    |data.GetOr([])| > 0 && |selectedIds| == |data.GetOr([])|
  }

  /** After "select all" every shown income that has an id is ticked. */
  lemma SelectAllTicksShownRows(selectedCard: string, data: Option<seq<Transaction>>, e: Transaction)
    requires e.id.Some?
    ensures e in DisplayedIncomes(selectedCard, data) ==> RowChecked(IdsOf(DisplayedIncomes(selectedCard, data)), e)
  {
    var shown := DisplayedIncomes(selectedCard, data);
    var ids := IdsOf(shown);
    if e in shown {
      var i :| 0 <= i < |shown| && shown[i] == e;
      assert ids[i] == Some(IdOrEmpty(e));
    }
  }

  /** After "select all", when ids are distinct, no income of another card
      is ticked. */
  lemma SelectAllLeavesOtherCards(selectedCard: string, data: Option<seq<Transaction>>, e: Transaction)
    requires e.id.Some? && NoDup(IdsOf(data.GetOr([])))
    ensures data.Some? && e in data.value && !OnCard(selectedCard)(e) ==> !RowChecked(IdsOf(DisplayedIncomes(selectedCard, data)), e)
  {
    var shown := DisplayedIncomes(selectedCard, data);
    var ids := IdsOf(shown);
    if data.Some? && e in data.value && !OnCard(selectedCard)(e) && RowChecked(ids, e) {
      var j :| 0 <= j < |ids| && ids[j] == Some(IdOrEmpty(e));
      IdsOfDistinct(data.value, selectedCard, shown[j], e);
      assert false;
    }
  }

  /** In a list whose ids are distinct, an income that shares its id with a
      shown income is that income. */
  lemma IdsOfDistinct(ts: seq<Transaction>, selectedCard: string, shown: Transaction, e: Transaction)
    requires NoDup(IdsOf(ts)) && e in ts && shown in DisplayedIncomes(selectedCard, Some(ts))
    requires e.id.Some? && shown.id == e.id
    ensures OnCard(selectedCard)(e)
  {
    var a :| 0 <= a < |ts| && ts[a] == e;
    var b :| 0 <= b < |ts| && ts[b] == shown;
    assert IdsOf(ts)[a] == IdsOf(ts)[b];
    assert a == b;
  }

  /** With `'all'` selected, "select all" on a non-empty list ticks the
      header checkbox. */
  lemma SelectAllTicksHeader(ts: seq<Transaction>)
    requires ts != []
    ensures HeaderChecked(IdsOf(DisplayedIncomes("all", Some(ts))), Some(ts))
  {
    AllShowsEverything(ts);
  }

  class IncomesPage {
    var selectedCard: string
    var description: string
    var amount: string
    var category: string
    var date: string
    var selectedIds: seq<Option<string>>

    /** The initial state (src/pages/Incomes.tsx:43, 54-58). */
    constructor ()
      ensures selectedCard == "all" && selectedIds == []
      ensures description == "" && amount == "" && category == "" && date == ""
    {
      selectedCard := "all";
      description := "";
      amount := "";
      category := "";
      date := "";
      selectedIds := [];
    }

    /** `handleCardChange` (src/pages/Incomes.tsx:70-73). */
    method HandleCardChange(value: string)
      modifies this
      ensures selectedCard == value && selectedIds == []
      ensures description == old(description) && amount == old(amount) && category == old(category) && date == old(date)
    {
      selectedCard := value;
      selectedIds := [];
    }

    /** `handleSelect` (src/pages/Incomes.tsx:75-83). */
    method HandleSelect(id: string)
      modifies this
      ensures selectedIds == Toggle(old(selectedIds), Some(id))
      ensures selectedCard == old(selectedCard)
      ensures description == old(description) && amount == old(amount) && category == old(category) && date == old(date)
    {
      if Some(id) in selectedIds {
        selectedIds := RemoveAll(selectedIds, Some(id));
      } else {
        selectedIds := selectedIds + [Some(id)];
      }
    }

    /** `handleSelectAll` (src/pages/Incomes.tsx:85-92): ticking selects the
        ids of the shown incomes in the order shown, unticking clears. */
    method HandleSelectAll(checked: bool, data: Option<seq<Transaction>>)
      modifies this
      ensures checked ==> selectedIds == IdsOf(DisplayedIncomes(selectedCard, data))
      ensures !checked ==> selectedIds == []
      ensures selectedCard == old(selectedCard)
      ensures description == old(description) && amount == old(amount) && category == old(category) && date == old(date)
    {
      if checked {
        var allIds := IdsOf(DisplayedIncomes(selectedCard, data));
        selectedIds := allIds;
      } else {
        selectedIds := [];
      }
    }

    /** The add form is complete. */
    predicate CanAddIncome()
      reads this
    {
      description != "" && amount != "" && category != "" && date != ""
    }

    /** The income `handleAddIncome` sends; `parseAmount` stands for `Number`. */
    function NewIncome(parseAmount: string -> int): (t: Transaction)
      reads this
      ensures t.cardId.None? <==> selectedCard == "all"
      ensures t.cardId.Some? ==> t.cardId.value == selectedCard
      ensures t.id.None? && t.description == description && t.date == date && t.category == Some(category)
    {
      Transaction(None, description, parseAmount(amount), if selectedCard == "all" then None else Some(selectedCard),
                  date, Some(category))
    }

    /** `handleAddIncome` (src/pages/Incomes.tsx:94-112): an incomplete form
        does nothing; otherwise the income is sent, the list is refetched and
        the form is cleared. */
    method HandleAddIncome(parseAmount: string -> int) returns (reqs: seq<Request>)
      modifies this
      ensures !old(CanAddIncome()) ==> reqs == [] && description == old(description) && amount == old(amount)
                                        && category == old(category) && date == old(date)
      ensures old(CanAddIncome()) ==> reqs == [AddIncome(old(NewIncome(parseAmount))), RefetchIncomes]
                                       && description == "" && amount == "" && category == "" && date == ""
      ensures selectedCard == old(selectedCard) && selectedIds == old(selectedIds)
    {
      if description == "" || amount == "" || category == "" || date == "" {
        return [];
      }
      reqs := [AddIncome(NewIncome(parseAmount)), RefetchIncomes];
      description := "";
      amount := "";
      category := "";
      date := "";
    }

    /** `handleDeleteSelected` (src/pages/Incomes.tsx:119-123): the selected
        ids are sent for deletion, the selection is cleared and the list is
        refetched. */
    method HandleDeleteSelected() returns (reqs: seq<Request>)
      modifies this
      ensures reqs == [DeleteIncomes(old(selectedIds)), RefetchIncomes] && selectedIds == []
      ensures selectedCard == old(selectedCard)
      ensures description == old(description) && amount == old(amount) && category == old(category) && date == old(date)
    {
      reqs := [DeleteIncomes(selectedIds), RefetchIncomes];
      selectedIds := [];
    }
  }
}
