/** The records the pages receive from the GraphQL layer, the requests they
    send back, and the sums over them that more than one page computes.
    Amounts and credits are whole numbers of cents. */
module Common {
  import opened Seqs

  datatype Option<T> = None | Some(value: T) {
    /** `x ?? default` */
    function GetOr(default: T): T {
      match this
      case Some(v) => v
      case None => default
    }
  }

  /** A payment card. `credit` is `credito_iniziale`; the pages guard
      against it being absent (`typeof … === 'number'`, `|| 0`). */
  datatype Card = Card(id: string, name: string, credit: Option<int>, startDate: string)

  /** An expense or an income: both pages use the same shape. The server
      assigns `id`; a row added on the client has none until refetched. */
  datatype Transaction = Transaction(
    id: Option<string>,
    description: string,
    amount: int,
    cardId: Option<string>,
    date: string,
    category: Option<string>)

  /** A product line attached to an expense, as the add-product form sends it. */
  datatype ProductInput = ProductInput(name: string, quantity: int, price: int)

  /** The GraphQL operations a handler fires. The network round trip itself
      is not modelled: a handler returns the request it issues. */
  datatype Request =
    | DeleteExpense(id: Option<string>)
    | DeleteExpenses(ids: seq<string>)
    | AddExpense(expense: Transaction)
    | AddIncome(income: Transaction)
    | DeleteIncomes(incomeIds: seq<Option<string>>)
    | AddExpenseProduct(expenseId: Option<string>, product: ProductInput)
    | GetExpenseProducts(forExpense: Option<string>)
    | RefetchIncomes

  /** `id ?? ''` */
  function IdOrEmpty(t: Transaction): string {
    t.id.GetOr("")
  }

  /** `reduce((total, t) => total + t.amount, 0)` */
  function SumAmounts(ts: seq<Transaction>): int {
    if ts == [] then 0 else SumAmounts(ts[..|ts| - 1]) + ts[|ts| - 1].amount
  }

  /** The sum is additive over concatenation. */
  lemma {:induction false} SumAmountsAppend(a: seq<Transaction>, b: seq<Transaction>)
    ensures SumAmounts(a + b) == SumAmounts(a) + SumAmounts(b)
    decreases |b|
  {
    if b == [] {
      assert a + b == a;
    } else {
      assert (a + b)[..|a + b| - 1] == a + b[..|b| - 1];
      SumAmountsAppend(a, b[..|b| - 1]);
    }
  }

  /** The sum of a sequence that starts with `t`. */
  lemma SumAmountsCons(t: Transaction, ts: seq<Transaction>)
    ensures SumAmounts([t] + ts) == t.amount + SumAmounts(ts)
  {
    SumAmountsAppend([t], ts);
    assert [t][..0] == [];
  }

  /** Splitting a list by a predicate and its negation splits its total. */
  lemma {:induction false} SumAmountsFilterSplit(s: seq<Transaction>, p: Transaction -> bool, q: Transaction -> bool)
    requires forall i :: 0 <= i < |s| ==> q(s[i]) == !p(s[i])
    ensures SumAmounts(Filter(s, p)) + SumAmounts(Filter(s, q)) == SumAmounts(s)
  {
    if s != [] {
      var t := s[1..];
      assert forall i :: 0 <= i < |t| ==> t[i] == s[i + 1];
      SumAmountsFilterSplit(t, p, q);
      SumAmountsCons(s[0], t);
      assert s == [s[0]] + t;
      if p(s[0]) {
        assert Filter(s, p) == [s[0]] + Filter(t, p);
        assert Filter(s, q) == Filter(t, q);
        SumAmountsCons(s[0], Filter(t, p));
      } else {
        assert Filter(s, p) == Filter(t, p);
        assert Filter(s, q) == [s[0]] + Filter(t, q);
        SumAmountsCons(s[0], Filter(t, q));
      }
    }
  }

  /** Every amount non-negative makes every prefix sum non-decreasing. */
  lemma {:induction false} SumAmountsPrefixMonotone(ts: seq<Transaction>, i: nat, j: nat)
    requires i <= j <= |ts|
    requires forall k :: 0 <= k < |ts| ==> ts[k].amount >= 0
    ensures SumAmounts(ts[..i]) <= SumAmounts(ts[..j])
    decreases j - i
  {
    if i < j {
      SumAmountsPrefixMonotone(ts, i, j - 1);
      assert ts[..j][..j - 1] == ts[..j - 1];
    }
  }

  /** The total of a list the query may not have delivered yet:
      `data?.list?.reduce(…) ?? 0`. */
  function TotalOf(data: Option<seq<Transaction>>): (r: int)
    ensures data.None? ==> r == 0
    ensures data.Some? ==> r == SumAmounts(data.value)
  {
    match data
    case None => 0
    case Some(ts) => SumAmounts(ts)
  }

  /** `cards.find(c => c.id === id)`: the first card with that id. */
  function FindCard(cards: seq<Card>, id: string): (r: Option<Card>)
    ensures r.None? <==> forall i :: 0 <= i < |cards| ==> cards[i].id != id
    ensures r.Some? ==> exists i :: 0 <= i < |cards| && cards[i] == r.value && r.value.id == id
                          && forall j :: 0 <= j < i ==> cards[j].id != id
  {
    if cards == [] then None
    else if cards[0].id == id then Some(cards[0])
    else
      var r := FindCard(cards[1..], id);
      assert r.Some? ==> exists i :: 0 <= i < |cards[1..]| && cards[1..][i] == r.value
                          && forall j :: 0 <= j < i ==> cards[1..][j].id != id;
      assert r.Some? ==> exists i :: 0 < i < |cards| && cards[i] == r.value
                          && forall j :: 0 <= j < i ==> cards[j].id != id;
      r
  }

  /** `cards?.reduce((sum, c) => sum + (c.credito_iniziale || 0), 0) || 0` */
  function TotalInitialCredit(cards: Option<seq<Card>>): int {
    match cards
    case None => 0
    case Some(cs) => SumCredits(cs)
  }

  /** Initial credits summed, a missing credit counting as 0. */
  function SumCredits(cs: seq<Card>): int {
    if cs == [] then 0 else SumCredits(cs[..|cs| - 1]) + cs[|cs| - 1].credit.GetOr(0)
  }

  lemma {:induction false} SumCreditsAppend(a: seq<Card>, b: seq<Card>)
    ensures SumCredits(a + b) == SumCredits(a) + SumCredits(b)
    decreases |b|
  {
    if b == [] {
      assert a + b == a;
    } else {
      assert (a + b)[..|a + b| - 1] == a + b[..|b| - 1];
      SumCreditsAppend(a, b[..|b| - 1]);
    }
  }
}
