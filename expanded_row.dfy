/** The expanded row of an expense (src/components/dashboard/ExpandedExpenseRow.tsx):
    the products attached to the expense, the add-product form with its
    budget check, and the effect that fetches the products once per
    expense. Queries and mutations are returned as `Request`s. */
module ExpandedRow {
  import opened Common
  import opened Seqs
  import opened ExpenseRows

  datatype ExpenseProduct = ExpenseProduct(id: string, name: string, quantity: int, price: int)

  /** The cells of the expense's own row (src/components/dashboard/ExpandedExpenseRow.tsx:140-171):
      the card cell appears only when every card is shown. */
  function RowCells(selectedCard: string): seq<string> {
    ["checkbox", "description", "category", "amount", "date"]
    + (if selectedCard == "all" then ["card"] else [])
    + ["delete"]
  }

  /** `colSpan` (src/components/dashboard/ExpandedExpenseRow.tsx:64) is the
      same expression as the divider's in the expense list, and it spans
      exactly the cells of the row above. */
  lemma ColSpanCoversRow(selectedCard: string)
    ensures ColSpan(selectedCard) == |RowCells(selectedCard)|
  {
    if selectedCard == "all" {
      assert |RowCells(selectedCard)| == 7;
    } else {
      assert |RowCells(selectedCard)| == 6;
    }
  }

  /** The products' prices added up: `products.reduce((sum, prod) => sum + Number(prod.price), 0)`. */
  function SumPrices(ps: seq<ExpenseProduct>): int {
    if ps == [] then 0 else SumPrices(ps[..|ps| - 1]) + ps[|ps| - 1].price
  }

  /** The price sum is additive over concatenation. */
  lemma {:induction false} SumPricesAppend(a: seq<ExpenseProduct>, b: seq<ExpenseProduct>)
    ensures SumPrices(a + b) == SumPrices(a) + SumPrices(b)
    decreases |b|
  {
    if b == [] {
      assert a + b == a;
    } else {
      var init := b[..|b| - 1];
      assert (a + b)[..|a + b| - 1] == a + init;
      SumPricesAppend(a, init);
    }
  }

  /** The guard of `handleAddProduct` (line 92): a name, a quantity other than 0
      and a price other than 0. */
  predicate FormFilled(np: ProductInput) {
    np.name != "" && np.quantity != 0 && np.price != 0
  }

  /** The budget check (lines 93-95): the prices so far plus the new price
      must not exceed the expense's amount. The quantity plays no part. */
  predicate OverBudget(products: seq<ExpenseProduct>, np: ProductInput, amount: int) {
    SumPrices(products) + np.price > amount
  }

  /** A product the form accepts, added to the list, keeps the list within
      the expense's amount. */
  lemma AcceptedStaysWithinAmount(products: seq<ExpenseProduct>, np: ProductInput, amount: int, id: string)
    requires !OverBudget(products, np, amount)
    ensures SumPrices(products + [ExpenseProduct(id, np.name, np.quantity, np.price)]) <= amount
  {
    var added := ExpenseProduct(id, np.name, np.quantity, np.price);
    SumPricesAppend(products, [added]);
    assert [added][..0] == [];
  }

  /** Reaching the amount exactly is allowed, one cent more is not: with a
      product of 30 on an expense of 50, a price of 20 passes and 21 opens
      the warning, whatever the quantity. */
  lemma BudgetBoundary(p: ExpenseProduct, q: int)
    requires p.price == 30
    ensures !OverBudget([p], ProductInput("latte", q, 20), 50)
    ensures OverBudget([p], ProductInput("latte", q, 21), 50)
  {
    assert [p][..0] == [];
    assert SumPrices([p]) == 30;
  }

  /** `String(expense.id)`: a missing id reads `"undefined"`. */
  function KeyOf(id: Option<string>): (k: string)
    ensures id.Some? ==> k == id.value
    ensures id.None? ==> k == "undefined"
  {
    match id
    case Some(s) => s
    case None => "undefined"
  }

  /** `fetchedRef.current[key]` */
  predicate WasFetched(fetched: map<string, bool>, key: string) {
    key in fetched && fetched[key]
  }

  /** The condition of the fetch effect (lines 76-77). */
  predicate Fires(fetched: map<string, bool>, expanded: bool, id: Option<string>) {
    expanded && KeyOf(id) != "" && !WasFetched(fetched, KeyOf(id))
  }

  /** The dictionary after one run of the effect. */
  function AfterRun(fetched: map<string, bool>, expanded: bool, id: Option<string>): (r: map<string, bool>)
    ensures forall k :: WasFetched(r, k) <==> WasFetched(fetched, k) || (Fires(fetched, expanded, id) && k == KeyOf(id))
  {
    if Fires(fetched, expanded, id) then fetched[KeyOf(id) := true] else fetched
  }

  /** One run of the effect: the row's `expanded` flag and its expense id. */
  datatype EffectRun = EffectRun(expanded: bool, id: Option<string>)

  /** The keys the effect fetches over a series of runs, in order. */
  function FetchedKeys(fetched: map<string, bool>, runs: seq<EffectRun>): seq<string>
    decreases |runs|
  {
    if runs == [] then []
    else
      var r := runs[0];
      (if Fires(fetched, r.expanded, r.id) then [KeyOf(r.id)] else [])
      + FetchedKeys(AfterRun(fetched, r.expanded, r.id), runs[1..])
  }

  /** A key fetched over the runs was not fetched before them. */
  lemma {:induction false} FetchedKeysFresh(fetched: map<string, bool>, runs: seq<EffectRun>, k: string)
    ensures k in FetchedKeys(fetched, runs) ==> !WasFetched(fetched, k) && k != ""
    decreases |runs|
  {
    if runs != [] {
      var r := runs[0];
      FetchedKeysFresh(AfterRun(fetched, r.expanded, r.id), runs[1..], k);
    }
  }

  /** Each expense's products are fetched at most once, and never for a key
      fetched before. */
  lemma {:induction false} FetchOncePerKey(fetched: map<string, bool>, runs: seq<EffectRun>)
    ensures NoDup(FetchedKeys(fetched, runs))
    ensures forall k :: k in FetchedKeys(fetched, runs) ==> !WasFetched(fetched, k)
    decreases |runs|
  {
    forall k | k in FetchedKeys(fetched, runs) ensures !WasFetched(fetched, k) {
      FetchedKeysFresh(fetched, runs, k);
    }
    if runs != [] {
      var r := runs[0];
      var after := AfterRun(fetched, r.expanded, r.id);
      var rest := FetchedKeys(after, runs[1..]);
      FetchOncePerKey(after, runs[1..]);
      if Fires(fetched, r.expanded, r.id) {
        FetchedKeysFresh(after, runs[1..], KeyOf(r.id));
        ConsNoDup(KeyOf(r.id), rest);
      } else {
        assert [] + rest == rest;
      }
    }
  }

  lemma ConsNoDup(x: string, rest: seq<string>)
    requires NoDup(rest) && x !in rest
    ensures NoDup([x] + rest)
  {
    var s := [x] + rest;
    forall i, j | 0 <= i < j < |s| ensures s[i] != s[j] {
      assert s[j] == rest[j - 1];
      if i > 0 {
        assert s[i] == rest[i - 1];
      }
    }
  }

  /** A collapsed row fetches nothing. */
  lemma {:induction false} CollapsedFetchesNothing(fetched: map<string, bool>, runs: seq<EffectRun>)
    requires forall i :: 0 <= i < |runs| ==> !runs[i].expanded
    ensures FetchedKeys(fetched, runs) == []
    decreases |runs|
  {
    if runs != [] {
      CollapsedFetchesNothing(AfterRun(fetched, runs[0].expanded, runs[0].id), runs[1..]);
    }
  }

  class ExpandedExpenseRow {
    var products: seq<ExpenseProduct>
    var newProduct: ProductInput
    var snackbarOpen: bool
    var showAddProduct: bool
    var fetched: map<string, bool>

    /** The initial state (src/components/dashboard/ExpandedExpenseRow.tsx:65-74). */
    constructor ()
      ensures products == [] && newProduct == ProductInput("", 1, 0)
      ensures !snackbarOpen && !showAddProduct && fetched == map[]
    {
      products := [];
      newProduct := ProductInput("", 1, 0);
      snackbarOpen := false;
      showAddProduct := false;
      fetched := map[];
    }

    /** The fetch effect (lines 75-82): the products are requested when the
        row is expanded and its key has not been fetched yet. */
    method RunFetchEffect(expanded: bool, id: Option<string>) returns (req: Option<Request>)
      modifies this
      ensures Fires(old(fetched), expanded, id) ==> req == Some(GetExpenseProducts(id))
      ensures !Fires(old(fetched), expanded, id) ==> req.None?
      ensures fetched == AfterRun(old(fetched), expanded, id)
      ensures products == old(products) && newProduct == old(newProduct)
      ensures snackbarOpen == old(snackbarOpen) && showAddProduct == old(showAddProduct)
    {
      var expenseKey := KeyOf(id);
      req := None;
      if expanded && expenseKey != "" && !(expenseKey in fetched && fetched[expenseKey]) {
        req := Some(GetExpenseProducts(id));
        fetched := fetched[expenseKey := true];
      }
    }

    /** The effect that copies fetched products into the list (lines 84-88). */
    method OnProductsData(data: Option<seq<ExpenseProduct>>)
      modifies this
      ensures data.Some? ==> products == data.value
      ensures data.None? ==> products == old(products)
      ensures newProduct == old(newProduct) && fetched == old(fetched)
      ensures snackbarOpen == old(snackbarOpen) && showAddProduct == old(showAddProduct)
    {
      if data.Some? {
        products := data.value;
      }
    }

    /** `handleAddProduct` (lines 90-112): an incomplete form does nothing;
        a product over the budget opens the warning and leaves the form as
        it is; otherwise the product is sent, the form is reset and the
        products are requested again. */
    method HandleAddProduct(expense: Transaction) returns (reqs: seq<Request>)
      modifies this
      ensures !FormFilled(old(newProduct)) ==>
                reqs == [] && newProduct == old(newProduct) && snackbarOpen == old(snackbarOpen)
      ensures FormFilled(old(newProduct)) && OverBudget(products, old(newProduct), expense.amount) ==>
                reqs == [] && newProduct == old(newProduct) && snackbarOpen
      ensures FormFilled(old(newProduct)) && !OverBudget(products, old(newProduct), expense.amount) ==>
                && reqs == [AddExpenseProduct(expense.id, old(newProduct)), GetExpenseProducts(expense.id)]
                && newProduct == ProductInput("", 1, 0) && snackbarOpen == old(snackbarOpen)
      ensures products == old(products) && fetched == old(fetched) && showAddProduct == old(showAddProduct)
    {
      if newProduct.name == "" || newProduct.quantity == 0 || newProduct.price == 0 {
        return [];
      }
      var totalProducts := SumPrices(products);
      var newTotal := totalProducts + newProduct.price;
      if newTotal > expense.amount {
        snackbarOpen := true;
        return [];
      }
      reqs := [AddExpenseProduct(expense.id, ProductInput(newProduct.name, newProduct.quantity, newProduct.price))];
      newProduct := ProductInput("", 1, 0);
      reqs := reqs + [GetExpenseProducts(expense.id)];
    }

    /** `handleShowAddProduct` (lines 114-117). */
    method HandleShowAddProduct()
      modifies this
      ensures showAddProduct == !old(showAddProduct)
      ensures products == old(products) && newProduct == old(newProduct)
      ensures fetched == old(fetched) && snackbarOpen == old(snackbarOpen)
    {
      showAddProduct := !showAddProduct;
    }

    /** The warning's close handlers (lines 125, 130). */
    method CloseSnackbar()
      modifies this
      ensures !snackbarOpen
      ensures products == old(products) && newProduct == old(newProduct)
      ensures fetched == old(fetched) && showAddProduct == old(showAddProduct)
    {
      snackbarOpen := false;
    }

    /** The form fields (lines 207, 218, 229); `Number` is applied by the caller. */
    method SetNewProduct(name: string, quantity: int, price: int)
      modifies this
      ensures newProduct == ProductInput(name, quantity, price)
      ensures products == old(products) && fetched == old(fetched)
      ensures snackbarOpen == old(snackbarOpen) && showAddProduct == old(showAddProduct)
    {
      newProduct := ProductInput(name, quantity, price);
    }
  }
}
