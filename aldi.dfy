/** The product catalogue page (src/pages/Aldi.tsx): the search text and
    category filters, the page-reset rules and the ten-row pages. The
    fetched products are a parameter. */
module Aldi {
  import opened Common
  import opened Seqs
  import opened Text

  datatype AldiProduct = AldiProduct(id: string, name: string, price: int, image: string, category: string, sku: string)

  /** `rowsPerPage` (src/pages/Aldi.tsx:40) */
  const RowsPerPage: nat := 10

  /** `prod.name.toLowerCase().includes(product.toLowerCase())` */
  predicate NameMatches(search: string, prod: AldiProduct) {
    Contains(ToLower(prod.name), ToLower(search))
  }

  function ByName(search: string): AldiProduct -> bool {
    (prod: AldiProduct) => NameMatches(search, prod)
  }

  function ByNameAndCategory(search: string, category: string): AldiProduct -> bool {
    (prod: AldiProduct) => NameMatches(search, prod) && prod.category == category
  }

  function ByCategory(category: string): AldiProduct -> bool {
    (prod: AldiProduct) => prod.category == category
  }

  /** `data?.aldiProducts || []` */
  function Fetched(data: Option<seq<AldiProduct>>): seq<AldiProduct> {
    data.GetOr([])
  }

  /** `data?.aldiProducts.filter(p) || []`: the fetched products `p`
      accepts, in their order and as often as they were fetched; none
      without data. */
  function FilterFetched(data: Option<seq<AldiProduct>>, p: AldiProduct -> bool): (r: seq<AldiProduct>)
    ensures data.None? ==> r == []
    ensures IsSubsequence(r, Fetched(data))
    ensures forall x :: x in r <==> x in Fetched(data) && p(x)
    ensures forall x :: multiset(r)[x] == if p(x) then multiset(Fetched(data))[x] else 0
  {
    FilterIsSubsequence(Fetched(data), p);
    FilterMultiplicities(Fetched(data), p);
    Filter(Fetched(data), p)
  }

  /** The list the filter effect (src/pages/Aldi.tsx:46-54) sets: with
      `'tutti'` the products whose lowered name contains the lowered search
      text, with any other category only those of that category too. */
  function EffectFilter(data: Option<seq<AldiProduct>>, product: string, category: string): (r: seq<AldiProduct>)
    ensures data.None? ==> r == []
    ensures IsSubsequence(r, Fetched(data))
    ensures forall x :: x in r <==> x in Fetched(data) && NameMatches(product, x) && (category != "tutti" ==> x.category == category)
    ensures forall x :: multiset(r)[x]
                       == if NameMatches(product, x) && (category != "tutti" ==> x.category == category)
                          then multiset(Fetched(data))[x] else 0
  {
    if category != "tutti" then FilterFetched(data, ByNameAndCategory(product, category))
    else FilterFetched(data, ByName(product))
  }

  /** The list `onChange(category)` (src/pages/Aldi.tsx:56-73) sets. */
  function ChangeFilter(data: Option<seq<AldiProduct>>, product: string, category: string): (r: seq<AldiProduct>)
    ensures forall x :: x in r ==> x in Fetched(data)
    ensures product != "" ==> forall x :: x in r ==> NameMatches(product, x)
    ensures category != "tutti" ==> forall x :: x in r ==> x.category == category
  {
    if category == "tutti" then
      if product != "" then FilterFetched(data, ByName(product)) else Fetched(data)
    else
      if product != "" then FilterFetched(data, ByNameAndCategory(product, category))
      else FilterFetched(data, ByCategory(category))
  }

  /** An empty search accepts every name. */
  lemma EmptySearchMatches(prod: AldiProduct)
    ensures NameMatches("", prod)
  {
    ContainsEmpty(ToLower(prod.name));
  }

  /** With `'tutti'` and an empty search, the effect shows every fetched product. */
  lemma EmptySearchKeepsAll(data: Option<seq<AldiProduct>>)
    ensures EffectFilter(data, "", "tutti") == Fetched(data)
  {
    forall i | 0 <= i < |Fetched(data)| ensures ByName("")(Fetched(data)[i]) {
      EmptySearchMatches(Fetched(data)[i]);
    }
    FilterAll(Fetched(data), ByName(""));
  }

  /** `onChange` sets the same list as the effect does for the same search
      text and category: its shortcuts for an empty search change nothing. */
  lemma ChangeAgreesWithEffect(data: Option<seq<AldiProduct>>, product: string, category: string)
    ensures ChangeFilter(data, product, category) == EffectFilter(data, product, category)
  {
    if product == "" {
      if category == "tutti" {
        EmptySearchKeepsAll(data);
      } else {
        forall i | 0 <= i < |Fetched(data)|
          ensures ByCategory(category)(Fetched(data)[i]) == ByNameAndCategory("", category)(Fetched(data)[i])
        {
          EmptySearchMatches(Fetched(data)[i]);
        }
        FilterCongruent(Fetched(data), ByCategory(category), ByNameAndCategory("", category));
      }
    }
  }

  /** The search ignores the case of the search text. */
  lemma SearchIgnoresCase(data: Option<seq<AldiProduct>>, product: string, category: string)
    ensures EffectFilter(data, ToLower(product), category) == EffectFilter(data, product, category)
  {
    ToLowerIdempotent(product);
    FilterCongruent(Fetched(data), ByName(ToLower(product)), ByName(product));
    FilterCongruent(Fetched(data), ByNameAndCategory(ToLower(product), category), ByNameAndCategory(product, category));
  }

  /** A name matches exactly when the lowered search text occurs somewhere
      in the lowered name. */
  lemma NameMatchesAt(search: string, prod: AldiProduct)
    ensures NameMatches(search, prod) <==> exists i: nat :: OccursAt(ToLower(prod.name), ToLower(search), i)
  {
    ContainsOccurs(ToLower(prod.name), ToLower(search));
    forall i: nat | OccursAt(ToLower(prod.name), ToLower(search), i) ensures NameMatches(search, prod) {
      OccursContains(ToLower(prod.name), ToLower(search), i);
    }
  }

  /** `filteredProducts.slice(page * rowsPerPage, page * rowsPerPage + rowsPerPage)`
      (src/pages/Aldi.tsx:75). */
  function Paginate(s: seq<AldiProduct>, page: nat): (r: seq<AldiProduct>)
    ensures |r| <= RowsPerPage
    ensures page * RowsPerPage >= |s| ==> r == []
    ensures page * RowsPerPage < |s| ==> |r| == if |s| - page * RowsPerPage < RowsPerPage then |s| - page * RowsPerPage else RowsPerPage
    ensures forall k :: 0 <= k < |r| ==> r[k] == s[page * RowsPerPage + k]
  {
    var start := page * RowsPerPage;
    if start >= |s| then []
    else if start + RowsPerPage <= |s| then s[start..start + RowsPerPage]
    else s[start..]
  }

  /** The first `n` pages one after the other. */
  function FirstPages(s: seq<AldiProduct>, n: nat): seq<AldiProduct> {
    if n == 0 then [] else FirstPages(s, n - 1) + Paginate(s, n - 1)
  }

  function Min(a: nat, b: nat): nat {
    if a <= b then a else b
  }

  /** The first `n` pages are the first `n` times ten products, without gap
      or overlap. */
  lemma {:induction false} FirstPagesArePrefix(s: seq<AldiProduct>, n: nat)
    ensures FirstPages(s, n) == s[..Min(n * RowsPerPage, |s|)]
  {
    if n > 0 {
      var m: nat := n - 1;
      FirstPagesArePrefix(s, m);
      PageFollowsPrefix(s, m);
    }
  }

  lemma PageFollowsPrefix(s: seq<AldiProduct>, m: nat)
    ensures s[..Min(m * RowsPerPage, |s|)] + Paginate(s, m) == s[..Min((m + 1) * RowsPerPage, |s|)]
  {
    var p := Paginate(s, m);
    var a := Min(m * RowsPerPage, |s|);
    var b := Min((m + 1) * RowsPerPage, |s|);
    assert |p| == b - a;
    forall k | 0 <= k < b - a ensures p[k] == s[a + k] {
    }
    assert s[..a] + p == s[..b];
  }

  /** Enough pages to cover the list show all of it, each product once and
      in order. */
  lemma PagesPartition(s: seq<AldiProduct>, n: nat)
    requires n * RowsPerPage >= |s|
    ensures FirstPages(s, n) == s
  {
    FirstPagesArePrefix(s, n);
  }

  class AldiPage {
    var product: string
    var filteredProducts: seq<AldiProduct>
    var category: string
    var page: nat

    /** The initial state (src/pages/Aldi.tsx:36-39). */
    constructor (data: Option<seq<AldiProduct>>)
      ensures product == "" && filteredProducts == Fetched(data) && category == "tutti" && page == 0
    {
      product := "";
      filteredProducts := Fetched(data);
      category := "tutti";
      page := 0;
    }

    /** The rows on screen. */
    function Shown(): (r: seq<AldiProduct>)
      reads this
      ensures |r| <= RowsPerPage
    {
      Paginate(filteredProducts, page)
    }

    /** The effect on new data (src/pages/Aldi.tsx:42-44). */
    method OnData(data: Option<seq<AldiProduct>>)
      modifies this
      ensures filteredProducts == Fetched(data)
      ensures product == old(product) && category == old(category) && page == old(page)
    {
      filteredProducts := Fetched(data);
    }

    /** The filter effect (src/pages/Aldi.tsx:46-54): the page goes back to
        the first one only on the `'tutti'` branch. */
    method OnFilterChange(data: Option<seq<AldiProduct>>)
      modifies this
      ensures filteredProducts == EffectFilter(data, product, category)
      ensures category == "tutti" ==> page == 0
      ensures category != "tutti" ==> page == old(page)
      ensures product == old(product) && category == old(category)
    {
      if category != "tutti" {
        var filtered := FilterFetched(data, ByNameAndCategory(product, category));
        filteredProducts := filtered;
        return;
      }
      filteredProducts := FilterFetched(data, ByName(product));
      page := 0;
    }

    /** `onChange` (src/pages/Aldi.tsx:56-73): the page goes back to the
        first one only when the search text is empty. */
    method OnChange(data: Option<seq<AldiProduct>>, newCategory: string)
      modifies this
      ensures filteredProducts == EffectFilter(data, product, newCategory)
      ensures product == "" ==> page == 0
      ensures product != "" ==> page == old(page)
      ensures newCategory == "tutti" && product == "" ==> filteredProducts == Fetched(data)
      ensures product == old(product) && category == old(category)
    {
      ChangeAgreesWithEffect(data, product, newCategory);
      if product == "" && newCategory == "tutti" {
        EmptySearchKeepsAll(data);
      }
      if newCategory == "tutti" {
        if product != "" {
          var filtered := FilterFetched(data, ByName(product));
          filteredProducts := filtered;
          return;
        }
        filteredProducts := Fetched(data);
      } else {
        if product != "" {
          var filtered := FilterFetched(data, ByNameAndCategory(product, newCategory));
          filteredProducts := filtered;
          return;
        }
        var filtered := FilterFetched(data, ByCategory(newCategory));
        filteredProducts := filtered;
      }
      page := 0;
    }

    /** The category select (src/pages/Aldi.tsx:100): `onChange`, then the
        new category. */
    method SelectCategory(data: Option<seq<AldiProduct>>, newCategory: string)
      modifies this
      ensures filteredProducts == EffectFilter(data, product, newCategory) && category == newCategory
      ensures product == "" ==> page == 0
      ensures product != "" ==> page == old(page)
      ensures product == old(product)
    {
      OnChange(data, newCategory);
      category := newCategory;
    }

    /** The search field and its clear button (src/pages/Aldi.tsx:85, 88). */
    method SetProduct(text: string)
      modifies this
      ensures product == text
      ensures filteredProducts == old(filteredProducts) && category == old(category) && page == old(page)
    {
      product := text;
    }

    /** The category clear button (src/pages/Aldi.tsx:101). */
    method ClearCategory()
      modifies this
      ensures category == "tutti"
      ensures filteredProducts == old(filteredProducts) && product == old(product) && page == old(page)
    {
      category := "tutti";
    }

    /** `onPageChange` (src/pages/Aldi.tsx:143). */
    method SetPage(newPage: nat)
      modifies this
      ensures page == newPage
      ensures filteredProducts == old(filteredProducts) && product == old(product) && category == old(category)
    {
      page := newPage;
    }
  }
}
