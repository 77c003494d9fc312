/** The per-card running balance of src/pages/Expenses.tsx (`sumUpToById`):
    expenses are grouped by card, each group is sorted by id rank, and every
    expense id is mapped to the sum of the amounts up to and including it. */
module RunningBalance {
  import opened Common
  import opened Seqs
  import opened Rank

  /** `String(e.card_id ?? '')` */
  function CardKey(e: Transaction): string {
    e.cardId.GetOr("")
  }

  function OnCard(key: string): Transaction -> bool {
    e => CardKey(e) == key
  }

  /** `byCard[key]`: the expenses of one card, in list order. */
  function Group(es: seq<Transaction>, key: string): seq<Transaction> {
    Filter(es, OnCard(key))
  }

  /** `Object.keys(byCard)`: the card keys in the order they were first seen. */
  function CardKeys(es: seq<Transaction>): (ks: seq<string>)
    ensures NoDup(ks)
    ensures forall k :: k in ks <==> exists i :: 0 <= i < |es| && CardKey(es[i]) == k
  {
    if es == [] then []
    else
      var init := es[..|es| - 1];
      var ks := CardKeys(init);
      var k := CardKey(es[|es| - 1]);
      assert forall i :: 0 <= i < |init| ==> init[i] == es[i];
      if k in ks then ks else ks + [k]
  }

  /** The grouping loop (src/pages/Expenses.tsx:174-178). */
  method GroupByCard(es: seq<Transaction>) returns (keys: seq<string>, byCard: map<string, seq<Transaction>>)
    ensures keys == CardKeys(es)
    ensures forall k :: k in byCard <==> k in keys
    ensures forall k :: k in byCard ==> byCard[k] == Group(es, k)
  {
    keys := [];
    byCard := map[];
    var i := 0;
    while i < |es|
      invariant 0 <= i <= |es|
      invariant keys == CardKeys(es[..i])
      invariant forall k :: k in byCard <==> k in keys
      invariant forall k :: k in byCard ==> byCard[k] == Group(es[..i], k)
    {
      keys, byCard := GroupNext(es, i, keys, byCard);
      i := i + 1;
    }
    assert es[..|es|] == es;
  }

  /** One turn of the grouping loop: `(byCard[key] ||= []).push(e)`. */
  method GroupNext(es: seq<Transaction>, i: nat, keys: seq<string>, byCard: map<string, seq<Transaction>>)
    returns (keys': seq<string>, byCard': map<string, seq<Transaction>>)
    requires i < |es|
    requires keys == CardKeys(es[..i])
    requires forall k :: k in byCard <==> k in keys
    requires forall k :: k in byCard ==> byCard[k] == Group(es[..i], k)
    ensures keys' == CardKeys(es[..i + 1])
    ensures forall k :: k in byCard' <==> k in keys'
    ensures forall k :: k in byCard' ==> byCard'[k] == Group(es[..i + 1], k)
  {
    var e := es[i];
    var key := CardKey(e);
    CardKeysStep(es, i);
    var prior := [];
    keys' := keys;
    if key in byCard {
      prior := byCard[key];
    } else {
      NoGroupForUnseenKey(es[..i], key);
      keys' := keys + [key];
    }
    byCard' := byCard[key := prior + [e]];
    GroupValuesNext(es, i, byCard, prior, byCard');
  }

  /** Pushing the expense onto its card's group extends exactly that group. */
  lemma GroupValuesNext(es: seq<Transaction>, i: nat, byCard: map<string, seq<Transaction>>, prior: seq<Transaction>,
                        byCard': map<string, seq<Transaction>>)
    requires i < |es|
    requires forall k :: k in byCard ==> byCard[k] == Group(es[..i], k)
    requires prior == Group(es[..i], CardKey(es[i]))
    requires byCard' == byCard[CardKey(es[i]) := prior + [es[i]]]
    ensures forall k :: k in byCard' ==> byCard'[k] == Group(es[..i + 1], k)
  {
    GroupStep(es, i);
  }

  lemma CardKeysStep(es: seq<Transaction>, i: nat)
    requires i < |es|
    ensures CardKeys(es[..i + 1]) == if CardKey(es[i]) in CardKeys(es[..i]) then CardKeys(es[..i])
                                     else CardKeys(es[..i]) + [CardKey(es[i])]
  {
    assert es[..i + 1][..i] == es[..i];
  }

  /** One more expense extends exactly its own card's group. */
  lemma GroupStep(es: seq<Transaction>, i: nat)
    requires i < |es|
    ensures forall k :: Group(es[..i + 1], k) == Group(es[..i], k) + (if CardKey(es[i]) == k then [es[i]] else [])
  {
    assert es[..i + 1] == es[..i] + [es[i]];
    forall k ensures Group(es[..i + 1], k) == Group(es[..i], k) + (if CardKey(es[i]) == k then [es[i]] else []) {
      FilterAppend(es[..i], [es[i]], OnCard(k));
      assert [es[i]][1..] == [];
    }
  }

  lemma NoGroupForUnseenKey(es: seq<Transaction>, key: string)
    requires key !in CardKeys(es)
    ensures Group(es, key) == []
  {
    FilterNone(es, OnCard(key));
  }

  /** Every expense is in the group of its own card and in no other. */
  lemma GroupMembership(es: seq<Transaction>, i: nat, k: string)
    requires i < |es|
    ensures es[i] in Group(es, CardKey(es[i]))
    ensures es[i] in Group(es, k) ==> k == CardKey(es[i])
  {
  }

  /** The sizes of the groups, over the keys `ks`. */
  function GroupSizes(es: seq<Transaction>, ks: seq<string>): nat {
    if ks == [] then 0 else GroupSizes(es, ks[..|ks| - 1]) + |Group(es, ks[|ks| - 1])|
  }

  lemma {:induction false} GroupSizesStep(s: seq<Transaction>, e: Transaction, ks: seq<string>)
    requires NoDup(ks)
    ensures GroupSizes(s + [e], ks) == GroupSizes(s, ks) + (if CardKey(e) in ks then 1 else 0)
  {
    if ks != [] {
      var init := ks[..|ks| - 1];
      var last := ks[|ks| - 1];
      assert ks == init + [last];
      assert NoDup(init);
      assert last !in init;
      GroupSizesStep(s, e, init);
      FilterAppend(s, [e], OnCard(last));
      assert [e][1..] == [];
    }
  }

  /** The groups partition the list: together they hold as many expenses as
      the list, and with `GroupMembership` each expense is in exactly one. */
  lemma {:induction false} GroupsPartition(es: seq<Transaction>)
    ensures GroupSizes(es, CardKeys(es)) == |es|
  {
    if es != [] {
      var init := es[..|es| - 1];
      var e := es[|es| - 1];
      assert es == init + [e];
      GroupsPartition(init);
      var ks := CardKeys(init);
      GroupSizesStep(init, e, ks);
      if CardKey(e) !in ks {
        NoGroupForUnseenKey(init, CardKey(e));
        FilterAppend(init, [e], OnCard(CardKey(e)));
        assert [e][1..] == [];
        assert CardKeys(es) == ks + [CardKey(e)];
        assert (ks + [CardKey(e)])[..|ks|] == ks;
      }
    }
  }

  /** The writes `map[id] = acc` of one sorted group: each expense with a
      non-empty id records the amounts up to and including it; a later
      write of the same id wins. */
  function Written(arr: seq<Transaction>, m0: map<string, int>): map<string, int> {
    if arr == [] then m0
    else
      var m := Written(arr[..|arr| - 1], m0);
      var id := IdOrEmpty(arr[|arr| - 1]);
      if id != "" then m[id := SumAmounts(arr)] else m
  }

  /** The accumulation loop (src/pages/Expenses.tsx:187-192). */
  method Accumulate(arr: seq<Transaction>, m0: map<string, int>) returns (m: map<string, int>)
    ensures m == Written(arr, m0)
  {
    m := m0;
    var acc := 0;
    var i := 0;
    while i < |arr|
      invariant 0 <= i <= |arr|
      invariant m == Written(arr[..i], m0)
      invariant acc == SumAmounts(arr[..i])
    {
      assert arr[..i + 1][..i] == arr[..i];
      acc := acc + arr[i].amount;
      var id := arr[i].id;
      if id.Some? && id.value != "" {
        m := m[id.value := acc];
      }
      i := i + 1;
    }
    assert arr[..|arr|] == arr;
  }

  /** Only non-empty ids of the group become keys. */
  lemma {:induction false} WrittenKeys(arr: seq<Transaction>, m0: map<string, int>, k: string)
    ensures k in Written(arr, m0) <==> k in m0 || (k != "" && exists i :: 0 <= i < |arr| && IdOrEmpty(arr[i]) == k)
  {
    if arr != [] {
      var init := arr[..|arr| - 1];
      WrittenKeys(init, m0, k);
      assert forall i :: 0 <= i < |init| ==> init[i] == arr[i];
    }
  }

  /** A group none of whose expenses has id `k` leaves the entry for `k` alone. */
  lemma {:induction false} WrittenUntouched(arr: seq<Transaction>, m0: map<string, int>, k: string)
    requires forall i :: 0 <= i < |arr| ==> IdOrEmpty(arr[i]) != k
    ensures k in Written(arr, m0) <==> k in m0
    ensures k in m0 ==> Written(arr, m0)[k] == m0[k]
  {
    if arr != [] {
      var init := arr[..|arr| - 1];
      assert forall i :: 0 <= i < |init| ==> init[i] == arr[i];
      WrittenUntouched(init, m0, k);
    }
  }

  /** The entry of the last expense carrying an id is the sum of the amounts
      up to and including that expense. */
  lemma {:induction false} WrittenAt(arr: seq<Transaction>, m0: map<string, int>, j: nat)
    requires j < |arr| && IdOrEmpty(arr[j]) != ""
    requires forall i :: j < i < |arr| ==> IdOrEmpty(arr[i]) != IdOrEmpty(arr[j])
    ensures IdOrEmpty(arr[j]) in Written(arr, m0)
    ensures Written(arr, m0)[IdOrEmpty(arr[j])] == SumAmounts(arr[..j + 1])
  {
    if j < |arr| - 1 {
      var init := arr[..|arr| - 1];
      assert init[j] == arr[j];
      assert forall i :: j < i < |init| ==> init[i] == arr[i];
      WrittenAt(init, m0, j);
      assert init[..j + 1] == arr[..j + 1];
    } else {
      assert arr[..j + 1] == arr;
    }
  }

  /** The last expense of a group maps to the group total. */
  lemma GroupTotalAtLast(arr: seq<Transaction>, m0: map<string, int>)
    requires arr != [] && IdOrEmpty(arr[|arr| - 1]) != ""
    ensures IdOrEmpty(arr[|arr| - 1]) in Written(arr, m0)
    ensures Written(arr, m0)[IdOrEmpty(arr[|arr| - 1])] == SumAmounts(arr)
  {
    WrittenAt(arr, m0, |arr| - 1);
    assert arr[..|arr|] == arr;
  }

  /** With non-negative amounts, an expense later in the group never maps to
      less than an earlier one. */
  lemma WrittenMonotone(arr: seq<Transaction>, m0: map<string, int>, i: nat, j: nat)
    requires i < j < |arr|
    requires IdOrEmpty(arr[i]) != "" && IdOrEmpty(arr[j]) != ""
    requires forall k :: i < k < |arr| ==> IdOrEmpty(arr[k]) != IdOrEmpty(arr[i])
    requires forall k :: j < k < |arr| ==> IdOrEmpty(arr[k]) != IdOrEmpty(arr[j])
    requires forall k :: 0 <= k < |arr| ==> arr[k].amount >= 0
    ensures IdOrEmpty(arr[i]) in Written(arr, m0) && IdOrEmpty(arr[j]) in Written(arr, m0)
    ensures Written(arr, m0)[IdOrEmpty(arr[i])] <= Written(arr, m0)[IdOrEmpty(arr[j])]
  {
    WrittenAt(arr, m0, i);
    WrittenAt(arr, m0, j);
    SumAmountsPrefixMonotone(arr, i + 1, j + 1);
  }

  /** The writes of the groups of `ks`, in that order. */
  function WrittenAll(es: seq<Transaction>, ks: seq<string>, m0: map<string, int>): map<string, int> {
    if ks == [] then m0
    else Written(SortByRank(Group(es, ks[|ks| - 1])), WrittenAll(es, ks[..|ks| - 1], m0))
  }

  /** The map `sumUpToById` returns. */
  function RunningTotals(es: seq<Transaction>): map<string, int> {
    WrittenAll(es, CardKeys(es), map[])
  }

  lemma WrittenAllStep(es: seq<Transaction>, ks: seq<string>, i: nat, m0: map<string, int>)
    requires i < |ks|
    ensures WrittenAll(es, ks[..i + 1], m0) == Written(SortByRank(Group(es, ks[i])), WrittenAll(es, ks[..i], m0))
  {
    assert ks[..i + 1][..i] == ks[..i];
  }

  /** `sumUpToById` (src/pages/Expenses.tsx:171-196). */
  method SumUpToById(es: seq<Transaction>) returns (m: map<string, int>)
    ensures m == RunningTotals(es)
  {
    var keys, byCard := GroupByCard(es);
    m := map[];
    var i := 0;
    while i < |keys|
      invariant 0 <= i <= |keys|
      invariant m == WrittenAll(es, keys[..i], map[])
    {
      WrittenAllStep(es, keys, i, map[]);
      var arr := SortByRank(byCard[keys[i]]);
      m := Accumulate(arr, m);
      i := i + 1;
    }
    assert keys[..|keys|] == keys;
  }

  /** An element of the sorted group of `key` is an expense of that card. */
  lemma InSortedGroup(es: seq<Transaction>, key: string, y: Transaction)
    ensures y in SortByRank(Group(es, key)) <==> y in es && CardKey(y) == key
  {
    assert y in SortByRank(Group(es, key)) <==> y in multiset(Group(es, key));
  }

  /** The ids of a sorted group are the ids of that card's expenses. */
  lemma SortedGroupIds(es: seq<Transaction>, key: string, k: string)
    ensures (exists i :: 0 <= i < |SortByRank(Group(es, key))| && IdOrEmpty(SortByRank(Group(es, key))[i]) == k)
            <==> exists i :: 0 <= i < |es| && CardKey(es[i]) == key && IdOrEmpty(es[i]) == k
  {
    var g := SortByRank(Group(es, key));
    if exists i :: 0 <= i < |g| && IdOrEmpty(g[i]) == k {
      var i :| 0 <= i < |g| && IdOrEmpty(g[i]) == k;
      InSortedGroup(es, key, g[i]);
      var j :| 0 <= j < |es| && es[j] == g[i];
    }
    if exists i :: 0 <= i < |es| && CardKey(es[i]) == key && IdOrEmpty(es[i]) == k {
      var i :| 0 <= i < |es| && CardKey(es[i]) == key && IdOrEmpty(es[i]) == k;
      InSortedGroup(es, key, es[i]);
      var j :| 0 <= j < |g| && g[j] == es[i];
    }
  }

  /** Some expense of `es` on one of the cards `ks` has id `k`. */
  predicate IdOnCards(es: seq<Transaction>, ks: seq<string>, k: string) {
    exists i :: 0 <= i < |es| && CardKey(es[i]) in ks && IdOrEmpty(es[i]) == k
  }

  lemma IdOnCardsSplit(es: seq<Transaction>, init: seq<string>, last: string, k: string)
    ensures IdOnCards(es, init + [last], k) <==>
              IdOnCards(es, init, k) || exists i :: 0 <= i < |es| && CardKey(es[i]) == last && IdOrEmpty(es[i]) == k
  {
    if IdOnCards(es, init + [last], k) {
      var i :| 0 <= i < |es| && CardKey(es[i]) in init + [last] && IdOrEmpty(es[i]) == k;
      assert CardKey(es[i]) in init || CardKey(es[i]) == last;
    }
  }

  lemma {:induction false} WrittenAllKeys(es: seq<Transaction>, ks: seq<string>, m0: map<string, int>, k: string)
    ensures k in WrittenAll(es, ks, m0) <==> k in m0 || (k != "" && IdOnCards(es, ks, k))
  {
    if ks != [] {
      var init := ks[..|ks| - 1];
      var last := ks[|ks| - 1];
      assert ks == init + [last];
      WrittenAllKeys(es, init, m0, k);
      WrittenKeys(SortByRank(Group(es, last)), WrittenAll(es, init, m0), k);
      SortedGroupIds(es, last, k);
      IdOnCardsSplit(es, init, last, k);
    }
  }

  /** The keys of the running-total map are exactly the non-empty ids of
      the list: an expense without an id never becomes a key. */
  lemma RunningTotalsKeys(es: seq<Transaction>, k: string)
    ensures k in RunningTotals(es) <==> k != "" && exists i :: 0 <= i < |es| && IdOrEmpty(es[i]) == k
  {
    WrittenAllKeys(es, CardKeys(es), map[], k);
    if k != "" && exists i :: 0 <= i < |es| && IdOrEmpty(es[i]) == k {
      var i :| 0 <= i < |es| && IdOrEmpty(es[i]) == k;
      assert CardKey(es[i]) in CardKeys(es);
    }
  }

  /** `x` is the only expense of `s` with its id, and occurs once. */
  predicate SoleHolder(s: seq<Transaction>, x: Transaction) {
    && multiset(s)[x] == 1
    && forall i :: 0 <= i < |s| && IdOrEmpty(s[i]) == IdOrEmpty(x) ==> s[i] == x
  }

  lemma TwiceCounted(s: seq<Transaction>, i: nat, j: nat)
    requires i < j < |s| && s[i] == s[j]
    ensures multiset(s)[s[i]] >= 2
  {
    assert s == s[..j] + s[j..];
    assert s[i] == s[..j][i];
    assert s[j] == s[j..][0];
    assert multiset(s) == multiset(s[..j]) + multiset(s[j..]);
  }

  /** The sole holder of an id sits at one index, and no other index has its id. */
  lemma SoleIndex(s: seq<Transaction>, x: Transaction) returns (j: nat)
    requires SoleHolder(s, x)
    ensures j < |s| && s[j] == x
    ensures forall i :: 0 <= i < |s| && IdOrEmpty(s[i]) == IdOrEmpty(x) ==> i == j
  {
    assert x in multiset(s);
    j :| 0 <= j < |s| && s[j] == x;
    forall i | 0 <= i < |s| && IdOrEmpty(s[i]) == IdOrEmpty(x) ensures i == j {
      if i < j {
        TwiceCounted(s, i, j);
      } else if j < i {
        TwiceCounted(s, j, i);
      }
    }
  }

  lemma {:induction false} FilterCount(s: seq<Transaction>, p: Transaction -> bool, x: Transaction)
    requires p(x)
    ensures multiset(Filter(s, p))[x] == multiset(s)[x]
  {
    if s != [] {
      FilterCount(s[1..], p, x);
      HeadTail(s);
      if p(s[0]) {
        FilterConsKept(s[0], s[1..], p);
      } else {
        FilterConsDropped(s[0], s[1..], p);
      }
      MultisetCons(s[0], s[1..]);
      MultisetCons(s[0], Filter(s[1..], p));
    }
  }

  lemma MultisetCons(x: Transaction, s: seq<Transaction>)
    ensures multiset([x] + s) == multiset{x} + multiset(s)
  {
  }

  lemma SoleHolderInSortedGroup(es: seq<Transaction>, x: Transaction)
    requires SoleHolder(es, x)
    ensures SoleHolder(SortByRank(Group(es, CardKey(x))), x)
  {
    var grp := Group(es, CardKey(x));
    var g := SortByRank(grp);
    FilterCount(es, OnCard(CardKey(x)), x);
    forall i | 0 <= i < |g| && IdOrEmpty(g[i]) == IdOrEmpty(x) ensures g[i] == x {
      assert g[i] in multiset(grp);
      assert g[i] in es;
    }
  }

  lemma {:induction false} WrittenAllAt(es: seq<Transaction>, ks: seq<string>, m0: map<string, int>, x: Transaction, j: nat)
    requires SoleHolder(es, x) && IdOrEmpty(x) != ""
    requires NoDup(ks) && CardKey(x) in ks
    requires j < |SortByRank(Group(es, CardKey(x)))| && SortByRank(Group(es, CardKey(x)))[j] == x
    ensures IdOrEmpty(x) in WrittenAll(es, ks, m0)
    ensures WrittenAll(es, ks, m0)[IdOrEmpty(x)] == SumAmounts(SortByRank(Group(es, CardKey(x)))[..j + 1])
  {
    var init := ks[..|ks| - 1];
    var last := ks[|ks| - 1];
    if last == CardKey(x) {
      WrittenAtOwnCard(es, WrittenAll(es, init, m0), x, j);
    } else {
      NoDupLast(ks);
      WrittenAllAt(es, init, m0, x, j);
      WrittenPastOtherCard(es, WrittenAll(es, init, m0), x, last);
    }
  }

  /** Dropping the last key keeps the keys distinct, and the other keys are
      the ones before it. */
  lemma NoDupLast(ks: seq<string>)
    requires NoDup(ks) && ks != []
    ensures NoDup(ks[..|ks| - 1])
    ensures forall k :: k in ks && k != ks[|ks| - 1] ==> k in ks[..|ks| - 1]
  {
    assert ks == ks[..|ks| - 1] + [ks[|ks| - 1]];
  }

  /** Over the writes of its own card's group, the sole holder of an id gets
      the sum up to its place. */
  lemma WrittenAtOwnCard(es: seq<Transaction>, m: map<string, int>, x: Transaction, j: nat)
    requires SoleHolder(es, x) && IdOrEmpty(x) != ""
    requires j < |SortByRank(Group(es, CardKey(x)))| && SortByRank(Group(es, CardKey(x)))[j] == x
    ensures IdOrEmpty(x) in Written(SortByRank(Group(es, CardKey(x))), m)
    ensures Written(SortByRank(Group(es, CardKey(x))), m)[IdOrEmpty(x)] == SumAmounts(SortByRank(Group(es, CardKey(x)))[..j + 1])
  {
    var g := SortByRank(Group(es, CardKey(x)));
    SoleHolderInSortedGroup(es, x);
    var j' := SoleIndex(g, x);
    WrittenAt(g, m, j);
  }

  /** The writes of another card's group leave the entry of `x` alone. */
  lemma WrittenPastOtherCard(es: seq<Transaction>, m: map<string, int>, x: Transaction, last: string)
    requires SoleHolder(es, x) && last != CardKey(x)
    ensures IdOrEmpty(x) in Written(SortByRank(Group(es, last)), m) <==> IdOrEmpty(x) in m
    ensures IdOrEmpty(x) in m ==> Written(SortByRank(Group(es, last)), m)[IdOrEmpty(x)] == m[IdOrEmpty(x)]
  {
    var g := SortByRank(Group(es, last));
    forall i | 0 <= i < |g| ensures IdOrEmpty(g[i]) != IdOrEmpty(x) {
      InSortedGroup(es, last, g[i]);
    }
    WrittenUntouched(g, m, IdOrEmpty(x));
  }

  /** The running balance: for an expense that is the only one with its id,
      the map holds its own amount plus the amounts of everything before it
      in its card's group sorted by rank. */
  lemma RunningTotalOf(es: seq<Transaction>, x: Transaction) returns (j: nat)
    requires SoleHolder(es, x) && IdOrEmpty(x) != ""
    ensures j < |SortByRank(Group(es, CardKey(x)))| && SortByRank(Group(es, CardKey(x)))[j] == x
    ensures IdOrEmpty(x) in RunningTotals(es)
    ensures RunningTotals(es)[IdOrEmpty(x)] == SumAmounts(SortByRank(Group(es, CardKey(x)))[..j + 1])
  {
    SoleHolderInSortedGroup(es, x);
    j := SoleIndex(SortByRank(Group(es, CardKey(x))), x);
    assert x in es by {
      assert x in multiset(es);
    }
    WrittenAllAt(es, CardKeys(es), map[], x, j);
  }

  /** The card an expense is charged to: its own, or the selected one. */
  function ChargedCard(e: Transaction, selectedCard: string, cards: Option<seq<Card>>): Option<Card> {
    if cards.None? then None else FindCard(cards.value, e.cardId.GetOr(selectedCard))
  }

  /** `creditDeltaAfter` (src/pages/Expenses.tsx:87-92): the credit left after
      this expense, absent when the card or its initial credit is missing;
      an expense without an id or without an entry subtracts nothing. */
  function CreditDeltaAfter(e: Transaction, selectedCard: string, cards: Option<seq<Card>>, sums: map<string, int>): (r: Option<int>)
    ensures r.Some? <==> ChargedCard(e, selectedCard, cards).Some? && ChargedCard(e, selectedCard, cards).value.credit.Some?
    ensures r.Some? && (IdOrEmpty(e) == "" || IdOrEmpty(e) !in sums) ==>
              r.value == ChargedCard(e, selectedCard, cards).value.credit.value
    ensures r.Some? && IdOrEmpty(e) != "" && IdOrEmpty(e) in sums ==>
              r.value == ChargedCard(e, selectedCard, cards).value.credit.value - sums[IdOrEmpty(e)]
  {
    var card := ChargedCard(e, selectedCard, cards);
    var id := IdOrEmpty(e);
    var sumUpTo := if id != "" && id in sums then sums[id] else 0;
    if card.Some? && card.value.credit.Some? then Some(card.value.credit.value - sumUpTo) else None
  }

  /** Shown against the running totals, the credit after an expense is the
      initial credit minus everything its card spent up to it. */
  lemma CreditAfterRunningTotal(es: seq<Transaction>, x: Transaction, selectedCard: string, cards: seq<Card>, c: Card) returns (j: nat)
    requires SoleHolder(es, x) && IdOrEmpty(x) != ""
    requires ChargedCard(x, selectedCard, Some(cards)) == Some(c) && c.credit.Some?
    ensures j < |SortByRank(Group(es, CardKey(x)))| && SortByRank(Group(es, CardKey(x)))[j] == x
    ensures CreditDeltaAfter(x, selectedCard, Some(cards), RunningTotals(es)).Some?
    ensures CreditDeltaAfter(x, selectedCard, Some(cards), RunningTotals(es)).value
            == c.credit.value - SumAmounts(SortByRank(Group(es, CardKey(x)))[..j + 1])
  {
    j := RunningTotalOf(es, x);
    CreditDeltaWithEntry(x, selectedCard, Some(cards), RunningTotals(es), c, SumAmounts(SortByRank(Group(es, CardKey(x)))[..j + 1]));
  }

  lemma CreditDeltaWithEntry(e: Transaction, selectedCard: string, cards: Option<seq<Card>>, sums: map<string, int>, c: Card, v: int)
    requires IdOrEmpty(e) != "" && IdOrEmpty(e) in sums && sums[IdOrEmpty(e)] == v
    requires ChargedCard(e, selectedCard, cards) == Some(c) && c.credit.Some?
    ensures CreditDeltaAfter(e, selectedCard, cards, sums).Some?
    ensures CreditDeltaAfter(e, selectedCard, cards, sums).value == c.credit.value - v
  {
  }
}
