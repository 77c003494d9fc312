/** The dashboard's figures (src/pages/Dashboard.tsx): the credit totals, the
    labels of the last months, the amounts bucketed by month and the chart
    series read from the buckets. Dates enter as (year, month) pairs: what
    `new Date(...)` makes of a date string, and the current month, are
    parameters of the model. */
module Dashboard {
  import opened Common
  import opened Seqs
  import opened Text

  /** `useTotals` (src/pages/Dashboard.tsx:21-30). */
  datatype Totals = Totals(totalExpenses: int, totalIncomes: int, totalCreditoIniziale: int, totalCreditoAttuale: int)

  function UseTotals(expenses: Option<seq<Transaction>>, incomes: Option<seq<Transaction>>, cards: Option<seq<Card>>): (t: Totals)
    ensures t.totalExpenses == TotalOf(expenses) && t.totalIncomes == TotalOf(incomes)
    ensures t.totalCreditoIniziale == TotalInitialCredit(cards)
    ensures t.totalCreditoAttuale == t.totalCreditoIniziale + t.totalIncomes - t.totalExpenses
  {
    var totalExpenses := TotalOf(expenses);
    var totalIncomes := TotalOf(incomes);
    var totalCreditoIniziale := TotalInitialCredit(cards);
    Totals(totalExpenses, totalIncomes, totalCreditoIniziale, totalCreditoIniziale + totalIncomes - totalExpenses)
  }

  /** One more income raises the current credit by its amount, one more
      expense lowers it by its amount. */
  lemma CreditFollowsTransactions(expenses: seq<Transaction>, incomes: seq<Transaction>, cards: Option<seq<Card>>, t: Transaction)
    ensures UseTotals(Some(expenses), Some([t] + incomes), cards).totalCreditoAttuale
            == UseTotals(Some(expenses), Some(incomes), cards).totalCreditoAttuale + t.amount
    ensures UseTotals(Some([t] + expenses), Some(incomes), cards).totalCreditoAttuale
            == UseTotals(Some(expenses), Some(incomes), cards).totalCreditoAttuale - t.amount
  {
    SumAmountsCons(t, incomes);
    SumAmountsCons(t, expenses);
  }

  /** A card without an initial credit adds nothing to the total credit. */
  lemma CardWithoutCredit(cs: seq<Card>, c: Card)
    requires c.credit.None?
    ensures TotalInitialCredit(Some(cs + [c])) == TotalInitialCredit(Some(cs))
  {
    assert (cs + [c])[..|cs|] == cs;
  }

  /** The dashboard walk-through: cards of 1000 and 500, incomes of 2000 and
      500 and expenses of 50, 30 and 20 give a total credit of 3900. */
  lemma TotalsWalkThrough(e1: Transaction, e2: Transaction, e3: Transaction, i1: Transaction, i2: Transaction,
                          c1: Card, c2: Card)
    requires e1.amount == 50 && e2.amount == 30 && e3.amount == 20
    requires i1.amount == 2000 && i2.amount == 500
    requires c1.credit == Some(1000) && c2.credit == Some(500)
    ensures UseTotals(Some([e1, e2, e3]), Some([i1, i2]), Some([c1, c2])).totalExpenses == 100
    ensures UseTotals(Some([e1, e2, e3]), Some([i1, i2]), Some([c1, c2])).totalIncomes == 2500
    ensures UseTotals(Some([e1, e2, e3]), Some([i1, i2]), Some([c1, c2])).totalCreditoIniziale == 1500
    ensures UseTotals(Some([e1, e2, e3]), Some([i1, i2]), Some([c1, c2])).totalCreditoAttuale == 3900
  {
    SumAmountsCons(e1, [e2, e3]);
    SumAmountsCons(e2, [e3]);
    SumAmountsCons(e3, []);
    assert [e1] + [e2, e3] == [e1, e2, e3] && [e2] + [e3] == [e2, e3] && [e3] + [] == [e3];
    SumAmountsCons(i1, [i2]);
    SumAmountsCons(i2, []);
    assert [i1] + [i2] == [i1, i2] && [i2] + [] == [i2];
    assert [c1, c2][..1] == [c1] && [c1][..0] == [];
    assert SumCredits([c1]) == 1000;
  }

  /** A calendar month as `Date` reports it: `getFullYear()` and the
      zero-based `getMonth()`. */
  datatype YearMonth = YearMonth(year: int, month: int)

  predicate ValidMonth(ym: YearMonth) {
    0 <= ym.month < 12
  }

  /** What a `Date` can report: months 0 to 11. */
  type Month = ym: YearMonth | ValidMonth(ym) witness YearMonth(0, 0)

  /** Months counted from January of year 0. */
  function MonthIndex(ym: YearMonth): int {
    ym.year * 12 + ym.month
  }

  function FromIndex(n: int): (ym: YearMonth)
    ensures ValidMonth(ym) && MonthIndex(ym) == n
  {
    YearMonth(n / 12, n % 12)
  }

  lemma IndexRoundTrip(ym: YearMonth)
    requires ValidMonth(ym)
    ensures FromIndex(MonthIndex(ym)) == ym
  {
    var n := MonthIndex(ym);
    assert n == ym.year * 12 + ym.month;
  }

  /** `d.setDate(1); d.setMonth(d.getMonth() + delta)`: with the day pinned
      to the first, moving by whole months never spills into a further month. */
  function ShiftMonths(ym: YearMonth, delta: int): (r: YearMonth)
    ensures ValidMonth(r) && MonthIndex(r) == MonthIndex(ym) + delta
  {
    FromIndex(MonthIndex(ym) + delta)
  }

  /** The calendar month after `ym`. */
  function NextMonth(ym: YearMonth): YearMonth {
    if ym.month == 11 then YearMonth(ym.year + 1, 0) else YearMonth(ym.year, ym.month + 1)
  }

  /** Moving one month further on is the next calendar month. */
  lemma ShiftOneMore(ym: YearMonth, delta: int)
    ensures ShiftMonths(ym, delta + 1) == NextMonth(ShiftMonths(ym, delta))
  {
    var r := ShiftMonths(ym, delta);
    IndexRoundTrip(NextMonth(r));
    assert MonthIndex(NextMonth(r)) == MonthIndex(r) + 1;
  }

  lemma ShiftNone(ym: YearMonth)
    requires ValidMonth(ym)
    ensures ShiftMonths(ym, 0) == ym
  {
    IndexRoundTrip(ym);
  }

  /** `String(m).padStart(2, '0')` for a month number from 1 to 12: two
      digits, reading back as that number. */
  function TwoDigits(m: int): (s: string)
    requires 1 <= m <= 12
    ensures |s| == 2 && AllDigits(s) && DigitsValue(s) == m
  {
    var s := PadStart2(NatToString(m));
    if m < 10 then
      assert s == ['0', DigitChar(m)];
      assert s[..1] == ['0'] && ['0'][..0] == [];
      s
    else
      NatToStringRoundTrip(m);
      assert NatToString(m) == NatToString(m / 10) + [DigitChar(m % 10)];
      s
  }

  /** `${d.getFullYear()}-${String(d.getMonth() + 1).padStart(2, '0')}` */
  function MonthKey(ym: YearMonth): (k: string)
    requires ValidMonth(ym)
    ensures |k| >= 4 && k[|k| - 3] == '-'
    ensures k[..|k| - 3] == IntToString(ym.year)
    ensures AllDigits(k[|k| - 2..]) && DigitsValue(k[|k| - 2..]) == ym.month + 1
  {
    var y := IntToString(ym.year);
    var mm := TwoDigits(ym.month + 1);
    var k := y + "-" + mm;
    assert k[..|k| - 3] == y;
    assert k[|k| - 2..] == mm;
    k
  }

  /** Different months have different keys. */
  lemma MonthKeyInjective(a: YearMonth, b: YearMonth)
    requires ValidMonth(a) && ValidMonth(b)
    ensures MonthKey(a) == MonthKey(b) ==> a == b
  {
    if MonthKey(a) == MonthKey(b) {
      IntToStringInjective(a.year, b.year);
    }
  }

  /** An entry of the month list; `labelText` (`label`) is the chart's x-axis text. */
  datatype MonthLabel = MonthLabel(key: string, labelText: string)

  /** `String(year).slice(2)` */
  function DropTwo(s: string): string {
    if |s| >= 2 then s[2..] else ""
  }

  /** The entry of one month; `shortMonth` stands for
      `toLocaleString('it-IT', { month: 'short' })`. */
  function Entry(ym: YearMonth, shortMonth: int -> string): MonthLabel
    requires ValidMonth(ym)
  {
    MonthLabel(MonthKey(ym), shortMonth(ym.month) + " " + DropTwo(IntToString(ym.year)))
  }

  /** The months `buildLastMonthsLabels(count)` lists: the `count` months up
      to `now`, oldest first; none for a count below one. */
  function LastMonths(now: YearMonth, count: int): (ms: seq<YearMonth>)
    ensures |ms| == if count > 0 then count else 0
    ensures forall k :: 0 <= k < |ms| ==> ms[k] == ShiftMonths(now, k - (count - 1))
  {
    if count <= 0 then [] else seq(count, k => ShiftMonths(now, k - (count - 1)))
  }

  /** The list is a run of consecutive months that ends with `now`. */
  lemma LastMonthsConsecutive(now: YearMonth, count: int)
    requires ValidMonth(now)
    ensures forall k :: 0 < k < |LastMonths(now, count)| ==>
              LastMonths(now, count)[k] == NextMonth(LastMonths(now, count)[k - 1])
    ensures count > 0 ==> LastMonths(now, count)[count - 1] == now
  {
    var ms := LastMonths(now, count);
    forall k | 0 < k < |ms| ensures ms[k] == NextMonth(ms[k - 1]) {
      ShiftOneMore(now, (k - 1) - (count - 1));
    }
    if count > 0 {
      ShiftNone(now);
    }
  }

  /** The month keys of the list are pairwise distinct. */
  lemma LastMonthsDistinctKeys(now: YearMonth, count: int, i: nat, j: nat)
    requires i < j < |LastMonths(now, count)|
    ensures MonthKey(LastMonths(now, count)[i]) != MonthKey(LastMonths(now, count)[j])
  {
    var ms := LastMonths(now, count);
    MonthKeyInjective(ms[i], ms[j]);
    assert MonthIndex(ms[i]) < MonthIndex(ms[j]);
  }

  /** `buildLastMonthsLabels` (src/pages/Dashboard.tsx:40-53). */
  method BuildLastMonthsLabels(now: YearMonth, count: int, shortMonth: int -> string) returns (arr: seq<MonthLabel>)
    requires ValidMonth(now)
    ensures |arr| == |LastMonths(now, count)|
    ensures forall k :: 0 <= k < |arr| ==> arr[k] == Entry(LastMonths(now, count)[k], shortMonth)
  {
    arr := [];
    var i := count - 1;
    while i >= 0
      invariant i <= count - 1 && (count > 0 ==> i >= -1) && (count <= 0 ==> i == count - 1)
      invariant |arr| == count - 1 - i
      invariant EntriesFrom(arr, now, count, shortMonth)
    {
      var d := ShiftMonths(now, -i);
      EntriesSnoc(arr, Entry(d, shortMonth), now, count, shortMonth);
      arr := arr + [Entry(d, shortMonth)];
      i := i - 1;
    }
  }

  /** The entries of the months up to `now`, the first `|arr|` of them. */
  ghost predicate EntriesFrom(arr: seq<MonthLabel>, now: YearMonth, count: int, shortMonth: int -> string) {
    forall k :: 0 <= k < |arr| ==> arr[k] == Entry(ShiftMonths(now, k - (count - 1)), shortMonth)
  }

  lemma EntriesSnoc(arr: seq<MonthLabel>, x: MonthLabel, now: YearMonth, count: int, shortMonth: int -> string)
    requires EntriesFrom(arr, now, count, shortMonth)
    requires x == Entry(ShiftMonths(now, |arr| - (count - 1)), shortMonth)
    ensures EntriesFrom(arr + [x], now, count, shortMonth)
  {
    forall k | 0 <= k < |arr| + 1
      ensures (arr + [x])[k] == Entry(ShiftMonths(now, k - (count - 1)), shortMonth)
    {
      if k < |arr| {
        assert (arr + [x])[k] == arr[k];
      }
    }
  }

  /** `parseDateSafe` (src/pages/Dashboard.tsx:32-38): an empty date gives
      nothing; `parseDate` stands for the rest, `Number` or `new Date` and
      the `isNaN` check, giving the local month of a date it accepts. */
  function ParseDateSafe(value: string, parseDate: string -> Option<Month>): (r: Option<Month>)
    ensures value == "" ==> r.None?
    ensures value != "" ==> r == parseDate(value)
  {
    if value == "" then None else parseDate(value)
  }

  /** The bucket an item goes to, if its date parses. */
  function MonthOf(e: Transaction, parseDate: string -> Option<Month>): Option<string> {
    match ParseDateSafe(e.date, parseDate)
    case None => None
    case Some(ym) => Some(MonthKey(ym))
  }

  lemma MonthOfParsed(e: Transaction, parseDate: string -> Option<Month>)
    requires ParseDateSafe(e.date, parseDate).Some?
    ensures MonthOf(e, parseDate).Some? && MonthOf(e, parseDate).value == MonthKey(ParseDateSafe(e.date, parseDate).value)
  {
  }

  function InMonth(key: string, parseDate: string -> Option<Month>): Transaction -> bool {
    e => MonthOf(e, parseDate) == Some(key)
  }

  function Parsed(parseDate: string -> Option<Month>): Transaction -> bool {
    e => MonthOf(e, parseDate).Some?
  }

  /** The amount of the items of one month. */
  function MonthTotal(items: seq<Transaction>, parseDate: string -> Option<Month>, key: string): int {
    SumAmounts(Filter(items, InMonth(key, parseDate)))
  }

  /** Some item falls in the month `key`. */
  ghost predicate HasMonth(items: seq<Transaction>, parseDate: string -> Option<Month>, key: string) {
    exists i :: 0 <= i < |items| && MonthOf(items[i], parseDate) == Some(key)
  }

  /** No item of the month: the bucket would hold 0. */
  lemma NoItemsNoTotal(items: seq<Transaction>, parseDate: string -> Option<Month>, key: string)
    requires !HasMonth(items, parseDate, key)
    ensures MonthTotal(items, parseDate, key) == 0
  {
    FilterNone(items, InMonth(key, parseDate));
  }

  /** One more item adds its amount to its own month only. */
  lemma MonthTotalSnoc(items: seq<Transaction>, e: Transaction, parseDate: string -> Option<Month>, key: string)
    ensures MonthTotal(items + [e], parseDate, key)
            == MonthTotal(items, parseDate, key) + (if MonthOf(e, parseDate) == Some(key) then e.amount else 0)
  {
    FilterSnoc(items, e, InMonth(key, parseDate));
    SumAmountsAppend(Filter(items, InMonth(key, parseDate)), [e]);
    assert [e][..0] == [];
  }

  lemma HasMonthSnoc(items: seq<Transaction>, e: Transaction, parseDate: string -> Option<Month>, key: string)
    ensures HasMonth(items + [e], parseDate, key) <==> HasMonth(items, parseDate, key) || MonthOf(e, parseDate) == Some(key)
  {
    var s := items + [e];
    if HasMonth(s, parseDate, key) {
      var i :| 0 <= i < |s| && MonthOf(s[i], parseDate) == Some(key);
      if i < |items| {
        assert s[i] == items[i];
      }
    }
    if HasMonth(items, parseDate, key) {
      var i :| 0 <= i < |items| && MonthOf(items[i], parseDate) == Some(key);
      assert s[i] == items[i];
    }
    if MonthOf(e, parseDate) == Some(key) {
      assert s[|items|] == e;
    }
  }

  /** What the bucket map holds after the items `items`. */
  ghost predicate Buckets(m: map<string, int>, items: seq<Transaction>, parseDate: string -> Option<Month>) {
    && (forall k :: k in m <==> HasMonth(items, parseDate, k))
    && (forall k :: k in m ==> m[k] == MonthTotal(items, parseDate, k))
  }

  /** `aggregateByMonth` (src/pages/Dashboard.tsx:55-65): no list gives no
      buckets; otherwise a bucket per month that has an item, holding the
      sum of that month's amounts. */
  method AggregateByMonth(items: Option<seq<Transaction>>, parseDate: string -> Option<Month>) returns (m: map<string, int>)
    ensures items.None? ==> m == map[]
    ensures items.Some? ==> Buckets(m, items.value, parseDate)
  {
    m := map[];
    if items.None? {
      return;
    }
    var s := items.value;
    var i := 0;
    while i < |s|
      invariant 0 <= i <= |s|
      invariant Buckets(m, s[..i], parseDate)
    {
      m := AddToBucket(m, s[..i], s[i], parseDate);
      assert s[..i + 1] == s[..i] + [s[i]];
      i := i + 1;
    }
    assert s[..|s|] == s;
  }

  /** One turn of the loop: `map[key] = (map[key] ?? 0) + (it.amount || 0)`,
      or nothing for an item whose date does not parse. */
  method AddToBucket(m: map<string, int>, items: seq<Transaction>, it: Transaction, parseDate: string -> Option<Month>)
    returns (m': map<string, int>)
    requires Buckets(m, items, parseDate)
    ensures Buckets(m', items + [it], parseDate)
  {
    var d := ParseDateSafe(it.date, parseDate);
    if d.None? {
      m' := m;
      BucketsUnchanged(m, items, it, parseDate);
      return;
    }
    var key := MonthKey(d.value);
    MonthOfParsed(it, parseDate);
    var prior := if key in m then m[key] else 0;
    BucketBefore(m, items, parseDate, key);
    m' := m[key := prior + it.amount];
    BucketsAdded(m, items, it, parseDate, key, prior, m');
  }

  lemma BucketsUnchanged(m: map<string, int>, items: seq<Transaction>, e: Transaction, parseDate: string -> Option<Month>)
    requires Buckets(m, items, parseDate) && MonthOf(e, parseDate).None?
    ensures Buckets(m, items + [e], parseDate)
  {
    forall k ensures (k in m <==> HasMonth(items + [e], parseDate, k)) && (k in m ==> m[k] == MonthTotal(items + [e], parseDate, k)) {
      HasMonthSnoc(items, e, parseDate, k);
      MonthTotalSnoc(items, e, parseDate, k);
    }
  }

  /** `map[key] ?? 0` is the amount of the month so far. */
  lemma BucketBefore(m: map<string, int>, items: seq<Transaction>, parseDate: string -> Option<Month>, key: string)
    requires Buckets(m, items, parseDate)
    ensures (if key in m then m[key] else 0) == MonthTotal(items, parseDate, key)
  {
    if key !in m {
      NoItemsNoTotal(items, parseDate, key);
    }
  }

  lemma BucketsAdded(m: map<string, int>, items: seq<Transaction>, e: Transaction, parseDate: string -> Option<Month>,
                     key: string, prior: int, m': map<string, int>)
    requires Buckets(m, items, parseDate) && MonthOf(e, parseDate).Some? && MonthOf(e, parseDate).value == key
    requires prior == MonthTotal(items, parseDate, key) && m' == m[key := prior + e.amount]
    ensures Buckets(m', items + [e], parseDate)
  {
    forall k ensures (k in m' <==> HasMonth(items + [e], parseDate, k)) && (k in m' ==> m'[k] == MonthTotal(items + [e], parseDate, k)) {
      BucketAddedAt(m, items, e, parseDate, key, prior, m', k);
    }
  }

  lemma BucketAddedAt(m: map<string, int>, items: seq<Transaction>, e: Transaction, parseDate: string -> Option<Month>,
                      key: string, prior: int, m': map<string, int>, k: string)
    requires k in m <==> HasMonth(items, parseDate, k)
    requires k in m ==> m[k] == MonthTotal(items, parseDate, k)
    requires MonthOf(e, parseDate).Some? && MonthOf(e, parseDate).value == key
    requires prior == MonthTotal(items, parseDate, key) && m' == m[key := prior + e.amount]
    ensures k in m' <==> HasMonth(items + [e], parseDate, k)
    ensures k in m' ==> m'[k] == MonthTotal(items + [e], parseDate, k)
  {
    HasMonthSnoc(items, e, parseDate, k);
    MonthTotalSnoc(items, e, parseDate, k);
  }

  /** The buckets of the keys `ks`, added up. */
  function SumTotals(items: seq<Transaction>, parseDate: string -> Option<Month>, ks: seq<string>): int {
    if ks == [] then 0 else SumTotals(items, parseDate, ks[..|ks| - 1]) + MonthTotal(items, parseDate, ks[|ks| - 1])
  }

  lemma {:induction false} SumTotalsSnoc(items: seq<Transaction>, e: Transaction, parseDate: string -> Option<Month>, ks: seq<string>)
    requires NoDup(ks)
    ensures SumTotals(items + [e], parseDate, ks)
            == SumTotals(items, parseDate, ks) + (if MonthOf(e, parseDate).Some? && MonthOf(e, parseDate).value in ks then e.amount else 0)
  {
    if ks != [] {
      var init := ks[..|ks| - 1];
      var last := ks[|ks| - 1];
      assert ks == init + [last];
      assert NoDup(init);
      assert last !in init;
      SumTotalsSnoc(items, e, parseDate, init);
      MonthTotalSnoc(items, e, parseDate, last);
    }
  }

  /** Over any duplicate-free list of keys that covers every month with an
      item, the buckets add up to the amount of the items whose date parses. */
  lemma {:induction false} BucketsAddUp(items: seq<Transaction>, parseDate: string -> Option<Month>, ks: seq<string>)
    requires NoDup(ks)
    requires forall i :: 0 <= i < |items| && MonthOf(items[i], parseDate).Some? ==> MonthOf(items[i], parseDate).value in ks
    ensures SumTotals(items, parseDate, ks) == SumAmounts(Filter(items, Parsed(parseDate)))
    decreases |items|
  {
    if items == [] {
      SumTotalsEmpty(parseDate, ks);
    } else {
      var init := items[..|items| - 1];
      var e := items[|items| - 1];
      assert items == init + [e];
      assert forall i :: 0 <= i < |init| ==> init[i] == items[i];
      BucketsAddUp(init, parseDate, ks);
      SumTotalsSnoc(init, e, parseDate, ks);
      ParsedSnoc(init, e, parseDate);
    }
  }

  lemma ParsedSnoc(items: seq<Transaction>, e: Transaction, parseDate: string -> Option<Month>)
    ensures SumAmounts(Filter(items + [e], Parsed(parseDate)))
            == SumAmounts(Filter(items, Parsed(parseDate))) + (if MonthOf(e, parseDate).Some? then e.amount else 0)
  {
    FilterSnoc(items, e, Parsed(parseDate));
    SumAmountsAppend(Filter(items, Parsed(parseDate)), [e]);
    assert [e][..0] == [];
  }

  lemma {:induction false} SumTotalsEmpty(parseDate: string -> Option<Month>, ks: seq<string>)
    ensures SumTotals([], parseDate, ks) == 0
  {
    if ks != [] {
      SumTotalsEmpty(parseDate, ks[..|ks| - 1]);
    }
  }

  /** `months.map(m => byMonth[m.key] ?? 0)` (src/pages/Dashboard.tsx:131-133). */
  function Series(months: seq<MonthLabel>, byMonth: map<string, int>): (r: seq<int>)
    ensures |r| == |months|
  {
    seq(|months|, i requires 0 <= i < |months| => if months[i].key in byMonth then byMonth[months[i].key] else 0)
  }

  /** Read from the buckets, each point of a series is the amount of its
      month; a month without items shows 0. */
  lemma SeriesIsMonthTotals(months: seq<MonthLabel>, m: map<string, int>, items: seq<Transaction>, parseDate: string -> Option<Month>)
    requires Buckets(m, items, parseDate)
    ensures forall i :: 0 <= i < |months| ==> Series(months, m)[i] == MonthTotal(items, parseDate, months[i].key)
  {
    forall i | 0 <= i < |months| ensures Series(months, m)[i] == MonthTotal(items, parseDate, months[i].key) {
      if months[i].key !in m {
        NoItemsNoTotal(items, parseDate, months[i].key);
      }
    }
  }
}
