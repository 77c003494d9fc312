/** The rank of an expense identifier (src/pages/Expenses.tsx, `idRank`)
    and the stable sort by rank that orders each card's expenses before the
    running balance is accumulated. */
module Rank {
  import opened Common
  import opened Seqs
  import opened Text

  /** `idRank` returns a number or, when the id holds no digit, the id itself. */
  datatype RankKey = Num(n: nat) | Str(s: string)

  /** The characters `.` does not match in a JavaScript regular expression. */
  predicate IsLineTerminator(c: char) {
    c == '\n' || c == '\r' || c == '\U{2028}' || c == '\U{2029}'
  }

  /** Length of the maximal run of digits starting at `p` (the greedy `\d+`). */
  function RunLength(s: string, p: nat): (k: nat)
    requires p <= |s|
    ensures p + k <= |s|
    ensures forall i :: p <= i < p + k ==> IsDigit(s[i])
    ensures p + k == |s| || !IsDigit(s[p + k])
    decreases |s| - p
  {
    if p < |s| && IsDigit(s[p]) then 1 + RunLength(s, p + 1) else 0
  }

  /** The lookahead `(?!.*\d)` at `p`: no digit before the next line terminator. */
  predicate NoDigitOnLine(s: string, p: nat)
    requires p <= |s|
    decreases |s| - p
  {
    p == |s| || IsLineTerminator(s[p]) || (!IsDigit(s[p]) && NoDigitOnLine(s, p + 1))
  }

  /** `/(\d+)(?!.*\d)/.exec(s)` searched from position `p`: the leftmost start
      whose greedy digit run passes the lookahead. Backtracking to a shorter
      run never succeeds, because the character after it is a digit. */
  function MatchFrom(s: string, p: nat): (r: Option<string>)
    requires p <= |s|
    ensures r.Some? ==> r.value != [] && AllDigits(r.value)
    decreases |s| - p
  {
    if p == |s| then None
    else if IsDigit(s[p]) && NoDigitOnLine(s, p + RunLength(s, p)) then Some(s[p..p + RunLength(s, p)])
    else MatchFrom(s, p + 1)
  }

  /** `m?.[1]`: the digits matched in the whole id. */
  function LastDigits(id: string): Option<string> {
    MatchFrom(id, 0)
  }

  predicate HasDigit(s: string) {
    exists i :: 0 <= i < |s| && IsDigit(s[i])
  }

  /** `idRank` (src/pages/Expenses.tsx:160-167). */
  function IdRank(id: Option<string>): (r: RankKey)
    ensures id.None? || id == Some("") ==> r == Num(0)
    ensures id.Some? && id.value != "" && !HasDigit(id.value) ==> r == Str(id.value)
    ensures id.Some? && HasDigit(id.value) ==>
              (r.Num? && LastDigits(id.value).Some? && r.n == DigitsValue(LastDigits(id.value).value))
  {
    match id
    case None => Num(0)
    case Some(s) =>
      if s == "" then Num(0)
      else
        MatchIffDigit(s, 0);
        match LastDigits(s)
        case Some(d) => Num(DigitsValue(d))
        case None => Str(s)
  }

  /** A failed lookahead means a digit follows. */
  lemma {:induction false} DigitAfterFailedLookahead(s: string, p: nat)
    requires p <= |s| && !NoDigitOnLine(s, p)
    ensures exists i :: p <= i < |s| && IsDigit(s[i])
    decreases |s| - p
  {
    if !IsDigit(s[p]) {
      DigitAfterFailedLookahead(s, p + 1);
    }
  }

  /** The search finds something exactly when a digit occurs from `p` on. */
  lemma {:induction false} MatchIffDigit(s: string, p: nat)
    requires p <= |s|
    ensures MatchFrom(s, p).Some? <==> exists i :: p <= i < |s| && IsDigit(s[i])
    decreases |s| - p
  {
    if p < |s| {
      MatchIffDigit(s, p + 1);
      if IsDigit(s[p]) && !NoDigitOnLine(s, p + RunLength(s, p)) {
        DigitAfterFailedLookahead(s, p + RunLength(s, p));
      }
    }
  }

  /** `s[a..b]` is the last maximal run of digits in `s`. */
  predicate IsLastDigitRun(s: string, a: nat, b: nat) {
    && a < b <= |s|
    && (forall i :: a <= i < b ==> IsDigit(s[i]))
    && (a == 0 || !IsDigit(s[a - 1]))
    && (forall i :: b <= i < |s| ==> !IsDigit(s[i]))
  }

  predicate SingleLine(s: string) {
    forall i :: 0 <= i < |s| ==> !IsLineTerminator(s[i])
  }

  /** On one line the lookahead just says that no digit follows. */
  lemma {:induction false} LookaheadOnLine(s: string, p: nat)
    requires p <= |s| && SingleLine(s)
    ensures NoDigitOnLine(s, p) <==> forall i :: p <= i < |s| ==> !IsDigit(s[i])
    decreases |s| - p
  {
    if p < |s| {
      LookaheadOnLine(s, p + 1);
    }
  }

  lemma {:induction false} MatchFromBeforeLastRun(s: string, p: nat, a: nat, b: nat)
    requires SingleLine(s) && IsLastDigitRun(s, a, b) && p <= a
    ensures MatchFrom(s, p) == Some(s[a..b])
    decreases a - p
  {
    if p == a {
      assert RunLength(s, a) == b - a by {
        RunFromTo(s, a, b);
      }
      LookaheadOnLine(s, b);
    } else if IsDigit(s[p]) {
      var e := p + RunLength(s, p);
      assert !IsDigit(s[a - 1]);
      assert e < a;
      LookaheadOnLine(s, e);
      assert IsDigit(s[a]);
      MatchFromBeforeLastRun(s, p + 1, a, b);
    } else {
      MatchFromBeforeLastRun(s, p + 1, a, b);
    }
  }

  lemma {:induction false} RunFromTo(s: string, a: nat, b: nat)
    requires a <= b <= |s|
    requires forall i :: a <= i < b ==> IsDigit(s[i])
    requires b == |s| || !IsDigit(s[b])
    ensures RunLength(s, a) == b - a
    decreases b - a
  {
    if a < b {
      RunFromTo(s, a + 1, b);
    }
  }

  lemma LastRunExists(s: string)
    requires HasDigit(s)
    ensures exists a, b :: IsLastDigitRun(s, a, b)
  {
    var b := |s|;
    while b > 0 && !IsDigit(s[b - 1])
      invariant 0 <= b <= |s|
      invariant forall i :: b <= i < |s| ==> !IsDigit(s[i])
    {
      b := b - 1;
    }
    var a := b - 1;
    while a > 0 && IsDigit(s[a - 1])
      invariant 0 <= a < b
      invariant forall i :: a <= i < b ==> IsDigit(s[i])
    {
      a := a - 1;
    }
    assert IsLastDigitRun(s, a, b);
  }

  /** For an id on a single line (every id the server issues) the rank is
      the value of the last maximal run of digits: `"e12"` ranks 12 and
      `"a7b0"` ranks 0. */
  lemma SingleLineRank(s: string)
    requires SingleLine(s) && HasDigit(s)
    ensures exists a: nat, b: nat :: IsLastDigitRun(s, a, b) && IdRank(Some(s)) == Num(DigitsValue(s[a..b]))
  {
    LastRunExists(s);
    var a, b :| IsLastDigitRun(s, a, b);
    MatchFromBeforeLastRun(s, 0, a, b);
  }

  /** Because `.` stops at a line terminator, an id spread over several lines
      ranks by the last digits of its first line that has any. */
  lemma FirstLineWins()
    ensures IdRank(Some("a1\nb2")) == Num(1)
  {
    var s := "a1\nb2";
    assert NoDigitOnLine(s, 2);
    assert RunLength(s, 1) == 1;
    assert s[1..2] == "1";
    assert MatchFrom(s, 1) == Some("1");
    assert LastDigits(s) == Some("1");
    assert DigitsValue("1") == 1;
  }

  /** The string form a rank takes in `String(ra).localeCompare(String(rb))`. */
  function RankString(r: RankKey): string {
    match r
    case Num(n) => NatToString(n)
    case Str(s) => s
  }

  /** The sort comparator (src/pages/Expenses.tsx:180-186): numeric difference
      when both ranks are numbers, otherwise a comparison of their strings.
      `localeCompare` is taken as plain code-point order. */
  function CompareRanks(a: RankKey, b: RankKey): (r: int)
    ensures a.Num? && b.Num? ==> (r <= 0 <==> a.n <= b.n) && (r == 0 <==> a.n == b.n)
    ensures !(a.Num? && b.Num?) ==> (r == 0 <==> RankString(a) == RankString(b))
    ensures a.Num? && b.Str? && b.s != [] && !IsDigit(b.s[0]) ==> (r <= 0 <==> b.s[0] > '9')
    ensures a.Str? && b.Num? && a.s != [] && !IsDigit(a.s[0]) ==> (r <= 0 <==> a.s[0] < '0')
  {
    LexCompareZero(RankString(a), RankString(b));
    if a.Num? && b.Num? then a.n - b.n else LexCompare(RankString(a), RankString(b))
  }

  /** The ranks `idRank` returns: a number, or a non-empty string without
      a digit. */
  predicate RankShape(k: RankKey) {
    k.Num? || (k.s != "" && !HasDigit(k.s))
  }

  function RankOf(e: Transaction): (k: RankKey)
    ensures RankShape(k)
  {
    IdRank(e.id)
  }

  /** Inserts `x` before the first element that does not rank strictly below it. */
  function InsertByRank(x: Transaction, t: seq<Transaction>): (r: seq<Transaction>)
    ensures multiset(r) == multiset(t) + multiset{x}
  {
    if t == [] then [x]
    else if CompareRanks(RankOf(x), RankOf(t[0])) <= 0 then [x] + t
    else
      var rest := InsertByRank(x, t[1..]);
      assert t == [t[0]] + t[1..];
      [t[0]] + rest
  }

  /** `slice().sort(cmp)`: a stable insertion sort by rank. */
  function SortByRank(s: seq<Transaction>): (r: seq<Transaction>)
    ensures multiset(r) == multiset(s)
    ensures |r| == |s|
  {
    if s == [] then []
    else
      assert s == [s[0]] + s[1..];
      InsertByRank(s[0], SortByRank(s[1..]))
  }

  predicate SortedByRank(s: seq<Transaction>) {
    forall i, j :: 0 <= i < j < |s| ==> CompareRanks(RankOf(s[i]), RankOf(s[j])) <= 0
  }

  lemma CompareAntisymmetric(a: RankKey, b: RankKey)
    ensures CompareRanks(a, b) == -CompareRanks(b, a)
  {
    LexCompareAntisymmetric(RankString(a), RankString(b));
  }

  lemma CompareReflexive(a: RankKey)
    ensures CompareRanks(a, a) == 0
  {
    LexCompareZero(RankString(a), RankString(a));
  }

  /** Over the ranks `idRank` returns the comparator is transitive, also
      across kinds: a string rank starts with a character below `'0'`, and
      then sorts before every number, or above `'9'`, and then after. */
  lemma CompareTransitive(a: RankKey, b: RankKey, c: RankKey)
    requires RankShape(a) && RankShape(b) && RankShape(c)
    requires CompareRanks(a, b) <= 0 && CompareRanks(b, c) <= 0
    ensures CompareRanks(a, c) <= 0
  {
    if a.Str? && b.Str? && c.Str? {
      LexCompareTransitive(a.s, b.s, c.s);
    } else if a.Str? && c.Str? {
      assert !IsDigit(a.s[0]) && !IsDigit(c.s[0]);
    } else if a.Str? {
      assert !IsDigit(a.s[0]);
      if b.Str? {
        assert !IsDigit(b.s[0]);
        LexCompareHead(a.s, b.s);
      }
    } else if c.Str? {
      assert !IsDigit(c.s[0]);
      if b.Str? {
        assert !IsDigit(b.s[0]);
        LexCompareHead(b.s, c.s);
      }
    }
  }

  lemma {:induction false} InsertSorted(x: Transaction, t: seq<Transaction>)
    requires SortedByRank(t)
    ensures SortedByRank(InsertByRank(x, t))
    decreases |t|
  {
    if t != [] {
      if CompareRanks(RankOf(x), RankOf(t[0])) <= 0 {
        SortedInFront(x, t);
      } else {
        InsertSorted(x, t[1..]);
        CompareAntisymmetric(RankOf(x), RankOf(t[0]));
        SortedBehindHead(x, t);
      }
    }
  }

  /** `x` placed in front of a sorted group it does not rank above. */
  lemma SortedInFront(x: Transaction, t: seq<Transaction>)
    requires SortedByRank(t)
    requires t != [] && CompareRanks(RankOf(x), RankOf(t[0])) <= 0
    ensures SortedByRank([x] + t)
  {
    var r := [x] + t;
    forall i, j | 0 <= i < j < |r| ensures CompareRanks(RankOf(r[i]), RankOf(r[j])) <= 0 {
      if i == 0 && j > 1 {
        assert r[0] == x && r[1] == t[0] && r[j] == t[j - 1];
        CompareTransitive(RankOf(x), RankOf(t[0]), RankOf(t[j - 1]));
      }
    }
  }

  /** The head of `t`, ranked at most `x` and at most the rest of `t`, in
      front of the sorted insertion of `x` into that rest. */
  lemma SortedBehindHead(x: Transaction, t: seq<Transaction>)
    requires SortedByRank(t) && t != []
    requires CompareRanks(RankOf(t[0]), RankOf(x)) <= 0
    requires SortedByRank(InsertByRank(x, t[1..]))
    ensures SortedByRank([t[0]] + InsertByRank(x, t[1..]))
  {
    var rest := InsertByRank(x, t[1..]);
    var r := [t[0]] + rest;
    forall i, j | 0 <= i < j < |r| ensures CompareRanks(RankOf(r[i]), RankOf(r[j])) <= 0 {
      if i == 0 {
        var y := r[j];
        assert y in multiset(rest);
        assert y == x || y in t[1..];
      }
    }
  }

  /** The sort orders every group by rank. */
  lemma {:induction false} SortByRankSorted(s: seq<Transaction>)
    ensures SortedByRank(SortByRank(s))
  {
    if s != [] {
      SortByRankSorted(s[1..]);
      InsertSorted(s[0], SortByRank(s[1..]));
    }
  }

  /** Expenses of equal rank. */
  function WithRank(k: RankKey): Transaction -> bool {
    e => RankOf(e) == k
  }

  lemma {:induction false} InsertStable(x: Transaction, t: seq<Transaction>, k: RankKey)
    ensures Filter(InsertByRank(x, t), WithRank(k)) == (if RankOf(x) == k then [x] else []) + Filter(t, WithRank(k))
    decreases |t|
  {
    if t == [] {
      FilterCons(x, [], WithRank(k));
      assert [x] + [] == [x];
    } else if CompareRanks(RankOf(x), RankOf(t[0])) <= 0 {
      FilterCons(x, t, WithRank(k));
    } else {
      InsertStable(x, t[1..], k);
      InsertPastHead(x, t, k);
    }
  }

  /** `x` inserted past the head of `t`: the head ranks differently from `x`,
      so the expenses of rank `k` keep their order. */
  lemma InsertPastHead(x: Transaction, t: seq<Transaction>, k: RankKey)
    requires t != [] && CompareRanks(RankOf(x), RankOf(t[0])) > 0
    requires Filter(InsertByRank(x, t[1..]), WithRank(k)) == (if RankOf(x) == k then [x] else []) + Filter(t[1..], WithRank(k))
    ensures Filter(InsertByRank(x, t), WithRank(k)) == (if RankOf(x) == k then [x] else []) + Filter(t, WithRank(k))
  {
    InsertUnfold(x, t);
    NotBothRank(x, t[0], k);
    FilterPastHead(t[0], x, InsertByRank(x, t[1..]), t[1..], WithRank(k));
    HeadTail(t);
  }

  lemma InsertUnfold(x: Transaction, t: seq<Transaction>)
    requires t != [] && CompareRanks(RankOf(x), RankOf(t[0])) > 0
    ensures InsertByRank(x, t) == [t[0]] + InsertByRank(x, t[1..])
  {
  }

  /** Two expenses that compare unequal cannot both have rank `k`. */
  lemma NotBothRank(x: Transaction, y: Transaction, k: RankKey)
    requires CompareRanks(RankOf(x), RankOf(y)) > 0
    ensures !(WithRank(k)(y) && WithRank(k)(x))
  {
    CompareReflexive(RankOf(x));
  }


  /** The sort is stable: expenses of equal rank keep their input order. */
  lemma {:induction false} SortByRankStable(s: seq<Transaction>, k: RankKey)
    ensures Filter(SortByRank(s), WithRank(k)) == Filter(s, WithRank(k))
  {
    if s != [] {
      SortByRankStable(s[1..], k);
      InsertStable(s[0], SortByRank(s[1..]), k);
    }
  }
}
