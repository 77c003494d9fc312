/** The checkbox selection kept by the expense and income tables: a list of
    ids in the order the user ticked them. */
module Selection {
  import opened Seqs

  /** `prev.filter(i => i !== x)`: every occurrence of `x` removed, the
      other entries kept with their multiplicities and in their order. */
  function RemoveAll<T(==,!new)>(s: seq<T>, x: T): (r: seq<T>)
    ensures x !in r
    ensures forall y :: y != x ==> multiset(r)[y] == multiset(s)[y]
    ensures IsSubsequence(r, s)
  {
    var r := Filter(s, y => y != x);
    FilterIsSubsequence(s, y => y != x);
    CountsAfterRemoval(s, x);
    r
  }

  lemma {:induction false} CountsAfterRemoval<T(!new)>(s: seq<T>, x: T)
    ensures forall y :: y != x ==> multiset(Filter(s, z => z != x))[y] == multiset(s)[y]
  {
    if s != [] {
      CountsAfterRemoval(s[1..], x);
      assert s == [s[0]] + s[1..];
      assert multiset(s) == multiset{s[0]} + multiset(s[1..]);
    }
  }

  /** `handleSelect`: an id already selected is removed everywhere, an id
      not yet selected is appended at the end. */
  function Toggle<T(==,!new)>(sel: seq<T>, x: T): (r: seq<T>)
    ensures x in sel ==> x !in r && forall y :: y != x ==> multiset(r)[y] == multiset(sel)[y]
    ensures x in sel ==> IsSubsequence(r, sel)
    ensures x !in sel ==> r == sel + [x]
    ensures x in r <==> x !in sel
  {
    if x in sel then RemoveAll(sel, x) else sel + [x]
  }

  /** Removing something absent changes nothing. */
  lemma {:induction false} RemoveAbsent<T(!new)>(s: seq<T>, x: T)
    requires x !in s
    ensures RemoveAll(s, x) == s
  {
    FilterAll(s, y => y != x);
  }

  /** Ticking an unselected id and then unticking it restores the selection exactly. */
  lemma ToggleTwiceAbsent<T(!new)>(sel: seq<T>, x: T)
    requires x !in sel
    ensures Toggle(Toggle(sel, x), x) == sel
  {
    FilterAppend(sel, [x], y => y != x);
    RemoveAbsent(sel, x);
    assert Filter([x], y => y != x) == [];
  }

  /** Unticking a selected id and ticking it again keeps the same entries
      and keeps a duplicate-free selection duplicate-free, but moves that
      id to the end: the selection is restored exactly only when the id was
      the last one ticked. */
  lemma ToggleTwicePresent<T(!new)>(sel: seq<T>, x: T)
    requires NoDup(sel) && x in sel
    ensures Toggle(Toggle(sel, x), x) == RemoveAll(sel, x) + [x]
    ensures multiset(Toggle(Toggle(sel, x), x)) == multiset(sel)
    ensures NoDup(Toggle(Toggle(sel, x), x))
    ensures Toggle(Toggle(sel, x), x) == sel <==> sel[|sel| - 1] == x
  {
    var once := RemoveAll(sel, x);
    assert Toggle(sel, x) == once;
    assert Toggle(once, x) == once + [x];
    ReappendMultiset(sel, x);
    ReappendNoDup(sel, x);
    if sel[|sel| - 1] == x {
      ReappendLast(sel, x);
    }
  }

  lemma ReappendMultiset<T(!new)>(sel: seq<T>, x: T)
    requires NoDup(sel) && x in sel
    ensures multiset(RemoveAll(sel, x) + [x]) == multiset(sel)
  {
    var once := RemoveAll(sel, x);
    var i :| 0 <= i < |sel| && sel[i] == x;
    NoDupSplit(sel, i);
    forall y ensures multiset(once + [x])[y] == multiset(sel)[y] {
      if y != x {
        assert multiset(once + [x])[y] == multiset(once)[y];
      }
    }
  }

  lemma ReappendNoDup<T(!new)>(sel: seq<T>, x: T)
    requires NoDup(sel)
    ensures NoDup(RemoveAll(sel, x) + [x])
  {
    var once := RemoveAll(sel, x);
    var r := once + [x];
    FilterNoDup(sel, y => y != x);
    forall a, b | 0 <= a < b < |r| ensures r[a] != r[b] {
      if b == |r| - 1 {
        assert r[a] in once;
      } else {
        assert r[a] == once[a] && r[b] == once[b];
      }
    }
  }

  lemma ReappendLast<T(!new)>(sel: seq<T>, x: T)
    requires NoDup(sel) && sel != [] && sel[|sel| - 1] == x
    ensures RemoveAll(sel, x) + [x] == sel
  {
    var n := |sel| - 1;
    assert sel == sel[..n] + [x];
    assert x !in sel[..n];
    FilterAppend(sel[..n], [x], y => y != x);
    RemoveAbsent(sel[..n], x);
    assert Filter([x], y => y != x) == [];
  }

  /** In a duplicate-free sequence each element occurs exactly once. */
  lemma NoDupSplit<T>(s: seq<T>, i: nat)
    requires NoDup(s) && i < |s|
    ensures multiset(s)[s[i]] == 1
  {
    assert s == s[..i] + [s[i]] + s[i + 1..];
    assert s[i] !in s[..i];
    assert s[i] !in s[i + 1..];
    assert multiset(s) == multiset(s[..i]) + multiset{s[i]} + multiset(s[i + 1..]);
  }
}
