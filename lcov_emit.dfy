/** The output half of scripts/merge-lcov.mjs: every file of the merged map
    written as an LCOV record (`SF:`, its `DA:` lines in line order, `LF:`,
    `LH:`, `end_of_record`), with the line totals the script reports. */
module LcovEmit {
  import opened Seqs
  import opened Text
  import opened LcovText
  import opened Lcov

  /** Strictly increasing: sorted and without repeats. */
  predicate Increasing(ks: seq<nat>) {
    forall i, j :: 0 <= i < j < |ks| ==> ks[i] < ks[j]
  }

  lemma {:induction false} LeastElement(s: set<nat>) returns (x: nat)
    requires s != {}
    ensures x in s && forall y :: y in s ==> x <= y
    decreases |s|
  {
    var y :| y in s;
    var rest := s - {y};
    if rest == {} {
      x := y;
      forall w | w in s ensures x <= w {
        assert w !in rest;
      }
    } else {
      var z := LeastElement(rest);
      x := if y < z then y else z;
      forall w | w in s ensures x <= w {
        if w != y {
          assert w in rest;
        }
      }
    }
  }

  lemma MinExists(s: set<nat>)
    requires s != {}
    ensures exists x :: x in s && forall y :: y in s ==> x <= y
  {
    var x := LeastElement(s);
  }

  /** The least element of a non-empty set of line numbers. */
  function MinOf(s: set<nat>): (x: nat)
    requires s != {}
    ensures x in s && forall y :: y in s ==> x <= y
  {
    MinExists(s);
    var x :| x in s && forall y :: y in s ==> x <= y; x
  }

  /** The line numbers of a map in ascending order, as
      `Array.from(m.entries()).sort((a, b) => a[0] - b[0])` lists them. */
  function SortedKeys(s: set<nat>): (ks: seq<nat>)
    ensures |ks| == |s|
    ensures forall k :: k in ks <==> k in s
    ensures Increasing(ks)
    decreases s
  {
    if s == {} then []
    else
      var x := MinOf(s);
      assert |s - {x}| == |s| - 1;
      [x] + SortedKeys(s - {x})
  }

  lemma FirstIsLeast(s: seq<nat>, x: nat)
    requires Increasing(s) && x in s
    ensures s[0] <= x
  {
    var i :| 0 <= i < |s| && s[i] == x;
    if i > 0 {
      assert s[0] < s[i];
    }
  }

  /** In an ascending listing the tail holds all but the first element. */
  lemma TailMembers(s: seq<nat>, k: nat)
    requires Increasing(s) && s != []
    ensures k in s[1..] <==> k in s && k != s[0]
  {
    if k in s[1..] {
      var i :| 0 <= i < |s| - 1 && s[1..][i] == k;
      assert s[i + 1] == k && s[0] < s[i + 1];
    }
    if k in s && k != s[0] {
      var i :| 0 <= i < |s| && s[i] == k;
      assert s[1..][i - 1] == k;
    }
  }

  /** An ascending listing of a set is unique: any other one is `SortedKeys`. */
  lemma {:induction false} IncreasingUnique(a: seq<nat>, b: seq<nat>)
    requires Increasing(a) && Increasing(b)
    requires forall k :: k in a <==> k in b
    ensures a == b
  {
    assert a != [] ==> a[0] in b;
    assert b != [] ==> b[0] in a;
    if a != [] && b != [] {
      FirstIsLeast(a, b[0]);
      FirstIsLeast(b, a[0]);
      forall k ensures k in a[1..] <==> k in b[1..] {
        TailMembers(a, k);
        TailMembers(b, k);
      }
      IncreasingUnique(a[1..], b[1..]);
      assert a == [a[0]] + a[1..] && b == [b[0]] + b[1..];
    }
  }

  /** `entries.reduce((acc, [, hits]) => acc + (hits > 0 ? 1 : 0), 0)`:
      how many of the listed lines were hit at least once. */
  function CountHits(ks: seq<nat>, m: LineHits): (n: nat)
    requires forall k :: k in ks ==> k in m
    ensures n <= |ks|
    ensures n == |ks| <==> forall i :: 0 <= i < |ks| ==> m[ks[i]] > 0
    ensures n == 0 <==> forall i :: 0 <= i < |ks| ==> m[ks[i]] == 0
  {
    if ks == [] then 0
    else
      var init := ks[..|ks| - 1];
      assert forall i :: 0 <= i < |init| ==> init[i] == ks[i];
      CountHits(init, m) + (if m[ks[|ks| - 1]] > 0 then 1 else 0)
  }

  /** `DA:${ln},${hits}` */
  function DaLine(ln: nat, hits: nat): string {
    "DA:" + NatToString(ln) + "," + NatToString(hits)
  }

  /** One `DA:` line per listed line number, in the listed order. */
  function DaLines(ks: seq<nat>, m: LineHits): (r: seq<string>)
    requires forall k :: k in ks ==> k in m
    ensures |r| == |ks|
  {
    seq(|ks|, i requires 0 <= i < |ks| => DaLine(ks[i], m[ks[i]]))
  }

  lemma DaLinesSnoc(ks: seq<nat>, m: LineHits, j: nat)
    requires forall k :: k in ks ==> k in m
    requires j < |ks|
    ensures forall k :: k in ks[..j] ==> k in m
    ensures forall k :: k in ks[..j + 1] ==> k in m
    ensures DaLines(ks[..j + 1], m) == DaLines(ks[..j], m) + [DaLine(ks[j], m[ks[j]])]
  {
    assert forall i :: 0 <= i < j ==> ks[..j][i] == ks[i];
    assert forall i :: 0 <= i <= j ==> ks[..j + 1][i] == ks[i];
    assert forall k :: k in ks[..j] ==> k in ks;
    assert forall k :: k in ks[..j + 1] ==> k in ks;
  }

  /** The record written for one file. */
  function BlockLines(f: string, m: LineHits): seq<string> {
    var ks := SortedKeys(m.Keys);
    ["SF:" + f] + DaLines(ks, m)
    + ["LF:" + NatToString(|ks|)] + ["LH:" + NatToString(CountHits(ks, m))] + ["end_of_record"]
  }

  /** The lines written for the first `k` files of the merged map. */
  function EmitLinesUpTo(c: Coverage, k: nat): seq<string>
    requires k <= |c.order|
  {
    if k == 0 then []
    else
      var f := c.order[k - 1];
      EmitLinesUpTo(c, k - 1) + BlockLines(f, FileHits(c, f))
  }

  /** The text written to the output file: every line followed by `\n`. */
  function EmitText(c: Coverage): string {
    JoinLines(EmitLinesUpTo(c, |c.order|))
  }

  /** The `LF:` count of one file's record. */
  function BlockFound(m: LineHits): nat {
    |SortedKeys(m.Keys)|
  }

  /** The `LH:` count of one file's record. */
  function BlockHit(m: LineHits): nat {
    CountHits(SortedKeys(m.Keys), m)
  }

  /** `totalLF` after the first `k` files. */
  function LinesFound(c: Coverage, k: nat): nat
    requires k <= |c.order|
  {
    if k == 0 then 0 else LinesFound(c, k - 1) + BlockFound(FileHits(c, c.order[k - 1]))
  }

  /** `totalLH` after the first `k` files. */
  function LinesHit(c: Coverage, k: nat): nat
    requires k <= |c.order|
  {
    if k == 0 then 0 else LinesHit(c, k - 1) + BlockHit(FileHits(c, c.order[k - 1]))
  }

  /** Lines hit never exceed lines found, so the percentage is at most 100. */
  lemma {:induction false} HitAtMostFound(c: Coverage, k: nat)
    requires k <= |c.order|
    ensures LinesHit(c, k) <= LinesFound(c, k)
  {
    if k > 0 {
      HitAtMostFound(c, k - 1);
    }
  }

  /** The text of one record: its lines, each with its line feed. */
  lemma RecordText(f: string, m: LineHits)
    ensures var ks := SortedKeys(m.Keys);
            JoinLines(BlockLines(f, m))
            == ("SF:" + f) + "\n" + JoinLines(DaLines(ks, m))
               + ("LF:" + NatToString(|ks|)) + "\n" + ("LH:" + NatToString(CountHits(ks, m))) + "\n"
               + "end_of_record" + "\n"
  {
    var ks := SortedKeys(m.Keys);
    var sf := "SF:" + f;
    var das := DaLines(ks, m);
    var lf := "LF:" + NatToString(|ks|);
    var lh := "LH:" + NatToString(CountHits(ks, m));
    JoinLinesSnoc([], sf);
    JoinLinesAppend([sf], das);
    JoinLinesSnoc([sf] + das, lf);
    JoinLinesSnoc([sf] + das + [lf], lh);
    JoinLinesSnoc([sf] + das + [lf] + [lh], "end_of_record");
  }

  /** The inner loop of the output (scripts/merge-lcov.mjs:64-66): one
      `DA:` line per entry appended to `out`. */
  method WriteDaLines(out: string, entries: seq<nat>, linesMap: LineHits) returns (out': string)
    requires forall k :: k in entries ==> k in linesMap
    ensures out' == out + JoinLines(DaLines(entries, linesMap))
  {
    out' := out;
    assert entries[..0] == [];
    for j := 0 to |entries|
      invariant out' == out + JoinLines(DaLines(entries[..j], linesMap))
    {
      var ln := entries[j];
      var hits := linesMap[ln];
      DaLinesSnoc(entries, linesMap, j);
      JoinLinesSnoc(DaLines(entries[..j], linesMap), DaLine(ln, hits));
      AppendAssoc(out, JoinLines(DaLines(entries[..j], linesMap)), DaLine(ln, hits));
      AppendAssoc(out, JoinLines(DaLines(entries[..j], linesMap)) + DaLine(ln, hits), "\n");
      out' := out' + DaLine(ln, hits) + "\n";
    }
    assert entries[..|entries|] == entries;
  }

  /** The body of the output loop (scripts/merge-lcov.mjs:58-69): the record
      of one file, with its `LF:` and `LH:` counts. */
  method WriteRecord(file: string, linesMap: LineHits) returns (record: string, lf: nat, lh: nat)
    ensures record == JoinLines(BlockLines(file, linesMap))
    ensures lf == |linesMap.Keys| && lh == CountHits(SortedKeys(linesMap.Keys), linesMap)
  {
    var entries := SortedKeys(linesMap.Keys);
    lf := |entries|;
    lh := CountHits(entries, linesMap);
    RecordText(file, linesMap);
    record := ("SF:" + file) + "\n";
    record := WriteDaLines(record, entries, linesMap);
    record := record + ("LF:" + NatToString(lf)) + "\n";
    record := record + ("LH:" + NatToString(lh)) + "\n";
    record := record + "end_of_record" + "\n";
  }

  /** The output loop of scripts/merge-lcov.mjs:54-70. */
  method Emit(merged: Coverage) returns (out: string, totalLF: nat, totalLH: nat)
    ensures out == EmitText(merged)
    ensures totalLF == LinesFound(merged, |merged.order|)
    ensures totalLH == LinesHit(merged, |merged.order|)
  {
    out := "";
    totalLF := 0;
    totalLH := 0;
    var i := 0;
    while i < |merged.order|
      invariant i <= |merged.order|
      invariant out == JoinLines(EmitLinesUpTo(merged, i))
      invariant totalLF == LinesFound(merged, i)
      invariant totalLH == LinesHit(merged, i)
    {
      out, totalLF, totalLH := EmitNext(merged, i, out, totalLF, totalLH);
      i := i + 1;
    }
  }

  /** One turn of the output loop (scripts/merge-lcov.mjs:58-69): the record
      of the next file written, its counts added to the totals. */
  method EmitNext(merged: Coverage, i: nat, out: string, totalLF: nat, totalLH: nat)
    returns (out': string, totalLF': nat, totalLH': nat)
    requires i < |merged.order|
    requires out == JoinLines(EmitLinesUpTo(merged, i))
    requires totalLF == LinesFound(merged, i) && totalLH == LinesHit(merged, i)
    ensures out' == JoinLines(EmitLinesUpTo(merged, i + 1))
    ensures totalLF' == LinesFound(merged, i + 1) && totalLH' == LinesHit(merged, i + 1)
  {
    var file := merged.order[i];
    var record, lf, lh := WriteRecord(file, FileHits(merged, file));
    JoinLinesAppend(EmitLinesUpTo(merged, i), BlockLines(file, FileHits(merged, file)));
    out' := out + record;
    totalLF' := totalLF + lf;
    totalLH' := totalLH + lh;
  }
}
