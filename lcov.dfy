/** The coverage map of scripts/merge-lcov.mjs: `parseLcov` reads LCOV text
    into per-file line hits, `mergeMaps` merges two such maps. */
module Lcov {
  import opened Common
  import opened Seqs
  import opened Text
  import opened LcovText

  /** Line number to hit count, for one source file. */
  type LineHits = map<nat, nat>

  /** The files in the order they were first inserted (a JavaScript `Map`
      iterates in insertion order) and the line hits of each. */
  datatype Coverage = Coverage(order: seq<string>, lines: map<string, LineHits>)

  predicate Valid(c: Coverage) {
    && NoDup(c.order)
    && (forall f :: f in c.lines ==> f in c.order)
    && (forall f :: f in c.order ==> f in c.lines)
  }

  function Max(a: nat, b: nat): nat {
    if a >= b then a else b
  }

  /** `m.get(ln) || 0` */
  function HitsOf(m: LineHits, ln: nat): nat {
    if ln in m then m[ln] else 0
  }

  /** `m.set(ln, Math.max(m.get(ln) || 0, hits))` */
  function Record(m: LineHits, ln: nat, hits: nat): LineHits {
    m[ln := Max(HitsOf(m, ln), hits)]
  }

  /** `out.get(file) || new Map()` */
  function FileHits(c: Coverage, f: string): LineHits {
    if f in c.lines then c.lines[f] else map[]
  }

  function Empty(): (c: Coverage)
    ensures Valid(c) && c.order == [] && c.lines == map[]
  {
    Coverage([], map[])
  }

  /** `files.set(f, m)`: a new file goes to the end, a known one keeps its place. */
  function Put(c: Coverage, f: string, m: LineHits): (r: Coverage)
    requires Valid(c)
    ensures Valid(r)
    ensures r.lines == c.lines[f := m]
    ensures r.order == if f in c.lines then c.order else c.order + [f]
  {
    if f in c.lines then Coverage(c.order, c.lines[f := m])
    else
      assert forall i :: 0 <= i < |c.order| ==> c.order[i] in c.lines;
      Coverage(c.order + [f], c.lines[f := m])
  }

  /** `Number(s)` on the texts the model reads: a run of ASCII digits,
      the empty text giving 0. Anything else is not read. */
  function NumberOf(s: string): (r: Option<nat>)
    ensures r.Some? <==> AllDigits(s)
    ensures r.Some? ==> r.value == DigitsValue(s)
    ensures s == "" ==> r == Some(0)
  {
    if AllDigits(s) then Some(DigitsValue(s)) else None
  }

  /** Every number the emitter writes reads back as itself. */
  lemma NumberOfNatToString(n: nat)
    ensures NumberOf(NatToString(n)) == Some(n)
  {
    NatToStringRoundTrip(n);
  }

  /** `const [lnStr, hitsStr] = rest.split(',')`, both read as numbers. */
  function DaFields(rest: string): Option<(nat, nat)> {
    var fields := Split(rest, ',');
    if |fields| >= 2 && NumberOf(fields[0]).Some? && NumberOf(fields[1]).Some? then
      Some((NumberOf(fields[0]).value, NumberOf(fields[1]).value))
    else None
  }

  /** The parser's state: the current file (`""` for none, which the
      script's truthiness test treats like `null`) and the files so far. */
  datatype ParserState = ParserState(current: string, files: Coverage)

  predicate ParserValid(st: ParserState) {
    Valid(st.files) && (st.current == "" || st.current in st.files.lines)
  }

  function Start(): (st: ParserState)
    ensures ParserValid(st)
  {
    ParserState("", Empty())
  }

  /** One line of `parseLcov` (src lines 17-29 of scripts/merge-lcov.mjs). */
  function Step(st: ParserState, line: string): (r: ParserState)
    requires ParserValid(st)
    ensures ParserValid(r)
  {
    if StartsWith(line, "SF:") then
      var f := Trim(line[3..]);
      ParserState(f, if f in st.files.lines then st.files else Put(st.files, f, map[]))
    else if StartsWith(line, "DA:") && st.current != "" then
      match DaFields(line[3..])
      case Some((ln, hits)) =>
        var m := st.files.lines[st.current];
        ParserState(st.current, Put(st.files, st.current, Record(m, ln, hits)))
      case None => st
    else if line == "end_of_record" then ParserState("", st.files)
    else st
  }

  function Run(st: ParserState, lines: seq<string>): (r: ParserState)
    requires ParserValid(st)
    ensures ParserValid(r)
    decreases |lines|
  {
    if lines == [] then st else Run(Step(st, lines[0]), lines[1..])
  }

  /** What `parseLcov` returns. */
  function Parse(content: string): (c: Coverage)
    ensures Valid(c)
  {
    Run(Start(), LinesOf(content)).files
  }

  /** `parseLcov` (scripts/merge-lcov.mjs:12-32). */
  method ParseLcov(content: string) returns (files: Coverage)
    ensures files == Parse(content)
  {
    var lines := LinesOf(content);
    files := Empty();
    var currentFile := "";
    for i := 0 to |lines|
      invariant ParserValid(ParserState(currentFile, files))
      invariant Run(ParserState(currentFile, files), lines[i..]) == Run(Start(), lines)
    {
      assert lines[i..][1..] == lines[i + 1..];
      var line := lines[i];
      if StartsWith(line, "SF:") {
        currentFile := Trim(line[3..]);
        if currentFile !in files.lines {
          files := Put(files, currentFile, map[]);
        }
      } else if StartsWith(line, "DA:") && currentFile != "" {
        var fields := DaFields(line[3..]);
        if fields.Some? {
          var (ln, hits) := fields.value;
          var m := files.lines[currentFile];
          var prev := HitsOf(m, ln);
          files := Put(files, currentFile, m[ln := Max(prev, hits)]);
          assert m[ln := Max(prev, hits)] == Record(m, ln, hits);
        }
      } else if line == "end_of_record" {
        currentFile := "";
      }
    }
    assert lines[|lines|..] == [];
  }

  lemma {:induction false} RunAppend(st: ParserState, a: seq<string>, b: seq<string>)
    requires ParserValid(st)
    ensures Run(st, a + b) == Run(Run(st, a), b)
    decreases |a|
  {
    if a != [] {
      assert (a + b)[0] == a[0];
      assert (a + b)[1..] == a[1..] + b;
      RunAppend(Step(st, a[0]), a[1..], b);
    } else {
      assert a + b == b;
    }
  }

  /** A `DA:` line outside a record (before any `SF:`, or after
      `end_of_record`) changes nothing. */
  lemma DaOutsideRecordIgnored(st: ParserState, rest: string)
    requires ParserValid(st) && st.current == ""
    ensures Step(st, "DA:" + rest) == st
  {
    StartsWithPrefix("DA:", rest);
    FirstCharDiffers("DA:" + rest, "SF:");
  }

  /** `end_of_record` closes the record. */
  lemma EndOfRecordCloses(st: ParserState)
    requires ParserValid(st)
    ensures Step(st, "end_of_record") == ParserState("", st.files)
  {
    FirstCharDiffers("end_of_record", "SF:");
    FirstCharDiffers("end_of_record", "DA:");
  }

  /** A `DA:` line inside a record keeps the larger of the hit count seen so
      far for that line (0 if none) and the new one. */
  lemma DaKeepsMaximum(st: ParserState, rest: string, ln: nat, hits: nat)
    requires ParserValid(st) && st.current != ""
    requires DaFields(rest) == Some((ln, hits))
    ensures Step(st, "DA:" + rest).current == st.current
    ensures Step(st, "DA:" + rest).files.order == st.files.order
    ensures Step(st, "DA:" + rest).files.lines
            == st.files.lines[st.current := Record(st.files.lines[st.current], ln, hits)]
  {
    StartsWithPrefix("DA:", rest);
    FirstCharDiffers("DA:" + rest, "SF:");
  }

  /** A second `SF:` block for a file already seen adds to the same line map. */
  lemma RepeatedFileReopens(st: ParserState, rest: string)
    requires ParserValid(st) && Trim(rest) in st.files.lines
    ensures Step(st, "SF:" + rest) == ParserState(Trim(rest), st.files)
  {
    StartsWithPrefix("SF:", rest);
  }

  /** Only the first two comma fields of a `DA:` record are read: a trailing
      checksum or anything else after a second comma is ignored. */
  lemma DaFieldsIgnoreTail(a: string, b: string, tail: string)
    requires ',' !in a && ',' !in b
    ensures DaFields(a + "," + b + "," + tail) == DaFields(a + "," + b)
  {
    assert a + "," + b + "," + tail == a + [','] + (b + [','] + tail);
    assert a + "," + b == a + [','] + b;
    SplitAtSeparator(a, b + [','] + tail, ',');
    SplitAtSeparator(b, tail, ',');
    SplitAtSeparator(a, b, ',');
    SplitNoSeparator(a, ',');
    SplitNoSeparator(b, ',');
  }

  /** The pointwise maximum of two line maps over the union of their lines,
      a missing line counting as 0 (scripts/merge-lcov.mjs:38-41). */
  function MaxMerge(ma: LineHits, mb: LineHits): LineHits {
    map ln | ln in ma.Keys + mb.Keys :: Max(HitsOf(ma, ln), HitsOf(mb, ln))
  }

  /** The merged map covers the lines of both, and each count is the larger
      of the two, so it bounds both inputs. */
  lemma MaxMergeProperties(ma: LineHits, mb: LineHits)
    ensures MaxMerge(ma, mb).Keys == ma.Keys + mb.Keys
    ensures forall ln :: ln in ma ==> ma[ln] <= MaxMerge(ma, mb)[ln]
    ensures forall ln :: ln in mb ==> mb[ln] <= MaxMerge(ma, mb)[ln]
    ensures forall ln :: ln in MaxMerge(ma, mb) ==> MaxMerge(ma, mb)[ln] == HitsOf(ma, ln) || MaxMerge(ma, mb)[ln] == HitsOf(mb, ln)
    ensures MaxMerge(ma, mb) == MaxMerge(mb, ma)
  {
  }

  /** Merging a line map with itself changes no count. */
  lemma MaxMergeIdempotent(m: LineHits)
    ensures MaxMerge(m, m) == m
  {
  }

  /** A file missing on one side keeps the other side's lines. */
  lemma MaxMergeEmpty(m: LineHits)
    ensures MaxMerge(m, map[]) == m
  {
  }

  /** `m` restricted to the lines `s`. */
  function Restrict(m: LineHits, s: set<nat>): LineHits {
    map ln | ln in m.Keys && ln in s :: m[ln]
  }

  /** Merging in one more line of `mapB` updates that line only. */
  lemma MergeOneLine(mapA: LineHits, mapB: LineHits, todo: set<nat>, ln: nat)
    requires todo <= mapB.Keys && ln in todo
    ensures var r := MaxMerge(mapA, Restrict(mapB, mapB.Keys - todo));
            MaxMerge(mapA, Restrict(mapB, mapB.Keys - (todo - {ln}))) == r[ln := Max(HitsOf(r, ln), mapB[ln])]
  {
    var r0 := Restrict(mapB, mapB.Keys - todo);
    var r1 := Restrict(mapB, mapB.Keys - (todo - {ln}));
    assert r1 == r0[ln := mapB[ln]];
    var r := MaxMerge(mapA, r0);
    assert HitsOf(r, ln) == HitsOf(mapA, ln);
    var t := r[ln := Max(HitsOf(r, ln), mapB[ln])];
    var m := MaxMerge(mapA, r1);
    assert m.Keys == t.Keys;
    forall x | x in m ensures m[x] == t[x] {
      if x != ln {
        assert HitsOf(r1, x) == HitsOf(r0, x);
      }
    }
  }

  /** The inner loop of `mergeMaps` (scripts/merge-lcov.mjs:38-41). */
  method MergeLineMaps(mapA: LineHits, mapB: LineHits) returns (r: LineHits)
    ensures r == MaxMerge(mapA, mapB)
  {
    r := mapA;
    var todo := mapB.Keys;
    assert r == MaxMerge(mapA, Restrict(mapB, mapB.Keys - todo));
    while todo != {}
      invariant todo <= mapB.Keys
      invariant r == MaxMerge(mapA, Restrict(mapB, mapB.Keys - todo))
      decreases |todo|
    {
      var ln :| ln in todo;
      MergeOneLine(mapA, mapB, todo, ln);
      r := r[ln := Max(HitsOf(r, ln), mapB[ln])];
      todo := todo - {ln};
    }
    assert Restrict(mapB, mapB.Keys - todo) == mapB;
  }

  /** The result of `mergeMaps` after the first `n` files of `b`. */
  function MergeUpTo(a: Coverage, b: Coverage, n: nat): (r: Coverage)
    requires Valid(a) && Valid(b) && n <= |b.order|
    ensures Valid(r)
  {
    if n == 0 then a
    else
      var out := MergeUpTo(a, b, n - 1);
      var f := b.order[n - 1];
      Put(out, f, MaxMerge(FileHits(out, f), b.lines[f]))
  }

  function Merge(a: Coverage, b: Coverage): (r: Coverage)
    requires Valid(a) && Valid(b)
    ensures Valid(r)
  {
    MergeUpTo(a, b, |b.order|)
  }

  /** `mergeMaps` (scripts/merge-lcov.mjs:34-45). */
  method MergeMaps(a: Coverage, b: Coverage) returns (out: Coverage)
    requires Valid(a) && Valid(b)
    ensures out == Merge(a, b)
  {
    out := a;
    for i := 0 to |b.order|
      invariant out == MergeUpTo(a, b, i)
    {
      out := MergeNext(a, b, i, out);
    }
  }

  /** One turn of the loop of `mergeMaps`: the next file of `b` merged in. */
  method MergeNext(a: Coverage, b: Coverage, i: nat, out: Coverage) returns (out': Coverage)
    requires Valid(a) && Valid(b) && i < |b.order| && out == MergeUpTo(a, b, i)
    ensures out' == MergeUpTo(a, b, i + 1)
  {
    var file := b.order[i];
    assert file in b.lines;
    out' := MergeFile(out, file, b.lines[file]);
  }

  /** The body of the loop of `mergeMaps` (scripts/merge-lcov.mjs:36-43):
      one file of the second map merged into the result. */
  method MergeFile(out: Coverage, file: string, mapB: LineHits) returns (out': Coverage)
    requires Valid(out)
    ensures out' == Put(out, file, MaxMerge(FileHits(out, file), mapB))
  {
    var mapA := FileHits(out, file);
    var merged := MergeLineMaps(mapA, mapB);
    out' := Put(out, file, merged);
  }

  /** Files absent from `a`: the ones merging `b` into `a` appends. */
  function NotIn(a: Coverage): string -> bool {
    (f: string) => f !in a.lines
  }

  lemma LastOfPrefixIsNew(b: Coverage, n: nat)
    requires Valid(b) && 0 < n <= |b.order|
    ensures b.order[..n] == b.order[..n - 1] + [b.order[n - 1]]
    ensures b.order[n - 1] !in b.order[..n - 1]
  {
    var p := b.order[..n - 1];
    forall i | 0 <= i < |p| ensures p[i] != b.order[n - 1] {
      assert p[i] == b.order[i];
    }
  }

  lemma {:induction false} MergeUpToKeys(a: Coverage, b: Coverage, n: nat)
    requires Valid(a) && Valid(b) && n <= |b.order|
    ensures forall f :: f in MergeUpTo(a, b, n).lines <==> f in a.lines || f in b.order[..n]
  {
    if n > 0 {
      MergeUpToKeys(a, b, n - 1);
      LastOfPrefixIsNew(b, n);
    }
  }

  lemma {:induction false} MergeUpToValues(a: Coverage, b: Coverage, n: nat)
    requires Valid(a) && Valid(b) && n <= |b.order|
    ensures forall f :: FileHits(MergeUpTo(a, b, n), f)
                        == if f in b.order[..n] then MaxMerge(FileHits(a, f), FileHits(b, f)) else FileHits(a, f)
  {
    if n > 0 {
      MergeUpToValues(a, b, n - 1);
      LastOfPrefixIsNew(b, n);
      var g := b.order[n - 1];
      var out := MergeUpTo(a, b, n - 1);
      assert FileHits(out, g) == FileHits(a, g);
      assert FileHits(b, g) == b.lines[g];
      forall f ensures FileHits(MergeUpTo(a, b, n), f)
                       == if f in b.order[..n] then MaxMerge(FileHits(a, f), FileHits(b, f)) else FileHits(a, f)
      {
        if f != g {
          assert FileHits(MergeUpTo(a, b, n), f) == FileHits(out, f);
          assert f in b.order[..n] <==> f in b.order[..n - 1];
        }
      }
    }
  }

  lemma MergeUpToValuesAt(a: Coverage, b: Coverage, n: nat, f: string)
    requires Valid(a) && Valid(b) && n <= |b.order|
    ensures FileHits(MergeUpTo(a, b, n), f)
            == if f in b.order[..n] then MaxMerge(FileHits(a, f), FileHits(b, f)) else FileHits(a, f)
  {
    MergeUpToValues(a, b, n);
  }

  /** One file of `b` merged in: appended exactly when `a` lacks it. */
  lemma MergeUpToOrderStep(a: Coverage, b: Coverage, n: nat)
    requires Valid(a) && Valid(b) && 0 < n <= |b.order|
    requires b.order[n - 1] in MergeUpTo(a, b, n - 1).lines <==> b.order[n - 1] in a.lines
    ensures MergeUpTo(a, b, n).order
            == MergeUpTo(a, b, n - 1).order + (if b.order[n - 1] in a.lines then [] else [b.order[n - 1]])
  {
    var f := b.order[n - 1];
    var out := MergeUpTo(a, b, n - 1);
    assert MergeUpTo(a, b, n) == Put(out, f, MaxMerge(FileHits(out, f), b.lines[f]));
  }

  /** The file merged in at step `n` is in the running result only if `a` has it. */
  lemma {:induction false} NextFileSeen(a: Coverage, b: Coverage, m: nat)
    requires Valid(a) && Valid(b) && m < |b.order|
    ensures b.order[m] in MergeUpTo(a, b, m).lines <==> b.order[m] in a.lines
  {
    LastOfPrefixFresh(b, m + 1);
    MergeUpToHasNot(a, b, m, b.order[m]);
  }

  /** The last file of a prefix of `b`'s order is not earlier in it. */
  lemma LastOfPrefixFresh(b: Coverage, n: nat)
    requires Valid(b) && 0 < n <= |b.order|
    ensures b.order[n - 1] !in b.order[..n - 1]
  {
    LastOfPrefixIsNew(b, n);
  }

  /** A file not yet merged in is in the running result only if `a` has it. */
  lemma MergeUpToHasNot(a: Coverage, b: Coverage, n: nat, f: string)
    requires Valid(a) && Valid(b) && n <= |b.order| && f !in b.order[..n]
    ensures f in MergeUpTo(a, b, n).lines <==> f in a.lines
  {
    MergeUpToHas(a, b, n, f);
  }

  lemma MergeUpToHas(a: Coverage, b: Coverage, n: nat, f: string)
    requires Valid(a) && Valid(b) && n <= |b.order|
    ensures f in MergeUpTo(a, b, n).lines <==> f in a.lines || f in b.order[..n]
  {
    MergeUpToKeys(a, b, n);
  }

  lemma FilterPrefixStep(s: seq<string>, n: nat, a: Coverage)
    requires 0 < n <= |s|
    ensures Filter(s[..n], NotIn(a)) == Filter(s[..n - 1], NotIn(a)) + (if s[n - 1] in a.lines then [] else [s[n - 1]])
  {
    assert s[..n] == s[..n - 1] + [s[n - 1]];
    FilterSnoc(s[..n - 1], s[n - 1], NotIn(a));
  }

  lemma {:induction false} MergeUpToOrder(a: Coverage, b: Coverage, n: nat)
    requires Valid(a) && Valid(b) && n <= |b.order|
    ensures MergeUpTo(a, b, n).order == a.order + Filter(b.order[..n], NotIn(a))
  {
    if n == 0 {
      assert b.order[..0] == [];
    } else {
      MergeUpToOrder(a, b, n - 1);
      NextFileSeen(a, b, n - 1);
      MergeUpToOrderStep(a, b, n);
      FilterPrefixStep(b.order, n, a);
      var f := b.order[n - 1];
      AppendAssoc(a.order, Filter(b.order[..n - 1], NotIn(a)), if f in a.lines then [] else [f]);
    }
  }

  lemma MergeFiles(a: Coverage, b: Coverage)
    requires Valid(a) && Valid(b)
    ensures forall f :: f in Merge(a, b).lines <==> f in a.lines || f in b.lines
  {
    var n := |b.order|;
    MergeUpToKeys(a, b, n);
    assert b.order[..n] == b.order;
    forall f ensures f in Merge(a, b).lines <==> f in a.lines || f in b.lines {
      assert f in b.order <==> f in b.lines;
    }
  }

  lemma MergeFileHits(a: Coverage, b: Coverage)
    requires Valid(a) && Valid(b)
    ensures forall f :: FileHits(Merge(a, b), f) == MaxMerge(FileHits(a, f), FileHits(b, f))
  {
    forall f ensures FileHits(Merge(a, b), f) == MaxMerge(FileHits(a, f), FileHits(b, f)) {
      MergeHitsAt(a, b, f);
    }
  }

  lemma MergeHitsAt(a: Coverage, b: Coverage, f: string)
    requires Valid(a) && Valid(b)
    ensures FileHits(Merge(a, b), f) == MaxMerge(FileHits(a, f), FileHits(b, f))
  {
    var n := |b.order|;
    MergeUpToValuesAt(a, b, n, f);
    assert b.order[..n] == b.order;
    if f in b.lines {
      assert f in b.order;
    } else {
      assert f !in b.order;
      MaxMergeEmpty(FileHits(a, f));
    }
  }

  /** `mergeMaps` keeps every file of either input, and for each file the
      pointwise maximum of both line maps (a file missing on one side counts
      as having no lines). */
  lemma MergeContents(a: Coverage, b: Coverage)
    requires Valid(a) && Valid(b)
    ensures forall f :: f in Merge(a, b).lines <==> f in a.lines || f in b.lines
    ensures forall f :: FileHits(Merge(a, b), f) == MaxMerge(FileHits(a, f), FileHits(b, f))
  {
    MergeFiles(a, b);
    MergeFileHits(a, b);
  }

  /** Files come out in first-seen order: those of the first input, then
      those only the second one has. */
  lemma MergeOrder(a: Coverage, b: Coverage)
    requires Valid(a) && Valid(b)
    ensures Merge(a, b).order == a.order + Filter(b.order, NotIn(a))
  {
    MergeUpToOrder(a, b, |b.order|);
    assert b.order[..|b.order|] == b.order;
  }

  /** Merging a coverage map with itself gives it back. */
  lemma MergeSelf(a: Coverage)
    requires Valid(a)
    ensures Merge(a, a) == a
  {
    MergeContents(a, a);
    MergeOrder(a, a);
    FilterNone(a.order, NotIn(a));
    forall f | f in a.lines ensures Merge(a, a).lines[f] == a.lines[f] {
      MaxMergeIdempotent(a.lines[f]);
      assert FileHits(Merge(a, a), f) == Merge(a, a).lines[f];
    }
    assert Merge(a, a).lines == a.lines;
    assert a.order + [] == a.order;
  }

  /** What `merge-lcov` writes: the two reports merged, a missing report
      read as empty text (scripts/merge-lcov.mjs:47-52). */
  function MergedReports(unit: Option<string>, e2e: Option<string>): (c: Coverage)
    ensures Valid(c)
  {
    Merge(Parse(unit.GetOr("")), Parse(e2e.GetOr("")))
  }

  /** An absent report contributes nothing. */
  lemma MissingReportIsEmpty(unit: string)
    ensures MergedReports(Some(unit), None) == Parse(unit)
  {
    assert LinesOf("") == [""];
    assert Parse("") == Empty();
  }
}
