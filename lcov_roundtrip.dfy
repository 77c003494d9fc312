/** Reading back what merge-lcov writes: `parseLcov` applied to the text the
    output loop produces gives the merged coverage map back, for every map
    `parseLcov` and `mergeMaps` can produce. */
module LcovRoundTrip {
  import opened Common
  import opened Seqs
  import opened Text
  import opened LcovText
  import opened Lcov
  import opened LcovEmit

  /** A file name an `SF:` line can yield: trimmed, on one line. */
  predicate NameOk(f: string) {
    IsTrimmed(f) && '\n' !in f
  }

  /** The coverage maps `parseLcov` builds. An `SF:` line whose name trims to
      the empty text registers the file `""`, but `""` is falsy, so no `DA:`
      line is ever recorded for it. */
  predicate WellFormed(c: Coverage) {
    && Valid(c)
    && (forall f :: f in c.lines ==> NameOk(f))
    && ("" in c.lines ==> c.lines[""] == map[])
  }

  lemma SliceKeepsAbsent(s: string, k: nat, c: char)
    requires k <= |s| && c !in s
    ensures c !in s[k..]
  {
    forall i | 0 <= i < |s| - k ensures s[k..][i] != c {
      assert s[k..][i] == s[k + i];
    }
  }

  /** Opening a file named by an `SF:` line keeps the map well formed. */
  lemma OpenKeepsWellFormed(files: Coverage, f: string)
    requires WellFormed(files) && NameOk(f)
    ensures WellFormed(if f in files.lines then files else Put(files, f, map[]))
  {
  }

  /** Recording a count for an open, named file keeps the map well formed. */
  lemma RecordKeepsWellFormed(files: Coverage, f: string, m: LineHits)
    requires WellFormed(files) && f != "" && f in files.lines
    ensures WellFormed(Put(files, f, m))
  {
  }

  /** One parsed line keeps the map well formed. */
  lemma StepWellFormed(st: ParserState, line: string)
    requires ParserValid(st) && WellFormed(st.files) && '\n' !in line
    ensures WellFormed(Step(st, line).files)
  {
    if StartsWith(line, "SF:") {
      var f := Trim(line[3..]);
      SliceKeepsAbsent(line, 3, '\n');
      TrimKeepsAbsent(line[3..], '\n');
      TrimIsTrimmed(line[3..]);
      OpenKeepsWellFormed(st.files, f);
    } else if StartsWith(line, "DA:") && st.current != "" {
      match DaFields(line[3..])
      case Some((ln, hits)) =>
        RecordKeepsWellFormed(st.files, st.current, Record(st.files.lines[st.current], ln, hits));
      case None =>
    }
  }

  lemma {:induction false} RunWellFormed(st: ParserState, lines: seq<string>)
    requires ParserValid(st) && WellFormed(st.files)
    requires forall i :: 0 <= i < |lines| ==> '\n' !in lines[i]
    ensures WellFormed(Run(st, lines).files)
    decreases |lines|
  {
    if lines != [] {
      StepWellFormed(st, lines[0]);
      RunWellFormed(Step(st, lines[0]), lines[1..]);
    }
  }

  /** Every map `parseLcov` returns is well formed. */
  lemma ParseWellFormed(content: string)
    ensures WellFormed(Parse(content))
  {
    LinesOfNoLineFeed(content);
    RunWellFormed(Start(), LinesOf(content));
  }

  /** Merging two well-formed maps gives a well-formed map. */
  lemma MergeWellFormed(a: Coverage, b: Coverage)
    requires WellFormed(a) && WellFormed(b)
    ensures WellFormed(Merge(a, b))
  {
    var m := Merge(a, b);
    MergeContents(a, b);
    if "" in m.lines {
      assert FileHits(a, "") == map[] && FileHits(b, "") == map[];
      MaxMergeProperties(map[], map[]);
      assert m.lines[""] == FileHits(m, "");
    }
  }

  /** What merge-lcov writes out is always a well-formed map. */
  lemma MergedReportsWellFormed(unit: Option<string>, e2e: Option<string>)
    ensures WellFormed(MergedReports(unit, e2e))
  {
    ParseWellFormed(unit.GetOr(""));
    ParseWellFormed(e2e.GetOr(""));
    MergeWellFormed(Parse(unit.GetOr("")), Parse(e2e.GetOr("")));
  }

  // ---- Every written line is a plain line ----

  predicate AllPlain(ls: seq<string>) {
    forall i :: 0 <= i < |ls| ==> PlainLine(ls[i])
  }

  lemma AllPlainAppend(a: seq<string>, b: seq<string>)
    requires AllPlain(a) && AllPlain(b)
    ensures AllPlain(a + b)
  {
    forall i | 0 <= i < |a + b| ensures PlainLine((a + b)[i]) {
      if i >= |a| {
        assert (a + b)[i] == b[i - |a|];
      }
    }
  }

  lemma DigitsHaveNoBreak(s: string)
    requires AllDigits(s)
    ensures '\n' !in s && ',' !in s
  {
    forall i | 0 <= i < |s| ensures s[i] != '\n' && s[i] != ',' {
      assert IsDigit(s[i]);
    }
  }

  /** A line ending in a number is plain. */
  lemma NumberLinePlain(tag: string, n: nat)
    requires '\n' !in tag
    ensures PlainLine(tag + NatToString(n))
  {
    var d := NatToString(n);
    DigitsHaveNoBreak(d);
    assert (tag + d)[|tag + d| - 1] == d[|d| - 1];
    assert IsDigit(d[|d| - 1]);
  }

  lemma DaLinesPlain(ks: seq<nat>, m: LineHits)
    requires forall k :: k in ks ==> k in m
    ensures AllPlain(DaLines(ks, m))
  {
    var das := DaLines(ks, m);
    forall i | 0 <= i < |das| ensures PlainLine(das[i]) {
      var ln := ks[i];
      DigitsHaveNoBreak(NatToString(ln));
      NumberLinePlain("DA:" + NatToString(ln) + ",", m[ln]);
    }
  }

  lemma RecordLinesPlain(f: string, das: seq<string>, lf: nat, lh: nat)
    requires NameOk(f) && AllPlain(das)
    ensures AllPlain(["SF:" + f] + das + ["LF:" + NatToString(lf)] + ["LH:" + NatToString(lh)] + ["end_of_record"])
  {
    var sf := "SF:" + f;
    assert PlainLine(sf) by {
      if f != [] {
        assert sf[|sf| - 1] == f[|f| - 1];
      }
    }
    NumberLinePlain("LF:", lf);
    NumberLinePlain("LH:", lh);
    assert AllPlain([sf]);
    AllPlainAppend([sf], das);
    assert AllPlain(["LF:" + NatToString(lf)]);
    AllPlainAppend([sf] + das, ["LF:" + NatToString(lf)]);
    assert AllPlain(["LH:" + NatToString(lh)]);
    AllPlainAppend([sf] + das + ["LF:" + NatToString(lf)], ["LH:" + NatToString(lh)]);
    assert AllPlain(["end_of_record"]);
    AllPlainAppend([sf] + das + ["LF:" + NatToString(lf)] + ["LH:" + NatToString(lh)], ["end_of_record"]);
  }

  lemma BlockLinesPlain(f: string, m: LineHits)
    requires NameOk(f)
    ensures AllPlain(BlockLines(f, m))
  {
    var ks := SortedKeys(m.Keys);
    DaLinesPlain(ks, m);
    RecordLinesPlain(f, DaLines(ks, m), |ks|, CountHits(ks, m));
  }

  /** `WellFormed`, stated position by position along the file order. */
  predicate NamesOk(c: Coverage) {
    forall i :: 0 <= i < |c.order| ==> NameOk(c.order[i]) && (c.order[i] == "" ==> FileHits(c, "") == map[])
  }

  lemma WellFormedNames(c: Coverage)
    requires WellFormed(c)
    ensures NamesOk(c)
  {
    forall i | 0 <= i < |c.order| ensures NameOk(c.order[i]) {
      assert c.order[i] in c.lines;
    }
  }

  lemma {:induction false} EmittedLinesPlain(c: Coverage, k: nat)
    requires NamesOk(c) && k <= |c.order|
    ensures AllPlain(EmitLinesUpTo(c, k))
  {
    if k > 0 {
      var f := c.order[k - 1];
      EmittedLinesPlain(c, k - 1);
      BlockLinesPlain(f, FileHits(c, f));
      EmitStepPlain(c, k);
    }
  }

  lemma EmitStepPlain(c: Coverage, k: nat)
    requires 0 < k <= |c.order|
    requires AllPlain(EmitLinesUpTo(c, k - 1))
    requires AllPlain(BlockLines(c.order[k - 1], FileHits(c, c.order[k - 1])))
    ensures AllPlain(EmitLinesUpTo(c, k))
  {
    AllPlainAppend(EmitLinesUpTo(c, k - 1), BlockLines(c.order[k - 1], FileHits(c, c.order[k - 1])));
  }

  // ---- Parsing the lines of one record ----

  lemma RunSnoc(st: ParserState, ls: seq<string>, l: string)
    requires ParserValid(st)
    ensures Run(st, ls + [l]) == Step(Run(st, ls), l)
  {
    RunAppend(st, ls, [l]);
    assert [l][1..] == [];
  }

  lemma RunOne(st: ParserState, l: string)
    requires ParserValid(st)
    ensures Run(st, [l]) == Step(st, l)
  {
    assert [l][1..] == [];
  }

  /** Writing a file's map over itself only changes the map. */
  lemma PutTwice(p: Coverage, f: string, m1: LineHits, m2: LineHits)
    requires Valid(p) && f !in p.lines
    ensures Put(Put(p, f, m1), f, m2) == Put(p, f, m2)
  {
    assert p.lines[f := m1][f := m2] == p.lines[f := m2];
  }

  lemma SfLine(p: Coverage, f: string)
    requires Valid(p) && NameOk(f) && f !in p.lines
    ensures Step(ParserState("", p), "SF:" + f) == ParserState(f, Put(p, f, map[]))
  {
    StartsWithPrefix("SF:", f);
    TrimTrimmed(f);
  }

  /** The two fields of a written `DA:` line read back as the numbers written. */
  lemma DaFieldsOfLine(ln: nat, hits: nat)
    ensures DaFields(NatToString(ln) + "," + NatToString(hits)) == Some((ln, hits))
  {
    var a := NatToString(ln);
    var b := NatToString(hits);
    DigitsHaveNoBreak(a);
    DigitsHaveNoBreak(b);
    SplitAtSeparator(a, b, ',');
    SplitNoSeparator(a, ',');
    SplitNoSeparator(b, ',');
    NatToStringRoundTrip(ln);
    NatToStringRoundTrip(hits);
  }

  /** A written `DA:` line inside an open record records its count there. */
  lemma DaLineRead(st: ParserState, ln: nat, hits: nat)
    requires ParserValid(st) && st.current != ""
    ensures Step(st, DaLine(ln, hits))
            == ParserState(st.current, Put(st.files, st.current, Record(st.files.lines[st.current], ln, hits)))
  {
    var rest := NatToString(ln) + "," + NatToString(hits);
    assert DaLine(ln, hits) == "DA:" + rest;
    DaFieldsOfLine(ln, hits);
    DaKeepsMaximum(st, rest, ln, hits);
  }

  lemma DaLinesTail(ks: seq<nat>, m: LineHits)
    requires ks != [] && forall k :: k in ks ==> k in m
    ensures forall k :: k in ks[1..] ==> k in m
    ensures DaLines(ks, m) == [DaLine(ks[0], m[ks[0]])] + DaLines(ks[1..], m)
  {
    assert forall k :: k in ks[1..] ==> k in ks;
    var r := DaLines(ks, m);
    var t := DaLines(ks[1..], m);
    assert forall i :: 0 <= i < |t| ==> t[i] == r[i + 1];
  }

  /** The counts of `m` at the listed lines. */
  function Partial(ks: seq<nat>, m: LineHits): LineHits {
    map k | k in ks && k in m :: m[k]
  }

  /** One more line count for a line not yet recorded. */
  lemma PartialStep(cur: LineHits, ks: seq<nat>, m: LineHits)
    requires ks != [] && ks[0] in m
    ensures cur[ks[0] := m[ks[0]]] + Partial(ks[1..], m) == cur + Partial(ks, m)
  {
    var k := ks[0];
    forall x | x in ks ensures x == k || x in ks[1..] {
      var i :| 0 <= i < |ks| && ks[i] == x;
      if i > 0 {
        assert ks[1..][i - 1] == x;
      }
    }
    assert forall x :: x in ks[1..] ==> x in ks;
  }

  /** Rewriting the open file's map twice is rewriting it once. */
  lemma PutAgain(files: Coverage, f: string, m1: LineHits, m2: LineHits)
    requires Valid(files) && f in files.lines
    ensures Put(Put(files, f, m1), f, m2) == Put(files, f, m2)
  {
    assert files.lines[f := m1][f := m2] == files.lines[f := m2];
  }

  /** The `DA:` lines of a record, read inside it, add their counts to the
      open file's map. */
  lemma {:induction false} DaLinesRead(st: ParserState, ks: seq<nat>, m: LineHits)
    requires ParserValid(st) && st.current != ""
    requires Increasing(ks)
    requires forall k :: k in ks ==> k in m && k !in st.files.lines[st.current]
    ensures Run(st, DaLines(ks, m))
            == ParserState(st.current, Put(st.files, st.current, st.files.lines[st.current] + Partial(ks, m)))
    decreases |ks|
  {
    var f := st.current;
    var cur := st.files.lines[f];
    if ks == [] {
      assert Partial(ks, m) == map[];
      assert cur + map[] == cur;
      assert st.files.lines[f := cur] == st.files.lines;
    } else {
      var k := ks[0];
      DaLinesTail(ks, m);
      DaLineRead(st, k, m[k]);
      assert Record(cur, k, m[k]) == cur[k := m[k]];
      var next := ParserState(f, Put(st.files, f, cur[k := m[k]]));
      forall x | x in ks[1..] ensures x in m && x !in next.files.lines[f] {
        TailMembers(ks, x);
      }
      assert Increasing(ks[1..]) by {
        forall i, j | 0 <= i < j < |ks| - 1 ensures ks[1..][i] < ks[1..][j] {
          assert ks[1..][i] == ks[i + 1] && ks[1..][j] == ks[j + 1];
        }
      }
      DaLinesRead(next, ks[1..], m);
      var das := DaLines(ks, m);
      assert das[0] == DaLine(k, m[k]) && das[1..] == DaLines(ks[1..], m);
      assert Run(st, das) == Run(next, das[1..]);
      PartialStep(cur, ks, m);
      PutAgain(st.files, f, cur[k := m[k]], cur + Partial(ks, m));
    }
  }

  /** A line starting with `L` (`LF:`, `LH:`) is skipped. */
  lemma OtherLineIgnored(st: ParserState, l: string)
    requires ParserValid(st) && l != [] && l[0] == 'L'
    ensures Step(st, l) == st
  {
    FirstCharDiffers(l, "SF:");
    FirstCharDiffers(l, "DA:");
    assert l != "end_of_record" by {
      assert "end_of_record"[0] == 'e';
    }
  }

  /** The end of a record: its two counts are skipped, `end_of_record` closes it. */
  lemma RecordTailRead(st: ParserState, lf: nat, lh: nat)
    requires ParserValid(st)
    ensures Run(st, ["LF:" + NatToString(lf), "LH:" + NatToString(lh), "end_of_record"]) == ParserState("", st.files)
  {
    var ls := ["LF:" + NatToString(lf), "LH:" + NatToString(lh), "end_of_record"];
    OtherLineIgnored(st, ls[0]);
    OtherLineIgnored(st, ls[1]);
    EndOfRecordCloses(st);
    assert ls[1..][0] == ls[1] && ls[1..][1..] == ["end_of_record"];
    assert Run(st, ls) == Run(st, ls[1..]);
    assert Run(st, ls[1..]) == Run(st, ["end_of_record"]);
    assert ["end_of_record"][1..] == [];
  }

  /** The `SF:` line and the `DA:` lines of a record open its file with the
      listed counts. */
  lemma RecordHeadRead(p: Coverage, f: string, ks: seq<nat>, m: LineHits)
    requires Valid(p) && NameOk(f) && f !in p.lines
    requires Increasing(ks) && (forall k :: k in ks <==> k in m) && (f == "" ==> ks == [])
    ensures Run(ParserState("", p), ["SF:" + f] + DaLines(ks, m)) == ParserState(f, Put(p, f, m))
  {
    RunAppend(ParserState("", p), ["SF:" + f], DaLines(ks, m));
    SfLineRun(p, f);
    OpenedFileRead(p, f, ks, m);
  }

  lemma SfLineRun(p: Coverage, f: string)
    requires Valid(p) && NameOk(f) && f !in p.lines
    ensures Run(ParserState("", p), ["SF:" + f]) == ParserState(f, Put(p, f, map[]))
  {
    RunOne(ParserState("", p), "SF:" + f);
    SfLine(p, f);
  }

  /** The `DA:` lines of a record, read just after its `SF:` line. */
  lemma OpenedFileRead(p: Coverage, f: string, ks: seq<nat>, m: LineHits)
    requires Valid(p) && f !in p.lines
    requires Increasing(ks) && (forall k :: k in ks <==> k in m) && (f == "" ==> ks == [])
    ensures Run(ParserState(f, Put(p, f, map[])), DaLines(ks, m)) == ParserState(f, Put(p, f, m))
  {
    assert Partial(ks, m) == m;
    if f == "" {
      assert DaLines(ks, m) == [];
      assert m == map[];
    } else {
      DaLinesRead(ParserState(f, Put(p, f, map[])), ks, m);
      assert map[] + m == m;
      PutTwice(p, f, map[], m);
    }
  }

  /** One record, read back from outside any record, adds its file with the
      listed counts and closes it. */
  lemma RecordRead(p: Coverage, f: string, ks: seq<nat>, m: LineHits, lf: nat, lh: nat)
    requires Valid(p) && NameOk(f) && f !in p.lines
    requires Increasing(ks) && (forall k :: k in ks <==> k in m) && (f == "" ==> ks == [])
    ensures Run(ParserState("", p), ["SF:" + f] + DaLines(ks, m) + ["LF:" + NatToString(lf)] + ["LH:" + NatToString(lh)] + ["end_of_record"])
            == ParserState("", Put(p, f, m))
  {
    var head := ["SF:" + f] + DaLines(ks, m);
    var tail := ["LF:" + NatToString(lf), "LH:" + NatToString(lh), "end_of_record"];
    assert head + ["LF:" + NatToString(lf)] + ["LH:" + NatToString(lh)] + ["end_of_record"] == head + tail;
    RunAppend(ParserState("", p), head, tail);
    RecordHeadRead(p, f, ks, m);
    RecordTailRead(ParserState(f, Put(p, f, m)), lf, lh);
  }

  /** One written record, read back, adds that file with its map and closes it. */
  lemma BlockRoundTrip(p: Coverage, f: string, m: LineHits)
    requires Valid(p) && NameOk(f) && f !in p.lines && (f == "" ==> m == map[])
    ensures Run(ParserState("", p), BlockLines(f, m)) == ParserState("", Put(p, f, m))
  {
    var ks := SortedKeys(m.Keys);
    RecordRead(p, f, ks, m, |ks|, CountHits(ks, m));
  }

  // ---- Parsing a whole written report ----

  lemma PrefixNoDup(c: Coverage, k: nat)
    requires Valid(c) && k <= |c.order|
    ensures NoDup(c.order[..k])
    ensures forall f :: f in c.order[..k] ==> f in c.lines
  {
    var q := c.order[..k];
    forall i, j | 0 <= i < j < |q| ensures q[i] != q[j] {
      assert q[i] == c.order[i] && q[j] == c.order[j];
    }
    forall f | f in q ensures f in c.lines {
      var i :| 0 <= i < |q| && q[i] == f;
      assert c.order[i] == f;
    }
  }

  /** The map holding the first `k` files of `c`, in `c`'s order. */
  function Prefix(c: Coverage, k: nat): (r: Coverage)
    requires Valid(c) && k <= |c.order|
    ensures Valid(r)
  {
    PrefixNoDup(c, k);
    Coverage(c.order[..k], map f | f in c.order[..k] :: c.lines[f])
  }

  /** Putting the next file of `c` after its first `k - 1` gives its first `k`. */
  lemma PrefixStep(c: Coverage, k: nat)
    requires Valid(c) && 0 < k <= |c.order|
    ensures c.order[k - 1] !in Prefix(c, k - 1).lines
    ensures Put(Prefix(c, k - 1), c.order[k - 1], c.lines[c.order[k - 1]]) == Prefix(c, k)
  {
    LastOfPrefixIsNew(c, k);
    var f := c.order[k - 1];
    var p := Prefix(c, k - 1);
    assert f !in p.lines;
    var r := Put(p, f, c.lines[f]);
    assert r.order == c.order[..k];
    forall g ensures g in r.lines <==> g in c.order[..k] {
      assert g in c.order[..k] <==> g in c.order[..k - 1] || g == f;
    }
    assert r.lines == Prefix(c, k).lines;
  }

  lemma PrefixWhole(c: Coverage)
    requires Valid(c)
    ensures Prefix(c, |c.order|) == c
  {
    var n := |c.order|;
    assert c.order[..n] == c.order;
    var p := Prefix(c, n);
    forall f ensures f in p.lines <==> f in c.lines {
      assert f in c.lines <==> f in c.order;
    }
    assert p.lines == c.lines;
  }

  lemma {:induction false} EmittedRoundTrip(c: Coverage, k: nat)
    requires Valid(c) && NamesOk(c) && k <= |c.order|
    ensures Run(Start(), EmitLinesUpTo(c, k)) == ParserState("", Prefix(c, k))
  {
    if k == 0 {
      assert Prefix(c, 0) == Empty();
    } else {
      EmittedRoundTrip(c, k - 1);
      EmitStepRead(c, k);
    }
  }

  lemma EmitStepRead(c: Coverage, k: nat)
    requires Valid(c) && NamesOk(c) && 0 < k <= |c.order|
    requires Run(Start(), EmitLinesUpTo(c, k - 1)) == ParserState("", Prefix(c, k - 1))
    ensures Run(Start(), EmitLinesUpTo(c, k)) == ParserState("", Prefix(c, k))
  {
    var f := c.order[k - 1];
    var p := Prefix(c, k - 1);
    var m := FileHits(c, f);
    assert m == c.lines[f];
    RunAppend(Start(), EmitLinesUpTo(c, k - 1), BlockLines(f, m));
    PrefixStep(c, k);
    BlockRoundTrip(p, f, m);
  }

  /** Reading back the written report gives the merged map: the output
      loses nothing and invents nothing, files keep their order, and every
      line keeps its count. */
  lemma RoundTrip(c: Coverage)
    requires WellFormed(c)
    ensures Parse(EmitText(c)) == c
  {
    var ls := EmitLinesUpTo(c, |c.order|);
    WellFormedNames(c);
    EmittedLinesPlain(c, |c.order|);
    LinesOfJoinLines(ls);
    RunAppend(Start(), ls, [""]);
    EmittedRoundTrip(c, |c.order|);
    RunSnoc(ParserState("", Prefix(c, |c.order|)), [], "");
    assert [] + [""] == [""];
    PrefixWhole(c);
  }
  /** The file merge-lcov writes reads back as the merge of its two inputs. */
  lemma MergedReportRoundTrip(unit: Option<string>, e2e: Option<string>)
    ensures Parse(EmitText(MergedReports(unit, e2e))) == MergedReports(unit, e2e)
  {
    MergedReportsWellFormed(unit, e2e);
    RoundTrip(MergedReports(unit, e2e));
  }

  /** Writing out a parsed report and reading it again changes nothing. */
  lemma ReparseStable(content: string)
    ensures Parse(EmitText(Parse(content))) == Parse(content)
  {
    ParseWellFormed(content);
    RoundTrip(Parse(content));
  }
}
