/** Splitting text into lines and fields the way scripts/merge-lcov.mjs does
    (`content.split(/\r?\n/)`, `rest.split(',')`), and the inverse joins. */
module LcovText {

  /** `s.split(c)` for a one-character separator: the pieces between the
      occurrences of `c`, so there is always at least one. */
  function Split(s: string, c: char): (r: seq<string>)
    ensures |r| >= 1
    ensures forall i :: 0 <= i < |r| ==> c !in r[i]
  {
    if s == [] then [""]
    else
      var rest := Split(s[1..], c);
      if s[0] == c then [""] + rest else [[s[0]] + rest[0]] + rest[1..]
  }

  /** `pieces.join(c)` */
  function Join(pieces: seq<string>, c: char): string
    requires |pieces| >= 1
  {
    if |pieces| == 1 then pieces[0] else pieces[0] + [c] + Join(pieces[1..], c)
  }

  /** Joining the pieces gives back the text. */
  lemma {:induction false} JoinSplit(s: string, c: char)
    ensures Join(Split(s, c), c) == s
  {
    if s != [] {
      JoinSplit(s[1..], c);
      var rest := Split(s[1..], c);
      if s[0] != c {
        var r := Split(s, c);
        assert r[0] == [s[0]] + rest[0];
        if |rest| > 1 {
          assert r[1..] == rest[1..];
        }
      }
      assert s == [s[0]] + s[1..];
    }
  }

  /** Text without the separator is one piece. */
  lemma {:induction false} SplitNoSeparator(s: string, c: char)
    requires c !in s
    ensures Split(s, c) == [s]
  {
    if s != [] {
      SplitNoSeparator(s[1..], c);
      assert [s[0]] + s[1..] == s;
    }
  }

  /** A separator between two texts separates their pieces. */
  lemma {:induction false} SplitAtSeparator(a: string, b: string, c: char)
    ensures Split(a + [c] + b, c) == Split(a, c) + Split(b, c)
  {
    if a == [] {
      assert a + [c] + b == [c] + b;
      assert ([c] + b)[1..] == b;
    } else {
      var s := a + [c] + b;
      assert s[0] == a[0];
      assert s[1..] == a[1..] + [c] + b;
      SplitAtSeparator(a[1..], b, c);
    }
  }

  /** Splitting joined pieces that hold no separator gives the pieces back. */
  lemma {:induction false} SplitJoin(pieces: seq<string>, c: char)
    requires |pieces| >= 1
    requires forall i :: 0 <= i < |pieces| ==> c !in pieces[i]
    ensures Split(Join(pieces, c), c) == pieces
  {
    SplitNoSeparator(pieces[0], c);
    if |pieces| > 1 {
      SplitJoin(pieces[1..], c);
      SplitAtSeparator(pieces[0], Join(pieces[1..], c), c);
      assert pieces == [pieces[0]] + pieces[1..];
    }
  }

  /** The `\r` that `\r?\n` takes along with the line break. */
  function StripCR(s: string): string {
    if s != [] && s[|s| - 1] == '\r' then s[..|s| - 1] else s
  }

  /** `content.split(/\r?\n/)`: split at each line feed, and drop one
      carriage return before it. The last piece is not followed by a line
      feed and keeps any carriage return it ends with. */
  function LinesOf(content: string): (r: seq<string>)
    ensures |r| == |Split(content, '\n')|
  {
    var ps := Split(content, '\n');
    seq(|ps|, i requires 0 <= i < |ps| => if i < |ps| - 1 then StripCR(ps[i]) else ps[i])
  }

  /** A line the emitter writes: no line feed in it, no carriage return at its end. */
  predicate PlainLine(l: string) {
    '\n' !in l && (l == [] || l[|l| - 1] != '\r')
  }

  /** Every line written with its own line feed after it. */
  function JoinLines(ls: seq<string>): string {
    if ls == [] then "" else ls[0] + "\n" + JoinLines(ls[1..])
  }

  lemma {:induction false} JoinLinesAppend(a: seq<string>, b: seq<string>)
    ensures JoinLines(a + b) == JoinLines(a) + JoinLines(b)
  {
    if a != [] {
      assert (a + b)[1..] == a[1..] + b;
      JoinLinesAppend(a[1..], b);
    } else {
      assert a + b == b;
    }
  }

  /** Appending one more line writes it and its line feed at the end. */
  lemma JoinLinesSnoc(ls: seq<string>, l: string)
    ensures JoinLines(ls + [l]) == JoinLines(ls) + l + "\n"
  {
    JoinLinesAppend(ls, [l]);
    assert [l][1..] == [];
  }

  /** No line read from text holds a line feed. */
  lemma LinesOfNoLineFeed(content: string)
    ensures forall i :: 0 <= i < |LinesOf(content)| ==> '\n' !in LinesOf(content)[i]
  {
    var ps := Split(content, '\n');
    forall i | 0 <= i < |ps| ensures '\n' !in LinesOf(content)[i] {
      if i < |ps| - 1 && ps[i] != [] && ps[i][|ps[i]| - 1] == '\r' {
        var l := ps[i][..|ps[i]| - 1];
        forall j | 0 <= j < |l| ensures l[j] != '\n' {
          assert l[j] == ps[i][j];
        }
      }
    }
  }

  lemma {:induction false} SplitJoinLines(ls: seq<string>)
    requires forall i :: 0 <= i < |ls| ==> '\n' !in ls[i]
    ensures Split(JoinLines(ls), '\n') == ls + [""]
  {
    if ls != [] {
      SplitJoinLines(ls[1..]);
      SplitNoSeparator(ls[0], '\n');
      SplitAtSeparator(ls[0], JoinLines(ls[1..]), '\n');
      assert ls[0] + "\n" + JoinLines(ls[1..]) == ls[0] + ['\n'] + JoinLines(ls[1..]);
      assert ls + [""] == [ls[0]] + (ls[1..] + [""]);
    }
  }

  /** Reading back text written line by line gives the lines, followed by the
      empty piece after the final line feed. */
  lemma LinesOfJoinLines(ls: seq<string>)
    requires forall i :: 0 <= i < |ls| ==> PlainLine(ls[i])
    ensures LinesOf(JoinLines(ls)) == ls + [""]
  {
    SplitJoinLines(ls);
  }
}
