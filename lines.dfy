/**
 * Kotlin's `text.split("\n")` and the line-offset bookkeeping that the list
 * formatting in RichTextUtils.kt does with `currentLineStart`: line k covers
 * the offsets [LineStart(k), LineEnd(k)] of the text (both ends included, as
 * Kotlin's `a..b` is), and the next line starts one past the "\n".
 */
module Lines {

  /** The first n pieces appended one after the other, as a builder appends them. */
  function Concat<T>(pieces: seq<seq<T>>, n: nat): seq<T>
    requires n <= |pieces|
  {
    if n == 0 then [] else Concat(pieces, n - 1) + pieces[n - 1]
  }

  /**
   * `split("\n")`, read from the end of the text: a "\n" starts a new (empty)
   * last line, any other character extends the last line. So n separators
   * give n + 1 lines, empty lines included.
   */
  function SplitLines(s: string): (lines: seq<string>)
    ensures |lines| >= 1
  {
    if s == [] then [[]]
    else
      var init := SplitLines(s[..|s| - 1]);
      var c := s[|s| - 1];
      if c == '\n' then init + [[]]
      else init[..|init| - 1] + [init[|init| - 1] + [c]]
  }

  /** `joinToString("\n")` */
  function JoinLines(lines: seq<string>): string
    requires |lines| >= 1
  {
    if |lines| == 1 then lines[0]
    else JoinLines(lines[..|lines| - 1]) + "\n" + lines[|lines| - 1]
  }

  /** No line holds a separator. */
  lemma {:induction false} SplitLinesHaveNoSeparator(s: string)
    ensures forall i :: 0 <= i < |SplitLines(s)| ==> '\n' !in SplitLines(s)[i]
  {
    if s != [] {
      var init := SplitLines(s[..|s| - 1]);
      SplitLinesHaveNoSeparator(s[..|s| - 1]);
      var lines := SplitLines(s);
      forall i | 0 <= i < |lines|
        ensures '\n' !in lines[i]
      {
        if i < |init| - 1 || (i < |init| && s[|s| - 1] == '\n') {
          assert lines[i] == init[i];
        } else if i == |init| - 1 {
          assert lines[i] == init[i] + [s[|s| - 1]];
        }
      }
    }
  }

  /** Rejoining the lines of a text gives the text back. */
  lemma {:induction false} JoinSplit(s: string)
    ensures JoinLines(SplitLines(s)) == s
    decreases |s|
  {
    if s != [] {
      var s' := s[..|s| - 1];
      var c := s[|s| - 1];
      var init := SplitLines(s');
      JoinSplit(s');
      assert s == s' + [c];
      if c == '\n' {
        JoinNewLine(init);
      } else {
        JoinExtended(init, c);
      }
    }
  }

  lemma JoinNewLine(lines: seq<string>)
    requires |lines| >= 1
    ensures JoinLines(lines + [[]]) == JoinLines(lines) + "\n"
  {
    assert (lines + [[]])[..|lines|] == lines;
  }

  lemma {:induction false} JoinExtended(lines: seq<string>, c: char)
    requires |lines| >= 1
    ensures var n := |lines|;
      JoinLines(lines[..n - 1] + [lines[n - 1] + [c]]) == JoinLines(lines) + [c]
  {
    var n := |lines|;
    var ext := lines[..n - 1] + [lines[n - 1] + [c]];
    if n > 1 {
      assert ext[..n - 1] == lines[..n - 1];
    }
  }

  /** A text without separators is one line. */
  lemma {:induction false} SplitOneLine(s: string)
    requires '\n' !in s
    ensures SplitLines(s) == [s]
    decreases |s|
  {
    if s != [] {
      assert s[|s| - 1] in s;
      SplitOneLine(s[..|s| - 1]);
      assert s[..|s| - 1] + [s[|s| - 1]] == s;
    }
  }

  /** Splitting `x + "\n" + y`, y without separators, adds y as a line to the lines of x. */
  lemma {:induction false} SplitLastLine(x: string, y: string)
    requires '\n' !in y
    ensures SplitLines(x + "\n" + y) == SplitLines(x) + [y]
    decreases |y|
  {
    if y == [] {
      var s := x + "\n";
      assert x + "\n" + y == s;
      assert s[..|s| - 1] == x && s[|s| - 1] == '\n';
    } else {
      var y' := y[..|y| - 1];
      assert y[|y| - 1] in y;
      assert '\n' !in y' by {
        forall i | 0 <= i < |y'| ensures y'[i] != '\n' { assert y'[i] == y[i]; }
      }
      SplitLastLine(x, y');
      assert (x + "\n" + y)[..|x + "\n" + y| - 1] == x + "\n" + y';
      assert y' + [y[|y| - 1]] == y;
    }
  }

  /** Splitting joined lines, none holding a separator, gives the lines back. */
  lemma {:induction false} SplitJoin(lines: seq<string>)
    requires |lines| >= 1
    requires forall i :: 0 <= i < |lines| ==> '\n' !in lines[i]
    ensures SplitLines(JoinLines(lines)) == lines
    decreases |lines|
  {
    if |lines| == 1 {
      SplitOneLine(lines[0]);
    } else {
      var init := lines[..|lines| - 1];
      assert forall i :: 0 <= i < |init| ==> init[i] == lines[i];
      SplitJoin(init);
      SplitLastLine(JoinLines(init), lines[|lines| - 1]);
    }
  }

  /** Offset of the first character of line k (`currentLineStart`). */
  function LineStart(lines: seq<string>, k: nat): int
    requires k <= |lines|
  {
    if k == 0 then 0 else LineStart(lines, k - 1) + |lines[k - 1]| + 1
  }

  /** Offset just past the last character of line k (`currentLineEnd`). */
  function LineEnd(lines: seq<string>, k: nat): int
    requires k < |lines|
  {
    LineStart(lines, k) + |lines[k]|
  }

  /** Kotlin's `pos in currentLineStart..currentLineEnd`. */
  predicate InLine(lines: seq<string>, k: nat, pos: int)
    requires k < |lines|
  {
    LineStart(lines, k) <= pos <= LineEnd(lines, k)
  }

  /** Where line k starts depends on the lines before it only. */
  lemma {:induction false} LineStartPrefix(a: seq<string>, b: seq<string>, k: nat)
    requires k <= |a| && k <= |b| && a[..k] == b[..k]
    ensures LineStart(a, k) == LineStart(b, k)
  {
    if k > 0 {
      assert a[k - 1] == a[..k][k - 1] == b[..k][k - 1] == b[k - 1];
      assert a[..k - 1] == a[..k][..k - 1] == b[..k][..k - 1] == b[..k - 1];
      LineStartPrefix(a, b, k - 1);
    }
  }

  /**
   * Line k stands in `t` at [LineStart(k), LineEnd(k)); every line but the
   * last is followed by its "\n", and the last line ends the text.
   */
  predicate LinePlaced(t: string, lines: seq<string>, k: nat)
    requires k < |lines|
  {
    && 0 <= LineStart(lines, k) <= LineEnd(lines, k) <= |t|
    && t[LineStart(lines, k)..LineEnd(lines, k)] == lines[k]
    && (k < |lines| - 1 ==> LineEnd(lines, k) < |t| && t[LineEnd(lines, k)] == '\n')
    && (k == |lines| - 1 ==> LineEnd(lines, k) == |t|)
  }

  /** Every line of a text is placed in it as LineStart and LineEnd say. */
  lemma {:induction false} LineInText(t: string, k: nat)
    requires k < |SplitLines(t)|
    ensures LinePlaced(t, SplitLines(t), k)
    decreases |t|
  {
    if t != [] {
      var t' := t[..|t| - 1];
      var c := t[|t| - 1];
      var init := SplitLines(t');
      var n := |init|;
      assert t == t' + [c];
      if c == '\n' {
        if k < n {
          LineInText(t', k);
          PlacedBeforeNewLine(t', init, k);
        } else {
          LineInText(t', n - 1);
          PlacedNewLine(t', init);
        }
      } else {
        LineInText(t', k);
        if k < n - 1 {
          PlacedBeforeExtended(t', init, c, k);
        } else {
          PlacedExtended(t', init, c);
        }
      }
    }
  }

  lemma PlacedBeforeNewLine(t: string, lines: seq<string>, k: nat)
    requires k < |lines| && LinePlaced(t, lines, k)
    ensures LinePlaced(t + "\n", lines + [[]], k)
  {
    var lines' := lines + [[]];
    assert lines'[..k] == lines[..k];
    LineStartPrefix(lines', lines, k);
    assert (t + "\n")[LineStart(lines, k)..LineEnd(lines, k)] == t[LineStart(lines, k)..LineEnd(lines, k)];
  }

  lemma PlacedNewLine(t: string, lines: seq<string>)
    requires |lines| >= 1 && LinePlaced(t, lines, |lines| - 1)
    ensures LinePlaced(t + "\n", lines + [[]], |lines|)
  {
    var lines' := lines + [[]];
    var k := |lines| - 1;
    assert lines'[..k] == lines[..k];
    LineStartPrefix(lines', lines, k);
  }

  lemma PlacedBeforeExtended(t: string, lines: seq<string>, c: char, k: nat)
    requires k < |lines| - 1 && LinePlaced(t, lines, k)
    ensures var n := |lines|;
      LinePlaced(t + [c], lines[..n - 1] + [lines[n - 1] + [c]], k)
  {
    var n := |lines|;
    var lines' := lines[..n - 1] + [lines[n - 1] + [c]];
    assert lines'[..k] == lines[..k];
    LineStartPrefix(lines', lines, k);
    assert (t + [c])[LineStart(lines, k)..LineEnd(lines, k)] == t[LineStart(lines, k)..LineEnd(lines, k)];
  }

  lemma PlacedExtended(t: string, lines: seq<string>, c: char)
    requires |lines| >= 1 && LinePlaced(t, lines, |lines| - 1)
    ensures var n := |lines|;
      LinePlaced(t + [c], lines[..n - 1] + [lines[n - 1] + [c]], n - 1)
  {
    var n := |lines|;
    var lines' := lines[..n - 1] + [lines[n - 1] + [c]];
    assert lines'[..n - 1] == lines[..n - 1];
    LineStartPrefix(lines', lines, n - 1);
    var ls := LineStart(lines, n - 1);
    assert (t + [c])[ls..|t| + 1] == t[ls..|t|] + [c];
  }

  /** Line k as it stands in the joined text: with its "\n", unless it is the last. */
  function PlainPiece(lines: seq<string>, k: nat): string
    requires k < |lines|
  {
    lines[k] + (if k < |lines| - 1 then "\n" else "")
  }

  /** Where the piece of line k starts; past the last line, the end of the text. */
  function PieceStart(lines: seq<string>, k: nat): int
    requires 1 <= |lines| && k <= |lines|
  {
    if k < |lines| then LineStart(lines, k) else LineEnd(lines, |lines| - 1)
  }

  /** `lines` are the lines of `t`, each placed in it as LineStart and LineEnd say. */
  predicate Layout(t: string, lines: seq<string>)
  {
    |lines| >= 1 && forall k :: 0 <= k < |lines| ==> LinePlaced(t, lines, k)
  }

  lemma SplitLayout(t: string)
    ensures Layout(t, SplitLines(t))
  {
    forall k | 0 <= k < |SplitLines(t)|
      ensures LinePlaced(t, SplitLines(t), k)
    {
      LineInText(t, k);
    }
  }

  /** The piece of line k, its "\n" included, stands in the text where it should. */
  lemma PieceInText(t: string, lines: seq<string>, k: nat)
    requires Layout(t, lines) && k < |lines|
    ensures && 0 <= PieceStart(lines, k) <= PieceStart(lines, k + 1) <= |t|
      && t[PieceStart(lines, k)..PieceStart(lines, k + 1)] == PlainPiece(lines, k)
  {
    assert LinePlaced(t, lines, k);
    if k < |lines| - 1 {
      var le := LineEnd(lines, k);
      assert t[LineStart(lines, k)..le + 1] == t[LineStart(lines, k)..le] + [t[le]];
    }
  }

  /**
   * Pieces that are the lines' own pieces from line m up to line n
   * concatenate to the text between where those lines start.
   */
  lemma {:induction false} PlainRun(t: string, lines: seq<string>, ps: seq<string>, m: nat, n: nat)
    requires Layout(t, lines)
    requires |ps| == |lines| && m <= n <= |ps|
    requires forall i :: m <= i < n ==> ps[i] == PlainPiece(lines, i)
    ensures 0 <= PieceStart(lines, m) <= PieceStart(lines, n) <= |t|
    ensures Concat(ps, n) == Concat(ps, m) + t[PieceStart(lines, m)..PieceStart(lines, n)]
    decreases n
  {
    if n == m {
      if m < |lines| {
        PieceInText(t, lines, m);
      } else {
        assert LinePlaced(t, lines, |lines| - 1);
      }
    } else {
      var a := PieceStart(lines, m);
      var b := PieceStart(lines, n - 1);
      var c := PieceStart(lines, n);
      PlainRun(t, lines, ps, m, n - 1);
      assert b <= c <= |t| && ps[n - 1] == t[b..c] by {
        PieceInText(t, lines, n - 1);
      }
      assert t[a..c] == t[a..b] + t[b..c];
    }
  }

  /** Pieces that are all the lines' own pieces concatenate to the text. */
  lemma PlainAll(t: string, lines: seq<string>, ps: seq<string>)
    requires Layout(t, lines) && |ps| == |lines|
    requires forall i :: 0 <= i < |ps| ==> ps[i] == PlainPiece(lines, i)
    ensures Concat(ps, |ps|) == t
  {
    assert LinePlaced(t, lines, |lines| - 1);
    PlainRun(t, lines, ps, 0, |ps|);
  }

  /**
   * Pieces that are the lines' own pieces everywhere but at line k
   * concatenate to the text with line k's piece replaced.
   */
  lemma SpliceLine(t: string, lines: seq<string>, ps: seq<string>, k: nat)
    requires Layout(t, lines) && |ps| == |lines| && k < |ps|
    requires forall i :: 0 <= i < |ps| && i != k ==> ps[i] == PlainPiece(lines, i)
    ensures 0 <= PieceStart(lines, k) <= PieceStart(lines, k + 1) <= |t|
    ensures Concat(ps, |ps|) == t[..PieceStart(lines, k)] + ps[k] + t[PieceStart(lines, k + 1)..]
  {
    var a, b := PieceStart(lines, k), PieceStart(lines, k + 1);
    assert 0 <= a <= b <= |t| by {
      PieceInText(t, lines, k);
    }
    assert Concat(ps, k) == t[..a] by {
      PlainRun(t, lines, ps, 0, k);
      assert PieceStart(lines, 0) == 0;
      assert Concat(ps, 0) + t[0..a] == t[..a];
    }
    assert Concat(ps, |ps|) == Concat(ps, k + 1) + t[b..] by {
      assert PieceStart(lines, |ps|) == |t| by {
        assert LinePlaced(t, lines, |lines| - 1);
      }
      PlainRun(t, lines, ps, k + 1, |ps|);
    }
    assert Concat(ps, k + 1) == Concat(ps, k) + ps[k];
  }

  /** Pieces that are plain but at line k, where x comes first, insert x where line k starts. */
  lemma InsertAtLine(t: string, lines: seq<string>, ps: seq<string>, k: nat, x: string)
    requires Layout(t, lines) && |ps| == |lines| && k < |ps|
    requires forall i :: 0 <= i < |ps| && i != k ==> ps[i] == PlainPiece(lines, i)
    requires ps[k] == x + PlainPiece(lines, k)
    ensures var ls := LineStart(lines, k);
      && 0 <= ls <= |t|
      && Concat(ps, |ps|) == t[..ls] + x + t[ls..]
  {
    var ls := LineStart(lines, k);
    var next := PieceStart(lines, k + 1);
    var piece := PlainPiece(lines, k);
    assert 0 <= ls <= next <= |t| && Concat(ps, |ps|) == t[..ls] + ps[k] + t[next..] by {
      SpliceLine(t, lines, ps, k);
    }
    assert t[ls..] == piece + t[next..] by {
      PieceInText(t, lines, k);
      SliceSplit(t, ls, next);
    }
    AppendAssoc(t[..ls], x, piece, t[next..]);
  }

  lemma SliceSplit<T>(s: seq<T>, a: int, b: int)
    requires 0 <= a <= b <= |s|
    ensures s[a..] == s[a..b] + s[b..]
  {
  }

  lemma AppendAssoc3<T>(a: seq<T>, b: seq<T>, c: seq<T>)
    ensures a + b + c == a + (b + c)
  {
  }

  lemma AppendAssoc<T>(a: seq<T>, b: seq<T>, c: seq<T>, d: seq<T>)
    ensures a + (b + c) + d == a + b + (c + d)
  {
  }

  /** Later lines start past the end of earlier ones. */
  lemma {:induction false} LineStartGrows(lines: seq<string>, i: nat, j: nat)
    requires i < j <= |lines|
    ensures LineStart(lines, j) >= LineEnd(lines, i) + 1
    decreases j
  {
    if j > i + 1 {
      LineStartGrows(lines, i, j - 1);
    }
  }

  /** An offset lies in at most one line. */
  lemma AtMostOneLine(lines: seq<string>, i: nat, j: nat, pos: int)
    requires i < |lines| && j < |lines|
    requires InLine(lines, i, pos) && InLine(lines, j, pos)
    ensures i == j
  {
    if i < j {
      LineStartGrows(lines, i, j);
    } else if j < i {
      LineStartGrows(lines, j, i);
    }
  }

  lemma {:induction false} FindLine(lines: seq<string>, k: nat, pos: int)
    requires k < |lines|
    requires LineStart(lines, k) <= pos <= LineEnd(lines, |lines| - 1)
    ensures exists j :: k <= j < |lines| && InLine(lines, j, pos)
    decreases |lines| - k
  {
    if pos <= LineEnd(lines, k) {
      assert InLine(lines, k, pos);
    } else {
      if k == |lines| - 1 {
        assert false;
      }
      FindLine(lines, k + 1, pos);
    }
  }

  /** Every offset from 0 to the end of the text lies in some line. */
  lemma SomeLineHolds(t: string, pos: int)
    requires 0 <= pos <= |t|
    ensures exists k :: 0 <= k < |SplitLines(t)| && InLine(SplitLines(t), k, pos)
  {
    LineInText(t, |SplitLines(t)| - 1);
    FindLine(SplitLines(t), 0, pos);
  }

  /** An offset outside the text lies in no line. */
  lemma NoLineOutside(t: string, pos: int, k: nat)
    requires pos < 0 || pos > |t|
    requires k < |SplitLines(t)|
    ensures !InLine(SplitLines(t), k, pos)
  {
    var lines := SplitLines(t);
    LineInText(t, |lines| - 1);
    if k < |lines| - 1 {
      LineStartGrows(lines, k, |lines| - 1);
    }
    NonNegativeStart(lines, k);
  }

  lemma {:induction false} NonNegativeStart(lines: seq<string>, k: nat)
    requires k <= |lines|
    ensures LineStart(lines, k) >= 0
  {
    if k > 0 {
      NonNegativeStart(lines, k - 1);
    }
  }
}
