/**
 * JavaScript string operations the string tools chain together: `trim`,
 * `split(/\s+/)`, and `replace` with a global character-class pattern.
 */
module JsText {
  import opened Chars
  import opened Seqs

  predicate NoSpace(s: string) { forall i :: 0 <= i < |s| ==> !IsSpace(s[i]) }

  predicate AllSpace(s: string) { forall i :: 0 <= i < |s| ==> IsSpace(s[i]) }

  /** Neither end is whitespace. */
  predicate Trimmed(s: string) { s == [] || (!IsSpace(s[0]) && !IsSpace(s[|s| - 1])) }

  /** `trimStart`: the suffix left after the leading whitespace. */
  function TrimStart(s: string): (r: string)
    ensures |r| <= |s| && r == s[|s| - |r|..] && AllSpace(s[..|s| - |r|])
    ensures r == [] || !IsSpace(r[0])
  {
    if s != [] && IsSpace(s[0]) then
      var r := TrimStart(s[1..]);
      assert s[1..][..|s[1..]| - |r|] == s[1..|s| - |r|];
      r
    else s
  }

  /** `trimEnd`: the prefix left before the trailing whitespace. */
  function TrimEnd(s: string): (r: string)
    ensures |r| <= |s| && r == s[..|r|] && AllSpace(s[|r|..])
    ensures r == [] || !IsSpace(r[|r| - 1])
  {
    if s != [] && IsSpace(s[|s| - 1]) then
      var r := TrimEnd(s[..|s| - 1]);
      assert s[..|s| - 1][|r|..] == s[|r|..|s| - 1];
      r
    else s
  }

  /** `s.trim()`: whitespace removed from both ends and nothing else. */
  function Trim(s: string): (r: string)
    ensures Trimmed(r)
  {
    TrimEnd(TrimStart(s))
  }

  /** What `trim` keeps is a slice of the input with only whitespace cut on either side. */
  lemma TrimIsSlice(s: string) returns (i: nat, j: nat)
    ensures i <= j <= |s| && Trim(s) == s[i..j] && AllSpace(s[..i]) && AllSpace(s[j..])
  {
    var t := TrimStart(s);
    var r := TrimEnd(t);
    i, j := |s| - |t|, |s| - |t| + |r|;
    assert r == s[i..j];
    assert s[j..] == t[|r|..];
  }

  lemma {:induction false} TrimStartSkips(a: string, y: string)
    requires AllSpace(a)
    ensures TrimStart(a + y) == TrimStart(y)
  {
    if a != [] {
      assert (a + y)[1..] == a[1..] + y;
      TrimStartSkips(a[1..], y);
    } else {
      assert a + y == y;
    }
  }

  lemma {:induction false} TrimEndSkips(y: string, b: string)
    requires AllSpace(b)
    ensures TrimEnd(y + b) == TrimEnd(y)
  {
    if b != [] {
      assert (y + b)[..|y + b| - 1] == y + b[..|b| - 1];
      TrimEndSkips(y, b[..|b| - 1]);
    } else {
      assert y + b == y;
    }
  }

  /** Trimming removes exactly the whitespace padding around a trimmed string. */
  lemma TrimPadded(a: string, x: string, b: string)
    requires AllSpace(a) && AllSpace(b) && Trimmed(x)
    ensures Trim(a + x + b) == x
  {
    assert a + x + b == a + (x + b);
    TrimStartSkips(a, x + b);
    if x == [] {
      assert x + b == b + [];
      TrimStartSkips(b, []);
      assert TrimStart(a + x + b) == [];
    } else {
      assert (x + b)[0] == x[0];
      assert TrimStart(x + b) == x + b;
      TrimEndSkips(x, b);
      assert TrimEnd(x) == x;
    }
  }

  lemma TrimIdempotent(s: string)
    ensures Trim(Trim(s)) == Trim(s)
  {
    var t := Trim(s);
    assert [] + t + [] == t;
    TrimPadded([], t, []);
  }

  /** Index of the first whitespace character, `|s|` when there is none. */
  function FirstSpace(s: string): (i: nat)
    ensures i <= |s| && NoSpace(s[..i]) && (i < |s| ==> IsSpace(s[i]))
  {
    if s == [] || IsSpace(s[0]) then 0
    else
      var j := FirstSpace(s[1..]);
      assert s[..1 + j] == [s[0]] + s[1..][..j];
      1 + j
  }

  /** Length of the longest prefix whose characters all satisfy `p`. */
  function RunLength(s: string, p: char -> bool): (n: nat)
    ensures n <= |s| && (n < |s| ==> !p(s[n]))
    ensures forall k :: 0 <= k < n ==> p(s[k])
    ensures s != [] && p(s[0]) ==> n >= 1
  {
    if s == [] || !p(s[0]) then 0 else 1 + RunLength(s[1..], p)
  }

  /** The end of the whitespace run starting at `i`. */
  function RunEnd(s: string, i: nat): (j: nat)
    requires i < |s| && IsSpace(s[i])
    ensures i < j <= |s| && AllSpace(s[i..j]) && (j < |s| ==> !IsSpace(s[j]))
  {
    var t := s[i..];
    var n := RunLength(t, IsSpace);
    assert t[0] == s[i];
    assert forall k :: 0 <= k < n ==> s[i..i + n][k] == t[k];
    assert i + n < |s| ==> s[i + n] == t[n];
    i + n
  }

  /**
   * `s.split(/\s+/)`: the pieces between maximal whitespace runs. A leading
   * run yields an empty first piece, a trailing run an empty last piece.
   */
  function SplitWs(s: string): (r: seq<string>)
    ensures |r| >= 1
    ensures forall k :: 0 <= k < |r| ==> NoSpace(r[k])
    decreases |s|
  {
    var i := FirstSpace(s);
    if i == |s| then
      assert s[..i] == s;
      [s]
    else
      [s[..i]] + SplitWs(s[RunEnd(s, i)..])
  }

  /** The text between two matches of `/\s+/`, when it is not empty. */
  predicate IsWord(w: string) { w != [] }

  /** The non-empty pieces of `SplitWs`: the whitespace-separated words. */
  function Words(s: string): (r: seq<string>)
    ensures forall k :: 0 <= k < |r| ==> r[k] != [] && NoSpace(r[k])
  {
    Filter(SplitWs(s), IsWord)
  }

  /** Splitting text without upper-case letters gives pieces without them. */
  lemma {:induction false} SplitWsKeepsCase(s: string)
    requires NoAsciiUpper(s)
    ensures forall k :: 0 <= k < |SplitWs(s)| ==> NoAsciiUpper(SplitWs(s)[k])
    decreases |s|
  {
    var i := FirstSpace(s);
    if i == |s| {
      assert s[..i] == s;
      assert SplitWs(s) == [s];
    } else {
      var j := RunEnd(s, i);
      NoAsciiUpperSlices(s, i);
      NoAsciiUpperSlices(s, j);
      SplitWsKeepsCase(s[j..]);
      assert SplitWs(s) == [s[..i]] + SplitWs(s[j..]);
    }
  }

  lemma WordsKeepCase(s: string)
    requires NoAsciiUpper(s)
    ensures forall k :: 0 <= k < |Words(s)| ==> NoAsciiUpper(Words(s)[k])
  {
    SplitWsKeepsCase(s);
    var ps := SplitWs(s);
    forall k | 0 <= k < |Words(s)| ensures NoAsciiUpper(Words(s)[k]) {
      assert Words(s)[k] in ps;
    }
  }

  /** A string without whitespace is already trimmed. */
  lemma TrimNoSpace(s: string)
    requires NoSpace(s)
    ensures Trim(s) == s
  {
    assert [] + s + [] == s;
    TrimPadded([], s, []);
  }

  /**
   * `s.replace(/[^...]/g, '')` for a class of kept characters: the kept
   * characters in order, each as often as in `s`.
   */
  function KeepOnly(s: string, keep: char -> bool): (r: string)
    ensures forall i :: 0 <= i < |r| ==> r[i] in s && keep(r[i])
    ensures IsSubsequence(r, s) && CountsKept(r, s, keep)
    ensures (forall i :: 0 <= i < |s| ==> keep(s[i])) ==> r == s
  {
    FilterCounts(s, keep);
    if forall i :: 0 <= i < |s| ==> keep(s[i]) then
      FilterAll(s, keep);
      Filter(s, keep)
    else Filter(s, keep)
  }

  /**
   * `s.replace(/[...]+/g, rep)`: each maximal run of characters in the
   * class becomes the one character `rep`; everything else is kept.
   */
  function ReplaceRuns(s: string, p: char -> bool, rep: char): (r: string)
    ensures forall i :: 0 <= i < |r| ==> r[i] == rep || (r[i] in s && !p(r[i]))
    ensures |r| <= |s|
    decreases |s|
  {
    if s == [] then []
    else if p(s[0]) then
      var t := s[RunLength(s, p)..];
      [rep] + ReplaceRuns(t, p, rep)
    else
      [s[0]] + ReplaceRuns(s[1..], p, rep)
  }

  /** With no character of the class present, the replacement changes nothing. */
  lemma {:induction false} ReplaceRunsNone(s: string, p: char -> bool, rep: char)
    requires forall i :: 0 <= i < |s| ==> !p(s[i])
    ensures ReplaceRuns(s, p, rep) == s
  {
    if s != [] {
      ReplaceRunsNone(s[1..], p, rep);
    }
  }

  /** The run at the front of `w + y` is exactly `w` when `y` does not continue it. */
  lemma {:induction false} RunLengthOf(w: string, y: string, p: char -> bool)
    requires forall k :: 0 <= k < |w| ==> p(w[k])
    requires y == [] || !p(y[0])
    ensures RunLength(w + y, p) == |w|
  {
    if w != [] {
      assert (w + y)[0] == w[0] && (w + y)[1..] == w[1..] + y;
      RunLengthOf(w[1..], y, p);
    } else {
      assert w + y == y;
    }
  }

  /** A run that stops inside `x` does not see what follows `x`. */
  lemma {:induction false} RunLengthPrefix(x: string, z: string, p: char -> bool)
    requires RunLength(x, p) < |x|
    ensures RunLength(x + z, p) == RunLength(x, p)
  {
    assert (x + z)[0] == x[0];
    if p(x[0]) {
      assert (x + z)[1..] == x[1..] + z;
      RunLengthPrefix(x[1..], z, p);
    }
  }

  /** A maximal run at the front becomes one `rep`. */
  lemma ReplaceRunsRun(w: string, y: string, p: char -> bool, rep: char)
    requires w != [] && forall k :: 0 <= k < |w| ==> p(w[k])
    requires y == [] || !p(y[0])
    ensures ReplaceRuns(w + y, p, rep) == [rep] + ReplaceRuns(y, p, rep)
  {
    RunLengthOf(w, y, p);
    assert (w + y)[0] == w[0];
    assert (w + y)[|w|..] == y;
  }

  /** A kept first character leads both the replaced text and its replaced extension. */
  lemma ReplaceRunsKeepStep(x: string, z: string, p: char -> bool, rep: char)
    requires x != [] && !p(x[0])
    ensures ReplaceRuns(x + z, p, rep) == [x[0]] + ReplaceRuns(x[1..] + z, p, rep)
    ensures ReplaceRuns(x, p, rep) == [x[0]] + ReplaceRuns(x[1..], p, rep)
  {
    assert (x + z)[0] == x[0] && (x + z)[1..] == x[1..] + z;
  }

  /** A run that ends inside `x` is replaced the same way in `x + z`. */
  lemma ReplaceRunsRunStep(x: string, z: string, p: char -> bool, rep: char)
    requires x != [] && p(x[0]) && RunLength(x, p) < |x|
    ensures ReplaceRuns(x + z, p, rep) == [rep] + ReplaceRuns(x[RunLength(x, p)..] + z, p, rep)
    ensures ReplaceRuns(x, p, rep) == [rep] + ReplaceRuns(x[RunLength(x, p)..], p, rep)
  {
    var n := RunLength(x, p);
    RunLengthPrefix(x, z, p);
    assert (x + z)[0] == x[0];
    assert (x + z)[n..] == x[n..] + z;
  }

  /** Text that ends outside the class is replaced independently of what follows it. */
  lemma {:induction false} ReplaceRunsAppend(x: string, z: string, p: char -> bool, rep: char)
    requires x == [] || !p(x[|x| - 1])
    ensures ReplaceRuns(x + z, p, rep) == ReplaceRuns(x, p, rep) + ReplaceRuns(z, p, rep)
    decreases |x|
  {
    if x == [] {
      assert x + z == z;
    } else if !p(x[0]) {
      assert |x| > 1 ==> x[1..][|x| - 2] == x[|x| - 1];
      ReplaceRunsKeepStep(x, z, p, rep);
      ReplaceRunsAppend(x[1..], z, p, rep);
      Regroup([x[0]], ReplaceRuns(x[1..], p, rep), ReplaceRuns(z, p, rep));
    } else {
      var n := RunLength(x, p);
      assert !p(x[|x| - 1]);
      assert x[n..][|x| - n - 1] == x[|x| - 1];
      ReplaceRunsRunStep(x, z, p, rep);
      ReplaceRunsAppend(x[n..], z, p, rep);
      Regroup([rep], ReplaceRuns(x[n..], p, rep), ReplaceRuns(z, p, rep));
    }
  }

  /**
   * Every maximal run is replaced on its own: for text `x` that ends
   * outside the class, a run `w` of the class and text `y` that starts
   * outside it, the run becomes one `rep` between the two replaced sides.
   * With `ReplaceRunsNone` this determines the result on every input.
   */
  lemma ReplaceRunsSplit(x: string, w: string, y: string, p: char -> bool, rep: char)
    requires x == [] || !p(x[|x| - 1])
    requires w != [] && forall k :: 0 <= k < |w| ==> p(w[k])
    requires y == [] || !p(y[0])
    ensures ReplaceRuns(x + w + y, p, rep) == ReplaceRuns(x, p, rep) + [rep] + ReplaceRuns(y, p, rep)
  {
    Regroup(x, w, y);
    ReplaceRunsAppend(x, w + y, p, rep);
    ReplaceRunsRun(w, y, p, rep);
    Regroup(ReplaceRuns(x, p, rep), [rep], ReplaceRuns(y, p, rep));
  }

  lemma Regroup(a: string, b: string, c: string)
    ensures a + b + c == a + (b + c)
  {
  }

  /** The first whitespace of `a + z` is where `z` begins, when `a` has none. */
  lemma {:induction false} FirstSpaceOf(a: string, z: string)
    requires NoSpace(a) && z != [] && IsSpace(z[0])
    ensures FirstSpace(a + z) == |a|
  {
    if a == [] {
      assert a + z == z;
    } else {
      assert (a + z)[0] == a[0] && (a + z)[1..] == a[1..] + z;
      FirstSpaceOf(a[1..], z);
    }
  }

  /** Text without whitespace is a single piece. */
  lemma SplitWsNone(a: string)
    requires NoSpace(a)
    ensures SplitWs(a) == [a]
  {
    assert FirstSpace(a) == |a|;
    assert a[..|a|] == a;
  }

  /**
   * A piece, a maximal whitespace run, then the rest: the piece is split
   * off and the rest is split on its own. With `SplitWsNone` this
   * determines the pieces of every input, and gluing them back with the
   * runs between them gives the input.
   */
  lemma SplitWsSplit(a: string, w: string, b: string)
    requires NoSpace(a) && w != [] && AllSpace(w) && (b == [] || !IsSpace(b[0]))
    ensures SplitWs(a + w + b) == [a] + SplitWs(b)
  {
    var s := a + w + b;
    assert s == a + (w + b);
    assert (w + b)[0] == w[0];
    FirstSpaceOf(a, w + b);
    assert s[|a|..] == w + b && s[..|a|] == a;
    RunLengthOf(w, b, IsSpace);
    assert s[|a| + |w|..] == b;
  }

  /** The words of a text: its first piece when that is not empty, then the words of the rest. */
  lemma WordsSplit(a: string, w: string, b: string)
    requires NoSpace(a) && w != [] && AllSpace(w) && (b == [] || !IsSpace(b[0]))
    ensures Words(a + w + b) == (if a == [] then [] else [a]) + Words(b)
  {
    SplitWsSplit(a, w, b);
    FilterCons(a, SplitWs(b), IsWord);
  }

  /** All pieces glued together, with nothing between them. */
  function Concat(ws: seq<string>): (r: string)
    ensures ws != [] ==> r == ws[0] + Concat(ws[1..])
  {
    if ws == [] then [] else ws[0] + Concat(ws[1..])
  }

  predicate NotSpace(c: char) { !IsSpace(c) }

  /** Removing whitespace from a piece, a run and the rest removes the run. */
  lemma DropSpaceStep(a: string, w: string, b: string)
    requires NoSpace(a) && AllSpace(w)
    ensures Filter(a + w + b, NotSpace) == a + Filter(b, NotSpace)
  {
    FilterAppend(a + w, b, NotSpace);
    FilterAppend(a, w, NotSpace);
    FilterAll(a, NotSpace);
    FilterNone(w, NotSpace);
    assert a + [] == a;
  }

  /** Gluing the words of a piece, a run and the rest. */
  lemma ConcatWordsStep(a: string, w: string, b: string)
    requires NoSpace(a) && w != [] && AllSpace(w) && (b == [] || !IsSpace(b[0]))
    ensures Concat(Words(a + w + b)) == a + Concat(Words(b))
  {
    WordsSplit(a, w, b);
    var ws := if a == [] then [] else [a];
    if a != [] {
      assert (ws + Words(b))[0] == a && (ws + Words(b))[1..] == Words(b);
    } else {
      assert ws + Words(b) == Words(b);
    }
  }

  /** Text without whitespace: its words glued together are the text. */
  lemma ConcatWordsNone(s: string)
    requires NoSpace(s)
    ensures Concat(Words(s)) == s && Filter(s, NotSpace) == s
  {
    SplitWsNone(s);
    FilterCons(s, [], IsWord);
    FilterAll(s, NotSpace);
    if s != [] {
      assert Concat(Words(s)) == s + Concat([]);
    }
  }

  /** The words glued together are the input with every whitespace character removed. */
  lemma {:induction false} WordsConcat(s: string)
    ensures Concat(Words(s)) == Filter(s, NotSpace)
    decreases |s|
  {
    var i := FirstSpace(s);
    if i == |s| {
      assert s[..i] == s;
      ConcatWordsNone(s);
    } else {
      var j := RunEnd(s, i);
      var a, w, b := s[..i], s[i..j], s[j..];
      assert s == a + w + b;
      ConcatWordsStep(a, w, b);
      DropSpaceStep(a, w, b);
      WordsConcat(b);
    }
  }
}
