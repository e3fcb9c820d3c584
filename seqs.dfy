/** Sequence helpers standing for JavaScript's array methods. */
module Seqs {

  /**
   * `s.filter(p)`: the elements that pass, in order. `FilterCounts` adds
   * that each keeps its number of occurrences, and `FilterUnique` that
   * these facts determine the result.
   */
  function Filter<T>(s: seq<T>, p: T -> bool): (r: seq<T>)
    ensures |r| <= |s|
    ensures forall i :: 0 <= i < |r| ==> r[i] in s && p(r[i])
    ensures forall i :: 0 <= i < |s| && p(s[i]) ==> s[i] in r
    ensures IsSubsequence(r, s)
  {
    if s == [] then []
    else if p(s[0]) then [s[0]] + Filter(s[1..], p)
    else Filter(s[1..], p)
  }

  /** Counting only what passes. */
  ghost predicate CountsKept<T>(r: seq<T>, s: seq<T>, p: T -> bool)
  {
    forall i :: 0 <= i < |s| ==> multiset(r)[s[i]] == if p(s[i]) then multiset(s)[s[i]] else 0
  }

  /** Each passing element occurs in the filter as often as in `s`; the others not at all. */
  lemma {:induction false} FilterCounts<T>(s: seq<T>, p: T -> bool)
    ensures CountsKept(Filter(s, p), s, p)
  {
    if s != [] {
      var x, t := s[0], s[1..];
      var r, r' := Filter(s, p), Filter(t, p);
      assert s == [x] + t;
      assert r == if p(x) then [x] + r' else r';
      FilterCounts(t, p);
      forall i | 0 <= i < |s| ensures multiset(r)[s[i]] == if p(s[i]) then multiset(s)[s[i]] else 0 {
        var y := s[i];
        assert multiset(s)[y] == multiset(t)[y] + (if y == x then 1 else 0);
        assert multiset(r)[y] == multiset(r')[y] + (if y == x && p(x) then 1 else 0);
        if i > 0 {
          assert y == t[i - 1];
        } else if !(exists j :: 0 <= j < |t| && t[j] == y) {
          assert multiset(t)[y] == 0;
          assert multiset(r')[y] == 0 by { SubsequenceCounts(r', t); }
        } else {
          var j :| 0 <= j < |t| && t[j] == y;
        }
      }
    }
  }

  /** `r` is obtained from `s` by deleting elements, keeping the order of the rest. */
  ghost predicate IsSubsequence<T>(r: seq<T>, s: seq<T>)
  {
    if r == [] then true
    else if s == [] then false
    else if r[0] == s[0] then IsSubsequence(r[1..], s[1..])
    else IsSubsequence(r, s[1..])
  }

  /** Keeping elements in order never adds occurrences. */
  lemma {:induction false} SubsequenceCounts<T>(r: seq<T>, s: seq<T>)
    requires IsSubsequence(r, s)
    ensures multiset(r) <= multiset(s)
  {
    if r != [] {
      assert s == [s[0]] + s[1..];
      if r[0] == s[0] {
        SubsequenceCounts(r[1..], s[1..]);
        assert r == [r[0]] + r[1..];
      } else {
        SubsequenceCounts(r, s[1..]);
      }
    }
  }

  /** Counts for a list with a kept head carry over to the tails. */
  lemma CountsKeptHead<T>(x: T, r: seq<T>, t: seq<T>, p: T -> bool)
    requires CountsKept([x] + r, [x] + t, p)
    ensures p(x) && CountsKept(r, t, p)
  {
    var s := [x] + t;
    assert multiset([x] + r)[s[0]] >= 1;
    forall j | 0 <= j < |t| ensures multiset(r)[t[j]] == if p(t[j]) then multiset(t)[t[j]] else 0 {
      assert t[j] == s[j + 1];
    }
  }

  /** Counts for a list whose head was dropped carry over to its tail. */
  lemma CountsKeptSkip<T>(x: T, r: seq<T>, t: seq<T>, p: T -> bool)
    requires CountsKept(r, [x] + t, p) && multiset(r) <= multiset(t)
    ensures !p(x) && CountsKept(r, t, p)
  {
    var s := [x] + t;
    assert multiset(r)[s[0]] <= multiset(t)[x] < multiset(s)[x];
    forall j | 0 <= j < |t| ensures multiset(r)[t[j]] == if p(t[j]) then multiset(t)[t[j]] else 0 {
      assert t[j] == s[j + 1];
      if t[j] == x {
        assert multiset(r)[s[0]] == 0;
      }
    }
  }

  /** A subsequence of `s` holding every passing element as often as `s` does is `Filter(s, p)`. */
  lemma {:induction false} FilterUnique<T>(r: seq<T>, s: seq<T>, p: T -> bool)
    requires IsSubsequence(r, s)
    requires CountsKept(r, s, p)
    ensures r == Filter(s, p)
  {
    if s != [] {
      var x, t := s[0], s[1..];
      assert s == [x] + t;
      if r != [] && r[0] == x {
        assert r == [x] + r[1..];
        CountsKeptHead(x, r[1..], t, p);
        FilterUnique(r[1..], t, p);
      } else {
        assert IsSubsequence(r, t);
        SubsequenceCounts(r, t);
        CountsKeptSkip(x, r, t, p);
        FilterUnique(r, t, p);
      }
    }
  }

  /** The filter of a list with a given head. */
  lemma FilterCons<T>(x: T, rest: seq<T>, p: T -> bool)
    ensures Filter([x] + rest, p) == if p(x) then [x] + Filter(rest, p) else Filter(rest, p)
  {
    assert ([x] + rest)[0] == x && ([x] + rest)[1..] == rest;
  }

  lemma {:induction false} FilterAll<T>(s: seq<T>, p: T -> bool)
    requires forall i :: 0 <= i < |s| ==> p(s[i])
    ensures Filter(s, p) == s
  {
    if s != [] {
      FilterAll(s[1..], p);
    }
  }

  lemma {:induction false} FilterNone<T>(s: seq<T>, p: T -> bool)
    requires forall i :: 0 <= i < |s| ==> !p(s[i])
    ensures Filter(s, p) == []
  {
    if s != [] {
      FilterNone(s[1..], p);
    }
  }

  lemma {:induction false} FilterAppend<T>(s: seq<T>, t: seq<T>, p: T -> bool)
    ensures Filter(s + t, p) == Filter(s, p) + Filter(t, p)
  {
    if s == [] {
      assert s + t == t;
    } else {
      assert (s + t)[0] == s[0] && (s + t)[1..] == s[1..] + t;
      FilterAppend(s[1..], t, p);
    }
  }

  /** `parts.join(sep)`. */
  function Join(parts: seq<string>, sep: string): (r: string)
    ensures |parts| == 1 ==> r == parts[0]
  {
    if parts == [] then ""
    else if |parts| == 1 then parts[0]
    else parts[0] + sep + Join(parts[1..], sep)
  }

  /** Joining two non-empty lists puts one separator between their joins. */
  lemma {:induction false} JoinAppend(a: seq<string>, b: seq<string>, sep: string)
    requires a != [] && b != []
    ensures Join(a + b, sep) == Join(a, sep) + sep + Join(b, sep)
  {
    if |a| > 1 {
      assert (a + b)[1..] == a[1..] + b;
      JoinAppend(a[1..], b, sep);
    } else {
      assert (a + b)[1..] == b;
    }
  }

  /** `s.split('').reverse().join('')` and friends. */
  function Reverse<T>(s: seq<T>): (r: seq<T>)
    ensures |r| == |s|
  {
    if s == [] then [] else Reverse(s[1..]) + [s[0]]
  }

  lemma {:induction false} ReverseAt<T>(s: seq<T>, k: nat)
    requires k < |s|
    ensures Reverse(s)[k] == s[|s| - 1 - k]
  {
    if k < |s| - 1 {
      ReverseAt(s[1..], k);
    }
  }

  lemma ReverseReverse<T>(s: seq<T>)
    ensures Reverse(Reverse(s)) == s
  {
    forall k | 0 <= k < |s| ensures Reverse(Reverse(s))[k] == s[k] {
      ReverseAt(Reverse(s), k);
      ReverseAt(s, |s| - 1 - k);
    }
  }

  /** `s.includes(sub)`: `sub` occurs at some position of `s`. */
  predicate Contains<T(==)>(s: seq<T>, sub: seq<T>)
  {
    sub <= s || (s != [] && Contains(s[1..], sub))
  }

  lemma {:induction false} ContainsAt<T>(s: seq<T>, sub: seq<T>, i: nat)
    requires i + |sub| <= |s| && s[i..i + |sub|] == sub
    ensures Contains(s, sub)
  {
    if i > 0 {
      assert s[1..][i - 1..i - 1 + |sub|] == sub;
      ContainsAt(s[1..], sub, i - 1);
    }
  }

  /** No element occurs twice. */
  predicate NoDuplicates<T(==)>(s: seq<T>)
  {
    forall i, j :: 0 <= i < j < |s| ==> s[i] != s[j]
  }

  /** An element survives the filter iff it was there and passes the test. */
  lemma FilterMember<T>(s: seq<T>, p: T -> bool, x: T)
    ensures x in Filter(s, p) <==> x in s && p(x)
  {
    var r := Filter(s, p);
    if x in r {
      var i :| 0 <= i < |r| && r[i] == x;
    }
    if x in s && p(x) {
      var i :| 0 <= i < |s| && s[i] == x;
    }
  }

  lemma NoDuplicatesTail<T>(s: seq<T>)
    requires NoDuplicates(s) && s != []
    ensures s[0] !in s[1..] && NoDuplicates(s[1..])
  {
    forall i, j | 0 <= i < j < |s[1..]| ensures s[1..][i] != s[1..][j] {
      assert s[1..][i] == s[i + 1] && s[1..][j] == s[j + 1];
    }
  }

  lemma NoDuplicatesCons<T>(x: T, t: seq<T>)
    requires x !in t && NoDuplicates(t)
    ensures NoDuplicates([x] + t)
  {
    var r := [x] + t;
    forall i, j | 0 <= i < j < |r| ensures r[i] != r[j] {
      assert r[j] == t[j - 1];
      if i > 0 {
        assert r[i] == t[i - 1];
      }
    }
  }

  /** Filtering keeps a duplicate-free sequence duplicate-free. */
  lemma {:induction false} FilterNoDuplicates<T>(s: seq<T>, p: T -> bool)
    requires NoDuplicates(s)
    ensures NoDuplicates(Filter(s, p))
  {
    if s != [] {
      NoDuplicatesTail(s);
      FilterNoDuplicates(s[1..], p);
      if p(s[0]) {
        FilterMember(s[1..], p, s[0]);
        NoDuplicatesCons(s[0], Filter(s[1..], p));
        assert Filter(s, p) == [s[0]] + Filter(s[1..], p);
      } else {
        assert Filter(s, p) == Filter(s[1..], p);
      }
    }
  }

  /** Filtering out at least one element shortens the sequence. */
  lemma {:induction false} FilterShrinks<T>(s: seq<T>, p: T -> bool, i: nat)
    requires i < |s| && !p(s[i])
    ensures |Filter(s, p)| < |s|
  {
    if i > 0 {
      FilterShrinks(s[1..], p, i - 1);
    }
  }

  /** Filtering out one failing element between two passing runs leaves the two runs. */
  lemma FilterRemovesOne<T>(a: seq<T>, x: T, b: seq<T>, p: T -> bool)
    requires forall k :: 0 <= k < |a| ==> p(a[k])
    requires forall k :: 0 <= k < |b| ==> p(b[k])
    requires !p(x)
    ensures Filter(a + [x] + b, p) == a + b
  {
    assert Filter(a, p) == a by { FilterAll(a, p); }
    assert Filter(b, p) == b by { FilterAll(b, p); }
    assert Filter([x], p) == [] by { FilterCons(x, [], p); }
    assert Filter(a + [x], p) == a by {
      FilterAppend(a, [x], p);
      assert a + [] == a;
    }
    FilterAppend(a + [x], b, p);
  }

  /** Filtering a sequence whose keys strictly increase leaves keys that strictly increase. */
  lemma {:induction false} FilterKeepsOrder<T>(s: seq<T>, p: T -> bool, key: T -> int)
    requires forall i, j :: 0 <= i < j < |s| ==> key(s[i]) < key(s[j])
    ensures forall i, j :: 0 <= i < j < |Filter(s, p)| ==> key(Filter(s, p)[i]) < key(Filter(s, p)[j])
  {
    if s != [] {
      var t := s[1..];
      assert forall i, j :: 0 <= i < j < |t| ==> key(t[i]) < key(t[j]) by {
        forall i, j | 0 <= i < j < |t| ensures key(t[i]) < key(t[j]) {
          assert t[i] == s[i + 1] && t[j] == s[j + 1];
        }
      }
      FilterKeepsOrder(t, p, key);
      if p(s[0]) {
        var r := Filter(s, p);
        var q := Filter(t, p);
        assert r == [s[0]] + q;
        forall m | 0 <= m < |q| ensures key(s[0]) < key(q[m]) {
          var n :| 0 <= n < |t| && t[n] == q[m];
          assert t[n] == s[n + 1];
        }
        forall i, j | 0 <= i < j < |r| ensures key(r[i]) < key(r[j]) {
          assert r[j] == q[j - 1];
          if i > 0 {
            assert r[i] == q[i - 1];
          }
        }
      }
    }
  }
}
