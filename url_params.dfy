/**
 * `URLSearchParams` as an ordered list of name/value pairs, with the
 * `get`, `has`, `set` and `delete` operations of the URL standard.
 */
module UrlParams {
  import opened Wrappers
  import Seqs

  type Param = (string, string)

  /** The pairs named `name`, in order. */
  function Named(ps: seq<Param>, name: string): (r: seq<Param>)
    ensures forall i :: 0 <= i < |r| ==> r[i].0 == name
  {
    if ps == [] then []
    else (if ps[0].0 == name then [ps[0]] else []) + Named(ps[1..], name)
  }

  lemma {:induction false} NamedAppend(a: seq<Param>, b: seq<Param>, name: string)
    ensures Named(a + b, name) == Named(a, name) + Named(b, name)
  {
    if a == [] {
      assert a + b == b;
    } else {
      assert (a + b)[1..] == a[1..] + b;
      NamedAppend(a[1..], b, name);
    }
  }

  /** `params.get(name)`: the value of the first pair with that name, if any. */
  function Get(ps: seq<Param>, name: string): (r: Option<string>)
    ensures r.None? <==> Named(ps, name) == []
    ensures r.Some? ==> Named(ps, name)[0] == (name, r.value)
  {
    if ps == [] then None
    else if ps[0].0 == name then Some(ps[0].1)
    else Get(ps[1..], name)
  }

  /** `params.has(name)`. */
  predicate Has(ps: seq<Param>, name: string)
  {
    Named(ps, name) != []
  }

  /** `params.delete(name)`: every pair with that name goes, the others stay in order. */
  function Delete(ps: seq<Param>, name: string): (r: seq<Param>)
    ensures Named(r, name) == []
    ensures forall n :: n != name ==> Named(r, n) == Named(ps, n)
    ensures Seqs.IsSubsequence(r, ps)
    ensures Named(ps, name) == [] ==> r == ps
  {
    if ps == [] then []
    else if ps[0].0 == name then Delete(ps[1..], name)
    else
      var r := [ps[0]] + Delete(ps[1..], name);
      assert r[1..] == Delete(ps[1..], name);
      r
  }

  /**
   * `params.set(name, value)`: the first pair with that name gets the new
   * value and later ones go; with no such pair, the pair is appended.
   */
  function Set(ps: seq<Param>, name: string, value: string): (r: seq<Param>)
    ensures Named(r, name) == [(name, value)]
    ensures forall n :: n != name ==> Named(r, n) == Named(ps, n)
    ensures Named(ps, name) == [] ==> r == ps + [(name, value)]
  {
    if ps == [] then [(name, value)]
    else if ps[0].0 == name then
      var r := [(name, value)] + Delete(ps[1..], name);
      assert r[1..] == Delete(ps[1..], name);
      r
    else
      var r := [ps[0]] + Set(ps[1..], name, value);
      assert r[1..] == Set(ps[1..], name, value);
      r
  }

  /**
   * The new pair takes the place of the first pair with that name: what
   * comes before stays, and only the other pairs with that name go after.
   */
  lemma {:induction false} SetAt(ps: seq<Param>, name: string, value: string, i: nat)
    requires i < |ps| && ps[i].0 == name
    requires forall j :: 0 <= j < i ==> ps[j].0 != name
    ensures Set(ps, name, value) == ps[..i] + [(name, value)] + Delete(ps[i + 1..], name)
  {
    var x := (name, value);
    if i == 0 {
      assert Set(ps, name, value) == [x] + Delete(ps[1..], name);
      assert ps[..0] == [];
    } else {
      var t := ps[1..];
      assert ps[0].0 != name;
      assert Set(ps, name, value) == [ps[0]] + Set(t, name, value);
      SetAt(t, name, value, i - 1);
      assert t[..i - 1] == ps[1..i] && t[i..] == ps[i + 1..];
      ConsRegroup(ps[0], ps[1..i], x, Delete(ps[i + 1..], name));
      assert ps[..i] == [ps[0]] + ps[1..i];
    }
  }

  lemma ConsRegroup(p: Param, a: seq<Param>, x: Param, d: seq<Param>)
    ensures [p] + (a + [x] + d) == ([p] + a) + [x] + d
  {
  }
}
