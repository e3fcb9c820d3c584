/**
 * The permission calculator: a running `bigint` total whose flags are
 * switched on and off from a catalog of named permissions, and a
 * case-insensitive search over that catalog.
 */
module PermissionTool {
  import opened Bits
  import opened Chars
  import opened Decimal
  import Seqs

  /** A catalog entry; the catalog itself is a parameter of the model. */
  datatype Permission = Permission(name: string, value: nat, description: string)

  /** `(total & value) === value`: every bit of the flag is set. */
  predicate IsActive(total: nat, value: nat)
  {
    And(total, value) == value
  }

  /**
   * `togglePermission`: an active flag is cleared (`total & ~value`), any
   * other is set (`total | value`). Either way the flag's bits all end up
   * the same, and no other bit moves.
   */
  function ToggleValue(total: nat, value: nat): (r: nat)
    ensures forall i: nat :: Bit(r, i) == (if Bit(value, i) then !IsActive(total, value) else Bit(total, i))
  {
    if IsActive(total, value) then AndNot(total, value) else Or(total, value)
  }

  /** Toggling touches only the flag's bits: `(new ^ old) & ~value == 0`. */
  lemma ToggleOnlyTouchesFlag(total: nat, value: nat)
    ensures AndNot(Xor(ToggleValue(total, value), total), value) == 0
  {
    var d := AndNot(Xor(ToggleValue(total, value), total), value);
    forall i: nat ensures Bit(d, i) == Bit(0, i) {
      ZeroBits(i);
    }
    BitsDetermine(d, 0);
  }

  /** For a nonzero flag, a toggle flips whether it shows as active. */
  lemma ToggleFlipsActive(total: nat, value: nat)
    requires value != 0
    ensures IsActive(ToggleValue(total, value), value) == !IsActive(total, value)
  {
    var r := ToggleValue(total, value);
    NonzeroHasBit(value);
    var k: nat :| Bit(value, k);
    AndCovers(r, value);
    if IsActive(total, value) {
      assert !Bit(r, k);
    } else {
      assert forall i: nat :: Bit(value, i) ==> Bit(r, i);
    }
  }

  /**
   * Toggling the same flag twice restores the total when the flag's bits
   * were all set or all clear to begin with.
   */
  lemma DoubleToggleRestores(total: nat, value: nat)
    requires IsActive(total, value) || And(total, value) == 0
    ensures ToggleValue(ToggleValue(total, value), value) == total
  {
    var r1 := ToggleValue(total, value);
    var r2 := ToggleValue(r1, value);
    if value == 0 {
      forall i: nat ensures !Bit(value, i) { ZeroBits(i); }
      forall i: nat ensures Bit(r2, i) == Bit(total, i) { }
    } else {
      ToggleFlipsActive(total, value);
      ToggleFlipsActive(r1, value);
      AndCovers(total, value);
      AndDisjoint(total, value);
      forall i: nat ensures Bit(r2, i) == Bit(total, i) {
        if Bit(value, i) {
          assert Bit(total, i) == IsActive(total, value);
        }
      }
    }
    BitsDetermine(r2, total);
  }

  /** A single-bit flag is always all set or all clear, so it always toggles back. */
  lemma SingleBitToggleRestores(total: nat, k: nat)
    ensures ToggleValue(ToggleValue(total, Pow2(k)), Pow2(k)) == total
  {
    var v := Pow2(k);
    forall i: nat ensures Bit(v, i) == (i == k) { Pow2Bit(k, i); }
    AndCovers(total, v);
    AndDisjoint(total, v);
    DoubleToggleRestores(total, v);
  }

  /** With partial overlap a double toggle does not restore: 1 becomes 3, then 0. */
  lemma PartialOverlapDoesNotRestore()
    ensures ToggleValue(1, 3) == 3
    ensures ToggleValue(ToggleValue(1, 3), 3) == 0
  {
    assert And(1, 3) == 1;
    assert Or(1, 3) == 3;
    assert And(3, 3) == 3;
    assert AndNot(3, 3) == 0;
  }

  /** Overlapping flags do not commute: from 0, toggling 1 then 3 gives 3, but 3 then 1 gives 2. */
  lemma OverlappingTogglesDiffer()
    ensures ToggleValue(ToggleValue(0, 1), 3) == 3
    ensures ToggleValue(ToggleValue(0, 3), 1) == 2
  {
    assert And(0, 1) == 0 && Or(0, 1) == 1;
    assert And(1, 3) == 1 && Or(1, 3) == 3;
    assert And(0, 3) == 0 && Or(0, 3) == 3;
    assert And(3, 1) == 1 && AndNot(3, 1) == 2;
  }

  /** Whether one flag is active does not depend on toggling a disjoint one. */
  lemma DisjointToggleKeepsActive(total: nat, a: nat, b: nat)
    requires And(a, b) == 0
    ensures IsActive(ToggleValue(total, b), a) == IsActive(total, a)
  {
    var r := ToggleValue(total, b);
    AndDisjoint(a, b);
    AndCovers(total, a);
    AndCovers(r, a);
    assert forall i: nat :: Bit(a, i) ==> Bit(r, i) == Bit(total, i);
  }

  /** Toggles of disjoint flags commute. */
  lemma DisjointTogglesCommute(total: nat, a: nat, b: nat)
    requires And(a, b) == 0
    ensures ToggleValue(ToggleValue(total, a), b) == ToggleValue(ToggleValue(total, b), a)
  {
    var ab := ToggleValue(ToggleValue(total, a), b);
    var ba := ToggleValue(ToggleValue(total, b), a);
    DisjointToggleKeepsActive(total, a, b);
    assert And(b, a) == 0 by { AndDisjoint(a, b); AndDisjoint(b, a); }
    DisjointToggleKeepsActive(total, b, a);
    AndDisjoint(a, b);
    forall i: nat ensures Bit(ab, i) == Bit(ba, i) { }
    BitsDetermine(ab, ba);
  }

  /** From the initial total 0 a toggle yields the flag itself. */
  lemma ToggleFromZero(value: nat)
    ensures ToggleValue(0, value) == value
  {
    var r := ToggleValue(0, value);
    forall i: nat ensures Bit(r, i) == Bit(value, i) {
      ZeroBits(i);
      if Bit(value, i) {
        assert !IsActive(0, value) by { AndCovers(0, value); }
      }
    }
    BitsDetermine(r, value);
  }

  /** No two catalog flags share a bit. */
  predicate DisjointCatalog(catalog: seq<Permission>)
  {
    forall k, l :: 0 <= k < l < |catalog| ==> And(catalog[k].value, catalog[l].value) == 0
  }

  /**
   * `total` is made of whole catalog flags: every set bit belongs to some
   * flag, and no flag is only partly set. Over a disjoint catalog this is
   * being the bitwise union of some of the flags.
   */
  ghost predicate WholeFlags(total: nat, catalog: seq<Permission>)
  {
    (forall i: nat :: Bit(total, i) ==> exists k :: 0 <= k < |catalog| && Bit(catalog[k].value, i))
    && (forall k, i: nat, j: nat :: 0 <= k < |catalog| && Bit(catalog[k].value, i) && Bit(catalog[k].value, j)
          ==> (Bit(total, i) <==> Bit(total, j)))
  }

  lemma ZeroWholeFlags(catalog: seq<Permission>)
    ensures WholeFlags(0, catalog)
  {
    forall i: nat ensures !Bit(0, i) { ZeroBits(i); }
  }

  /** Over a disjoint catalog, toggling a catalog flag keeps the total made of whole flags. */
  lemma ToggleKeepsWholeFlags(total: nat, catalog: seq<Permission>, k: nat)
    requires DisjointCatalog(catalog) && k < |catalog|
    requires WholeFlags(total, catalog)
    ensures WholeFlags(ToggleValue(total, catalog[k].value), catalog)
  {
    var v := catalog[k].value;
    var r := ToggleValue(total, v);
    forall i: nat | Bit(r, i) ensures exists l :: 0 <= l < |catalog| && Bit(catalog[l].value, i) {
      if !Bit(v, i) {
        assert Bit(total, i);
      }
    }
    forall l, i: nat, j: nat | 0 <= l < |catalog| && Bit(catalog[l].value, i) && Bit(catalog[l].value, j)
      ensures Bit(r, i) <==> Bit(r, j)
    {
      if l != k {
        var a := catalog[l].value;
        if l < k { AndDisjoint(a, v); } else { AndDisjoint(v, a); }
        assert !Bit(v, i) && !Bit(v, j);
      }
    }
  }

  /**
   * With overlapping flags 1 and 3 the invariant fails: toggling 3 and
   * then 1 leaves 2, which is neither 0, 1, 3 nor 1 | 3, and has flag 3
   * only partly set.
   */
  lemma OverlappingFlagsBreakUnion()
    ensures var total := ToggleValue(ToggleValue(0, 3), 1);
      total == 2 && total !in {0, 1, 3, Or(1, 3)}
      && !WholeFlags(total, [Permission("", 1, ""), Permission("", 3, "")])
  {
    OverlappingTogglesDiffer();
    assert Or(1, 3) == 3 by { assert Bit(Or(1, 3), 0); }
    assert Bit(3, 0) && Bit(3, 1) && Bit(2, 1) && !Bit(2, 0);
  }

  /** `p.name.toLowerCase().includes(q) || p.description.toLowerCase().includes(q)`. */
  predicate Matches(p: Permission, query: string)
  {
    Seqs.Contains(LowerString(p.name), LowerString(query))
    || Seqs.Contains(LowerString(p.description), LowerString(query))
  }

  /** `filteredPermissions`: the matching entries, in catalog order. */
  function FilterPermissions(catalog: seq<Permission>, query: string): (r: seq<Permission>)
    ensures Seqs.IsSubsequence(r, catalog)
    ensures forall i :: 0 <= i < |r| ==> Matches(r[i], query)
    ensures forall i :: 0 <= i < |catalog| && Matches(catalog[i], query) ==> catalog[i] in r
    ensures Seqs.CountsKept(r, catalog, p => Matches(p, query))
  {
    Seqs.FilterCounts(catalog, p => Matches(p, query));
    Seqs.Filter(catalog, p => Matches(p, query))
  }

  /** Every entry matches the empty query, so it lists the whole catalog. */
  lemma EmptyQueryKeepsAll(catalog: seq<Permission>)
    ensures FilterPermissions(catalog, "") == catalog
  {
    forall i | 0 <= i < |catalog| ensures Matches(catalog[i], "") {
      assert LowerString("") == [];
      assert [] <= LowerString(catalog[i].name);
    }
    Seqs.FilterAll(catalog, p => Matches(p, ""));
  }

  /** The calculator's state: the running total. */
  class PermissionCalculator {
    var total: nat

    constructor()
      ensures total == 0
    {
      total := 0;
    }

    method Toggle(value: nat)
      modifies this
      ensures total == ToggleValue(old(total), value)
    {
      if And(total, value) == value {
        total := AndNot(total, value);
      } else {
        total := Or(total, value);
      }
    }

    method Reset()
      modifies this
      ensures total == 0
    {
      total := 0;
    }

    predicate Active(value: nat)
      reads this
    {
      IsActive(total, value)
    }

    /** `total.toString()`: the shown and copied text, the exact decimal value. */
    function ResultText(): (r: string)
      reads this
      ensures Canonical(r) && Value(r) == total
    {
      ToDecimal(total)
    }
  }
}
