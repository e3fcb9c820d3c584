/**
 * Bitwise operations on non-negative big integers (JavaScript `bigint`
 * values that are never negative), described bit by bit.
 */
module Bits {

  function Pow2(k: nat): (r: nat)
    ensures r >= 1
  {
    if k == 0 then 1 else 2 * Pow2(k - 1)
  }

  /** Bit `i` of `n`. */
  predicate Bit(n: nat, i: nat)
  {
    if i == 0 then n % 2 == 1 else Bit(n / 2, i - 1)
  }

  lemma {:induction false} ZeroBits(i: nat)
    ensures !Bit(0, i)
  {
    if i > 0 {
      ZeroBits(i - 1);
    }
  }

  /** Two numbers with the same bits are equal. */
  lemma {:induction false} BitsDetermine(a: nat, b: nat)
    requires forall i: nat :: Bit(a, i) == Bit(b, i)
    ensures a == b
    decreases a + b
  {
    if a + b > 0 {
      forall i: nat ensures Bit(a / 2, i) == Bit(b / 2, i) {
        assert Bit(a, i + 1) == Bit(b, i + 1);
      }
      BitsDetermine(a / 2, b / 2);
      assert Bit(a, 0) == Bit(b, 0);
    }
  }

  /** `a & b`. */
  function And(a: nat, b: nat): (r: nat)
    ensures forall i: nat :: Bit(r, i) == (Bit(a, i) && Bit(b, i))
    decreases a
  {
    if a == 0 then
      forall i: nat ensures !Bit(0, i) { ZeroBits(i); }
      0
    else
      2 * And(a / 2, b / 2) + (if a % 2 == 1 && b % 2 == 1 then 1 else 0)
  }

  /** `a | b`. */
  function Or(a: nat, b: nat): (r: nat)
    ensures forall i: nat :: Bit(r, i) == (Bit(a, i) || Bit(b, i))
    decreases a
  {
    if a == 0 then
      forall i: nat ensures !Bit(0, i) { ZeroBits(i); }
      b
    else
      2 * Or(a / 2, b / 2) + (if a % 2 == 1 || b % 2 == 1 then 1 else 0)
  }

  /** `a & ~b`: the bits of `a` that are not bits of `b`. */
  function AndNot(a: nat, b: nat): (r: nat)
    ensures forall i: nat :: Bit(r, i) == (Bit(a, i) && !Bit(b, i))
    decreases a
  {
    if a == 0 then
      forall i: nat ensures !Bit(0, i) { ZeroBits(i); }
      0
    else
      2 * AndNot(a / 2, b / 2) + (if a % 2 == 1 && b % 2 == 0 then 1 else 0)
  }

  /** `a ^ b`. */
  function Xor(a: nat, b: nat): (r: nat)
    ensures forall i: nat :: Bit(r, i) == (Bit(a, i) != Bit(b, i))
    decreases a
  {
    if a == 0 then
      forall i: nat ensures !Bit(0, i) { ZeroBits(i); }
      b
    else
      2 * Xor(a / 2, b / 2) + (if (a % 2 == 1) != (b % 2 == 1) then 1 else 0)
  }

  /** `x >> k`. */
  function ShiftRight(x: nat, k: nat): nat
  {
    var p := Pow2(k);
    DivNonNegative(x, p);
    x / p
  }

  lemma DivNonNegative(x: nat, d: int)
    requires d > 0
    ensures x / d >= 0
  {
    assert x == (x / d) * d + x % d;
    MulSign(x / d, d);
  }

  /** `x << k`. */
  function ShiftLeft(x: nat, k: nat): nat
  {
    x * Pow2(k)
  }

  /** `2^k - 1`. */
  function Mask(k: nat): nat
  {
    Pow2(k) - 1
  }

  lemma MulSign(k: int, d: int)
    requires d > 0
    ensures k >= 1 ==> k * d >= d
    ensures k <= -1 ==> k * d <= -d
  {
    if k >= 1 {
      assert k * d == d + (k - 1) * d;
    } else if k <= -1 {
      assert k * d == -d + (k + 1) * d;
    }
  }

  lemma DivModUnique(x: int, d: int, q: int, r: int)
    requires d > 0 && x == q * d + r && 0 <= r < d
    ensures x / d == q && x % d == r
  {
    var q', r' := x / d, x % d;
    assert x == q' * d + r';
    assert (q' - q) * d == q' * d - q * d;
    MulSign(q' - q, d);
  }

  lemma DivModTwice(x: nat, p: nat)
    requires p >= 1
    ensures x / (2 * p) == (x / 2) / p
    ensures x % (2 * p) == 2 * ((x / 2) % p) + x % 2
  {
    var q := (x / 2) / p;
    var r := 2 * ((x / 2) % p) + x % 2;
    assert x / 2 == q * p + (x / 2) % p;
    assert x == q * (2 * p) + r;
    DivModUnique(x, 2 * p, q, r);
  }

  lemma {:induction false} ShiftRightBit(x: nat, k: nat, i: nat)
    ensures Bit(ShiftRight(x, k), i) == Bit(x, i + k)
  {
    if k > 0 {
      DivModTwice(x, Pow2(k - 1));
      assert ShiftRight(x, k) == ShiftRight(x / 2, k - 1);
      ShiftRightBit(x / 2, k - 1, i);
      assert Bit(x, i + k) == Bit(x / 2, i + k - 1);
    }
  }

  lemma {:induction false} ShiftLeftBit(x: nat, k: nat, i: nat)
    ensures Bit(ShiftLeft(x, k), i) == (i >= k && Bit(x, i - k))
  {
    if k > 0 {
      var y := ShiftLeft(x, k - 1);
      assert ShiftLeft(x, k) == 2 * y;
      if i > 0 {
        assert Bit(2 * y, i) == Bit(y, i - 1);
        ShiftLeftBit(x, k - 1, i - 1);
      }
    }
  }

  lemma {:induction false} LowBit(x: nat, k: nat, i: nat)
    ensures Bit(x % Pow2(k), i) == (i < k && Bit(x, i))
  {
    if k == 0 {
      ZeroBits(i);
    } else {
      DivModTwice(x, Pow2(k - 1));
      var y := (x / 2) % Pow2(k - 1);
      assert x % Pow2(k) == 2 * y + x % 2;
      if i > 0 {
        assert Bit(2 * y + x % 2, i) == Bit(y, i - 1);
        LowBit(x / 2, k - 1, i - 1);
      }
    }
  }

  /** The mask `2^k - 1` has exactly the bits below `k`. */
  lemma {:induction false} MaskBit(k: nat, i: nat)
    ensures Bit(Mask(k), i) == (i < k)
  {
    if k == 0 {
      ZeroBits(i);
    } else {
      var m := Mask(k - 1);
      assert Mask(k) == 2 * m + 1;
      if i > 0 {
        assert Bit(2 * m + 1, i) == Bit(m, i - 1);
        MaskBit(k - 1, i - 1);
      }
    }
  }

  /** `x & (2^k - 1) == x % 2^k`. */
  lemma AndMask(x: nat, k: nat)
    ensures And(x, Mask(k)) == x % Pow2(k)
  {
    forall i: nat ensures Bit(And(x, Mask(k)), i) == Bit(x % Pow2(k), i) {
      MaskBit(k, i);
      LowBit(x, k, i);
    }
    BitsDetermine(And(x, Mask(k)), x % Pow2(k));
  }

  /** `(x & ((2^w - 1) << k)) >> k == (x >> k) % 2^w`: the `w`-bit field at offset `k`. */
  lemma FieldMask(x: nat, w: nat, k: nat)
    ensures ShiftRight(And(x, ShiftLeft(Mask(w), k)), k) == (x / Pow2(k)) % Pow2(w)
  {
    var m := ShiftLeft(Mask(w), k);
    var lhs := ShiftRight(And(x, m), k);
    var sx := ShiftRight(x, k);
    assert sx == x / Pow2(k);
    var rhs := sx % Pow2(w);
    forall i: nat ensures Bit(lhs, i) == Bit(rhs, i) {
      ShiftRightBit(And(x, m), k, i);
      ShiftLeftBit(Mask(w), k, i + k);
      MaskBit(w, i);
      LowBit(sx, w, i);
      ShiftRightBit(x, k, i);
    }
    BitsDetermine(lhs, rhs);
  }

  /** A nonzero number has a set bit. */
  lemma NonzeroHasBit(v: nat)
    requires v != 0
    ensures exists i: nat :: Bit(v, i)
  {
    if forall i: nat :: !Bit(v, i) {
      forall i: nat ensures Bit(v, i) == Bit(0, i) { ZeroBits(i); }
      BitsDetermine(v, 0);
    }
  }

  /** `2^k` has exactly bit `k`. */
  lemma {:induction false} Pow2Bit(k: nat, i: nat)
    ensures Bit(Pow2(k), i) == (i == k)
  {
    if k == 0 {
      if i > 0 {
        ZeroBits(i - 1);
      }
    } else if i == 0 {
      assert Pow2(k) == 2 * Pow2(k - 1);
    } else {
      assert Pow2(k) == 2 * Pow2(k - 1);
      assert Bit(2 * Pow2(k - 1), i) == Bit(Pow2(k - 1), i - 1);
      Pow2Bit(k - 1, i - 1);
    }
  }

  /** `(t & v) == v` says exactly that every bit of `v` is set in `t`. */
  lemma AndCovers(t: nat, v: nat)
    ensures And(t, v) == v ==> forall i: nat :: Bit(v, i) ==> Bit(t, i)
    ensures (forall i: nat :: Bit(v, i) ==> Bit(t, i)) ==> And(t, v) == v
  {
    if forall i: nat :: Bit(v, i) ==> Bit(t, i) {
      BitsDetermine(And(t, v), v);
    } else {
      var i: nat :| Bit(v, i) && !Bit(t, i);
      assert !Bit(And(t, v), i);
    }
  }

  /** `(t & v) == 0` says exactly that `t` and `v` share no bit. */
  lemma AndDisjoint(t: nat, v: nat)
    ensures And(t, v) == 0 ==> forall i: nat :: !(Bit(t, i) && Bit(v, i))
    ensures (forall i: nat :: !(Bit(t, i) && Bit(v, i))) ==> And(t, v) == 0
  {
    if forall i: nat :: !(Bit(t, i) && Bit(v, i)) {
      forall i: nat ensures Bit(And(t, v), i) == Bit(0, i) { ZeroBits(i); }
      BitsDetermine(And(t, v), 0);
    } else {
      var i: nat :| Bit(t, i) && Bit(v, i);
      ZeroBits(i);
      assert Bit(And(t, v), i) && !Bit(0, i);
    }
  }
}
