/** Unsigned machine words as natural numbers, with the bitwise operators of the source. */
module Bits {

  function Pow2(k: nat): (r: nat)
    ensures 0 < r
  {
    if k == 0 then 1 else 2 * Pow2(k - 1)
  }

  /** Bit `i` of `x`. */
  predicate Bit(x: nat, i: nat) {
    if i == 0 then x % 2 == 1 else Bit(x / 2, i - 1)
  }

  /** `x & y` */
  function And(x: nat, y: nat): nat {
    if x == 0 || y == 0 then 0 else (x % 2) * (y % 2) + 2 * And(x / 2, y / 2)
  }

  /** `x | y` */
  function Or(x: nat, y: nat): nat
    decreases x + y
  {
    if x == 0 then y else if y == 0 then x
    else (if x % 2 == 1 || y % 2 == 1 then 1 else 0) + 2 * Or(x / 2, y / 2)
  }

  lemma SmallModulo(x: nat, m: nat)
    requires x < m
    ensures x % m == x
  {
  }

  lemma ModuloPeriod(x: nat, m: nat)
    requires 0 < m
    ensures (x + m) % m == x % m
  {
    assert x + m == (x / m + 1) * m + x % m;
    DivModUnique(x + m, m, x / m + 1, x % m);
  }

  lemma ScaleAtLeast(k: int, m: nat)
    ensures 1 <= k ==> m <= k * m
    ensures k <= -1 ==> k * m <= 0 - m
  {
    assert 1 <= k ==> 0 <= (k - 1) * m;
    assert k <= -1 ==> 0 <= (-1 - k) * m;
  }

  lemma DivModUnique(x: nat, m: nat, q: int, r: nat)
    requires 0 < m && r < m
    requires x == q * m + r
    ensures x / m == q && x % m == r
  {
    var a, b := x / m, x % m;
    assert x == a * m + b;
    ScaleAtLeast(a - q, m);
    assert (a - q) * m == a * m - q * m;
  }

  lemma DoubleModulo(x: nat, m: nat)
    requires 0 < m
    ensures x % (2 * m) == x % 2 + 2 * ((x / 2) % m)
  {
    var h := x / 2;
    assert x == (h / m) * (2 * m) + (x % 2 + 2 * (h % m)) by {
      assert h == (h / m) * m + h % m;
    }
    DivModUnique(x, 2 * m, h / m, x % 2 + 2 * (h % m));
  }

  /** Masking with 2^k - 1 is reduction modulo 2^k. */
  lemma {:induction false} MaskIsModulo(x: nat, k: nat)
    ensures And(x, Pow2(k) - 1) == x % Pow2(k)
    decreases k
  {
    if k == 0 || x == 0 {
      if k != 0 { SmallModulo(0, Pow2(k)); }
    } else {
      var m := Pow2(k - 1);
      assert (2 * m - 1) % 2 == 1 && (2 * m - 1) / 2 == m - 1;
      MaskIsModulo(x / 2, k - 1);
      DoubleModulo(x, m);
    }
  }

  // ---------------------------------------------------------------------------------------
  // Operators bit by bit
  // ---------------------------------------------------------------------------------------

  lemma {:induction false} ZeroBits(i: nat)
    ensures !Bit(0, i)
  {
    if i > 0 { ZeroBits(i - 1); }
  }

  lemma {:induction false} AndBit(x: nat, y: nat, i: nat)
    ensures Bit(And(x, y), i) <==> Bit(x, i) && Bit(y, i)
    decreases x
  {
    if x == 0 || y == 0 {
      ZeroBits(i);
    } else {
      var low := (x % 2) * (y % 2);
      assert low == 0 || low == 1;
      assert And(x, y) % 2 == low && And(x, y) / 2 == And(x / 2, y / 2);
      if i > 0 { AndBit(x / 2, y / 2, i - 1); }
    }
  }

  lemma {:induction false} OrBit(x: nat, y: nat, i: nat)
    ensures Bit(Or(x, y), i) <==> Bit(x, i) || Bit(y, i)
    decreases x + y
  {
    if x == 0 || y == 0 {
      ZeroBits(i);
    } else {
      assert Or(x, y) / 2 == Or(x / 2, y / 2);
      if i > 0 { OrBit(x / 2, y / 2, i - 1); }
    }
  }

  lemma {:induction false} PowerBit(k: nat, i: nat)
    ensures Bit(Pow2(k), i) <==> i == k
    decreases k
  {
    if k == 0 {
      if i > 0 { ZeroBits(i - 1); }
    } else if i > 0 {
      PowerBit(k - 1, i - 1);
    }
  }

  /** Subtracting from all ones complements every bit of the word. */
  lemma {:induction false} ComplementBit(width: nat, x: nat, i: nat)
    requires x < Pow2(width)
    ensures Bit(Pow2(width) - 1 - x, i) <==> i < width && !Bit(x, i)
    decreases width
  {
    if width == 0 {
      ZeroBits(i);
    } else {
      var rest := Pow2(width) - 1 - x;
      assert rest % 2 == 1 - x % 2 && rest / 2 == Pow2(width - 1) - 1 - x / 2;
      if i > 0 { ComplementBit(width - 1, x / 2, i - 1); }
    }
  }

  /** A word has no bit at or above its width. */
  lemma {:induction false} BitsBelowWidth(width: nat, x: nat, i: nat)
    requires x < Pow2(width) && width <= i
    ensures !Bit(x, i)
    decreases width
  {
    if width == 0 {
      ZeroBits(i);
    } else {
      BitsBelowWidth(width - 1, x / 2, i - 1);
    }
  }

  lemma {:induction false} AndAtMost(x: nat, y: nat)
    ensures And(x, y) <= x && And(x, y) <= y
    decreases x
  {
    if x != 0 && y != 0 {
      AndAtMost(x / 2, y / 2);
      assert (x % 2) * (y % 2) <= x % 2 && (x % 2) * (y % 2) <= y % 2;
    }
  }

  lemma {:induction false} OrInWidth(width: nat, x: nat, y: nat)
    requires x < Pow2(width) && y < Pow2(width)
    ensures Or(x, y) < Pow2(width)
    decreases width
  {
    if x != 0 && y != 0 {
      OrInWidth(width - 1, x / 2, y / 2);
    }
  }

  lemma {:induction false} PowerGrows(k: nat, width: nat)
    requires k < width
    ensures Pow2(k) < Pow2(width)
    decreases width
  {
    if k < width - 1 { PowerGrows(k, width - 1); }
  }

  // ---------------------------------------------------------------------------------------
  // The lowest set bit
  // ---------------------------------------------------------------------------------------

  /** `countr_zero` */
  function LowestBit(x: nat): nat
    requires x != 0
  {
    if x % 2 == 1 then 0 else 1 + LowestBit(x / 2)
  }

  lemma {:induction false} LowestIsSet(x: nat)
    requires x != 0
    ensures Bit(x, LowestBit(x))
    decreases x
  {
    if x % 2 == 0 { LowestIsSet(x / 2); }
  }

  lemma {:induction false} BelowLowest(x: nat, i: nat)
    requires x != 0 && i < LowestBit(x)
    ensures !Bit(x, i)
    decreases x
  {
    if i > 0 { BelowLowest(x / 2, i - 1); }
  }

  lemma {:induction false} AndSame(x: nat)
    ensures And(x, x) == x
    decreases x
  {
    if x != 0 {
      AndSame(x / 2);
      assert (x % 2) * (x % 2) == x % 2;
    }
  }

  /** `x & (x - 1)` clears the lowest set bit and no other. */
  lemma {:induction false} ClearLowest(x: nat, i: nat)
    requires x != 0
    ensures Bit(And(x, x - 1), i) <==> Bit(x, i) && i != LowestBit(x)
    decreases x
  {
    if x % 2 == 1 {
      AndSame(x / 2);
      ClearOdd(x, i);
    } else {
      var y := And(x / 2, x / 2 - 1);
      assert (x - 1) / 2 == x / 2 - 1;
      assert And(x, x - 1) == 2 * y;
      if i > 0 { ClearLowest(x / 2, i - 1); }
    }
  }

  lemma ClearOdd(x: nat, i: nat)
    requires x % 2 == 1 && And(x / 2, x / 2) == x / 2
    ensures Bit(And(x, x - 1), i) <==> Bit(x, i) && i != 0
  {
    if x == 1 {
      ZeroBits(i);
      if i > 0 { ZeroBits(i - 1); }
    } else {
      assert (x - 1) / 2 == x / 2;
      assert And(x, x - 1) == 2 * (x / 2);
    }
  }

  /** `popcount` */
  function PopCount(x: nat): nat {
    if x == 0 then 0 else x % 2 + PopCount(x / 2)
  }
}
