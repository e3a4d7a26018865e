/*
 * Unsigned machine words as natural numbers, and the bitwise operations Rust
 * defines on them, each written bit by bit from the least significant end.
 * A `w`-bit word is a number below `2^w`; bit `i` of a number is the remainder
 * of its `i`-fold halving.
 */
module Word {

  /** `2^n`. */
  function Pow2(n: nat): (p: nat)
    ensures p >= 1
  {
    if n == 0 then 1 else 2 * Pow2(n - 1)
  }

  /** Powers of two multiply by adding exponents. */
  lemma {:induction false} Pow2Add(a: nat, b: nat)
    ensures Pow2(a + b) == Pow2(a) * Pow2(b)
    decreases b
  {
    if b > 0 {
      Pow2Add(a, b - 1);
      assert Pow2(a + b) == 2 * Pow2(a + b - 1);
    }
  }

  /** The bounds of the five integer widths. */
  lemma Pow2Values()
    ensures Pow2(8) == 0x100
    ensures Pow2(16) == 0x1_0000
    ensures Pow2(32) == 0x1_0000_0000
    ensures Pow2(64) == 0x1_0000_0000_0000_0000
    ensures Pow2(128) == 0x1_0000_0000_0000_0000_0000_0000_0000_0000
  {
    assert Pow2(8) == 0x100;
    Pow2Add(8, 8);
    Pow2Add(16, 16);
    Pow2Add(32, 32);
    Pow2Add(64, 64);
  }

  // ---------------------------------------------------------------------------
  // Bits
  // ---------------------------------------------------------------------------

  /** Bit `i` of `x`, bit 0 the least significant. */
  predicate Bit(x: nat, i: nat)
    decreases i
  {
    if i == 0 then x % 2 == 1 else Bit(x / 2, i - 1)
  }

  /** A number is its lowest bit plus twice the number of its other bits. */
  lemma BitStep(low: nat, rest: nat, i: nat)
    requires low < 2
    ensures Bit(low + 2 * rest, i) == if i == 0 then low == 1 else Bit(rest, i - 1)
  {
    if i > 0 {
      assert (low + 2 * rest) / 2 == rest;
    }
  }

  /** Zero has no bit set. */
  lemma {:induction false} ZeroAt(i: nat)
    ensures !Bit(0, i)
    decreases i
  {
    if i > 0 {
      ZeroAt(i - 1);
    }
  }

  /** A `w`-bit word has no bit at or above `w`. */
  lemma {:induction false} BitsAbove(x: nat, w: nat, i: nat)
    requires x < Pow2(w) && i >= w
    ensures !Bit(x, i)
    decreases w
  {
    if w == 0 {
      ZeroAt(i);
    } else {
      BitsAbove(x / 2, w - 1, i - 1);
    }
  }

  /** Two `w`-bit words with the same `w` bits are equal. */
  lemma {:induction false} Ext(x: nat, y: nat, w: nat)
    requires x < Pow2(w) && y < Pow2(w)
    requires forall i: nat :: i < w ==> Bit(x, i) == Bit(y, i)
    ensures x == y
    decreases w
  {
    if w > 0 {
      forall i: nat | i + 1 < w
        ensures Bit(x / 2, i) == Bit(y / 2, i)
      {
        assert Bit(x, i + 1) == Bit(y, i + 1);
      }
      Ext(x / 2, y / 2, w - 1);
      assert Bit(x, 0) == Bit(y, 0);
    }
  }

  /** The lowest bit of one is its only bit. */
  lemma OneAt(i: nat)
    ensures Bit(1, i) <==> i == 0
  {
    if i > 0 {
      ZeroAt(i - 1);
    }
  }

  // ---------------------------------------------------------------------------
  // Words from their bits
  // ---------------------------------------------------------------------------

  /** The number whose bits are `s`, bit 0 first. */
  function FromBits(s: seq<bool>): (r: nat)
    ensures r < Pow2(|s|)
    decreases |s|
  {
    if s == [] then 0 else (if s[0] then 1 else 0) + 2 * FromBits(s[1..])
  }

  /** Bit `i` of `FromBits(s)` is entry `i` of `s`, and unset past the end. */
  lemma {:induction false} FromBitsAt(s: seq<bool>, i: nat)
    ensures Bit(FromBits(s), i) == (i < |s| && s[i])
    decreases |s|
  {
    if s == [] {
      ZeroAt(i);
    } else {
      BitStep(if s[0] then 1 else 0, FromBits(s[1..]), i);
      if i > 0 {
        FromBitsAt(s[1..], i - 1);
      }
    }
  }

  // ---------------------------------------------------------------------------
  // Bitwise operations on `w`-bit words, each defined bit by bit
  // ---------------------------------------------------------------------------

  /** `!a` on `w` bits. */
  function Not(a: nat, w: nat): (r: nat)
    ensures r < Pow2(w)
  {
    FromBits(seq(w, i requires 0 <= i => !Bit(a, i)))
  }

  /** `a & b` on `w` bits. */
  function And(a: nat, b: nat, w: nat): (r: nat)
    ensures r < Pow2(w)
  {
    FromBits(seq(w, i requires 0 <= i => Bit(a, i) && Bit(b, i)))
  }

  /** `a | b` on `w` bits. */
  function Or(a: nat, b: nat, w: nat): (r: nat)
    ensures r < Pow2(w)
  {
    FromBits(seq(w, i requires 0 <= i => Bit(a, i) || Bit(b, i)))
  }

  /** `a ^ b` on `w` bits. */
  function Xor(a: nat, b: nat, w: nat): (r: nat)
    ensures r < Pow2(w)
  {
    FromBits(seq(w, i requires 0 <= i => Bit(a, i) != Bit(b, i)))
  }

  /** `a << k` on `w` bits: bit `i - k` moves to bit `i`, bits pushed past bit
   *  `w - 1` are dropped. */
  function Shl(a: nat, k: nat, w: nat): (r: nat)
    ensures r < Pow2(w)
  {
    FromBits(seq(w, i requires 0 <= i => k <= i && Bit(a, i - k)))
  }

  /** `a >> k` on `w` bits: bit `i + k` moves to bit `i`, bits pushed past bit 0
   *  are dropped. */
  function Shr(a: nat, k: nat, w: nat): (r: nat)
    ensures r < Pow2(w)
  {
    FromBits(seq(w, i requires 0 <= i => Bit(a, i + k)))
  }

  lemma NotAt(a: nat, w: nat, i: nat)
    ensures Bit(Not(a, w), i) == (i < w && !Bit(a, i))
  {
    FromBitsAt(seq(w, i requires 0 <= i => !Bit(a, i)), i);
  }

  lemma AndAt(a: nat, b: nat, w: nat, i: nat)
    ensures Bit(And(a, b, w), i) == (i < w && Bit(a, i) && Bit(b, i))
  {
    FromBitsAt(seq(w, i requires 0 <= i => Bit(a, i) && Bit(b, i)), i);
  }

  lemma OrAt(a: nat, b: nat, w: nat, i: nat)
    ensures Bit(Or(a, b, w), i) == (i < w && (Bit(a, i) || Bit(b, i)))
  {
    FromBitsAt(seq(w, i requires 0 <= i => Bit(a, i) || Bit(b, i)), i);
  }

  lemma XorAt(a: nat, b: nat, w: nat, i: nat)
    ensures Bit(Xor(a, b, w), i) == (i < w && Bit(a, i) != Bit(b, i))
  {
    FromBitsAt(seq(w, i requires 0 <= i => Bit(a, i) != Bit(b, i)), i);
  }

  lemma ShlAt(a: nat, k: nat, w: nat, i: nat)
    ensures Bit(Shl(a, k, w), i) == (i < w && k <= i && Bit(a, i - k))
  {
    FromBitsAt(seq(w, i requires 0 <= i => k <= i && Bit(a, i - k)), i);
  }

  lemma ShrAt(a: nat, k: nat, w: nat, i: nat)
    ensures Bit(Shr(a, k, w), i) == (i < w && Bit(a, i + k))
  {
    FromBitsAt(seq(w, i requires 0 <= i => Bit(a, i + k)), i);
  }

  // ---------------------------------------------------------------------------
  // Set-algebra laws of the bitwise operations, for every width
  // ---------------------------------------------------------------------------

  /** `!` undoes itself on a `w`-bit word. */
  lemma NotNot(a: nat, w: nat)
    requires a < Pow2(w)
    ensures Not(Not(a, w), w) == a
  {
    forall i: nat | i < w
      ensures Bit(Not(Not(a, w), w), i) == Bit(a, i)
    {
      NotAt(a, w, i);
      NotAt(Not(a, w), w, i);
    }
    Ext(Not(Not(a, w), w), a, w);
  }

  /** `^` by the same operand twice gives a `w`-bit word back. */
  lemma XorTwice(a: nat, b: nat, w: nat)
    requires a < Pow2(w)
    ensures Xor(Xor(a, b, w), b, w) == a
  {
    forall i: nat | i < w
      ensures Bit(Xor(Xor(a, b, w), b, w), i) == Bit(a, i)
    {
      XorAt(a, b, w, i);
      XorAt(Xor(a, b, w), b, w, i);
    }
    Ext(Xor(Xor(a, b, w), b, w), a, w);
  }

  /** De Morgan: `!(a & b) == !a | !b` and `!(a | b) == !a & !b`. */
  lemma DeMorgan(a: nat, b: nat, w: nat)
    ensures Not(And(a, b, w), w) == Or(Not(a, w), Not(b, w), w)
    ensures Not(Or(a, b, w), w) == And(Not(a, w), Not(b, w), w)
  {
    forall i: nat | i < w
      ensures Bit(Not(And(a, b, w), w), i) == Bit(Or(Not(a, w), Not(b, w), w), i)
      ensures Bit(Not(Or(a, b, w), w), i) == Bit(And(Not(a, w), Not(b, w), w), i)
    {
      AndAt(a, b, w, i);
      OrAt(a, b, w, i);
      NotAt(a, w, i);
      NotAt(b, w, i);
      NotAt(And(a, b, w), w, i);
      NotAt(Or(a, b, w), w, i);
      OrAt(Not(a, w), Not(b, w), w, i);
      AndAt(Not(a, w), Not(b, w), w, i);
    }
    Ext(Not(And(a, b, w), w), Or(Not(a, w), Not(b, w), w), w);
    Ext(Not(Or(a, b, w), w), And(Not(a, w), Not(b, w), w), w);
  }

  /** `&` and `|` of a `w`-bit word with itself give it back. */
  lemma Idempotent(a: nat, w: nat)
    requires a < Pow2(w)
    ensures And(a, a, w) == a && Or(a, a, w) == a
  {
    forall i: nat | i < w
      ensures Bit(And(a, a, w), i) == Bit(a, i) && Bit(Or(a, a, w), i) == Bit(a, i)
    {
      AndAt(a, a, w, i);
      OrAt(a, a, w, i);
    }
    Ext(And(a, a, w), a, w);
    Ext(Or(a, a, w), a, w);
  }

  /** `a & !b` has no bit in common with `b`, and with `a & b` it makes up `a`. */
  lemma DifferenceSplits(a: nat, b: nat, w: nat)
    requires a < Pow2(w)
    ensures And(And(a, Not(b, w), w), b, w) == 0
    ensures Or(And(a, Not(b, w), w), And(a, b, w), w) == a
  {
    var d := And(a, Not(b, w), w);
    forall i: nat | i < w
      ensures Bit(And(d, b, w), i) == Bit(0, i)
      ensures Bit(Or(d, And(a, b, w), w), i) == Bit(a, i)
    {
      NotAt(b, w, i);
      AndAt(a, Not(b, w), w, i);
      AndAt(a, b, w, i);
      AndAt(d, b, w, i);
      OrAt(d, And(a, b, w), w, i);
      ZeroAt(i);
    }
    Ext(And(d, b, w), 0, w);
    Ext(Or(d, And(a, b, w), w), a, w);
  }

  // ---------------------------------------------------------------------------
  // The arithmetic the bitwise operations amount to
  // ---------------------------------------------------------------------------

  /** Bit `i` of `2^w - 1 - a`: the bits of `a` inverted below `w`. */
  lemma {:induction false} ComplementAt(a: nat, w: nat, i: nat)
    requires a < Pow2(w)
    ensures Bit(Pow2(w) - 1 - a, i) == (i < w && !Bit(a, i))
    decreases w
  {
    if w == 0 {
      ZeroAt(i);
    } else {
      var r := Pow2(w) - 1 - a;
      assert r % 2 == 1 - a % 2;
      assert r / 2 == Pow2(w - 1) - 1 - a / 2;
      if i > 0 {
        ComplementAt(a / 2, w - 1, i - 1);
      }
    }
  }

  /** `!a` on `w` bits is `2^w - 1 - a`. */
  lemma NotValue(a: nat, w: nat)
    requires a < Pow2(w)
    ensures Not(a, w) == Pow2(w) - 1 - a
  {
    forall i: nat | i < w
      ensures Bit(Not(a, w), i) == Bit(Pow2(w) - 1 - a, i)
    {
      NotAt(a, w, i);
      ComplementAt(a, w, i);
    }
    Ext(Not(a, w), Pow2(w) - 1 - a, w);
  }

  /** Bit `i` of `a mod 2^w`: the bits of `a` below `w`. */
  lemma {:induction false} RemainderAt(a: nat, w: nat, i: nat)
    ensures Bit(a % Pow2(w), i) == (i < w && Bit(a, i))
    decreases w
  {
    if w == 0 {
      ZeroAt(i);
    } else {
      DivModHalf(a, Pow2(w - 1));
      BitStep(a % 2, a / 2 % Pow2(w - 1), i);
      if i > 0 {
        RemainderAt(a / 2, w - 1, i - 1);
      }
    }
  }

  /** Bit `i` of `a * 2^k`: bit `i - k` of `a`, unset below `k`. */
  lemma {:induction false} ProductAt(a: nat, k: nat, i: nat)
    ensures Bit(a * Pow2(k), i) == (k <= i && Bit(a, i - k))
    decreases k
  {
    if k > 0 {
      assert a * Pow2(k) == 2 * (a * Pow2(k - 1));
      BitStep(0, a * Pow2(k - 1), i);
      if i > 0 {
        ProductAt(a, k - 1, i - 1);
      }
    }
  }

  /** `a << k` on `w` bits is `a * 2^k mod 2^w`. */
  lemma ShlValue(a: nat, k: nat, w: nat)
    ensures Shl(a, k, w) == a * Pow2(k) % Pow2(w)
  {
    forall i: nat | i < w
      ensures Bit(Shl(a, k, w), i) == Bit(a * Pow2(k) % Pow2(w), i)
    {
      ShlAt(a, k, w, i);
      RemainderAt(a * Pow2(k), w, i);
      ProductAt(a, k, i);
    }
    Ext(Shl(a, k, w), a * Pow2(k) % Pow2(w), w);
  }

  /** Bit `i` of the quotient `q == a / 2^k` is bit `i + k` of `a`. */
  lemma {:induction false} QuotientAt(a: nat, k: nat, q: nat, i: nat)
    requires q == a / Pow2(k)
    ensures Bit(q, i) == Bit(a, i + k)
    decreases k
  {
    if k > 0 {
      DivModHalf(a, Pow2(k - 1));
      QuotientAt(a / 2, k - 1, q, i);
      assert Bit(a, i + k) == Bit(a / 2, i + k - 1);
    }
  }

  /** `a >> k` on a `w`-bit word is `a / 2^k`. */
  lemma ShrValue(a: nat, k: nat, w: nat)
    requires a < Pow2(w)
    ensures Shr(a, k, w) == a / Pow2(k)
  {
    QuotientAtMost(a, k);
    var q: nat := a / Pow2(k);
    forall i: nat | i < w
      ensures Bit(Shr(a, k, w), i) == Bit(q, i)
    {
      ShrAt(a, k, w, i);
      QuotientAt(a, k, q, i);
    }
    Ext(Shr(a, k, w), q, w);
  }

  /** Dividing never makes a number larger. */
  lemma {:induction false} QuotientAtMost(a: nat, k: nat)
    ensures 0 <= a / Pow2(k) <= a
    decreases k
  {
    if k > 0 {
      DivModHalf(a, Pow2(k - 1));
      QuotientAtMost(a / 2, k - 1);
    }
  }

  // ---------------------------------------------------------------------------
  // Division facts
  // ---------------------------------------------------------------------------

  /** Multiplying by a larger number gives at least one more multiple. */
  lemma {:induction false} MulGap(d: nat, x: nat, y: nat)
    ensures x > y ==> d * x >= d * y + d
    decreases x
  {
    if x > y + 1 {
      MulGap(d, x - 1, y);
      assert d * x == d * (x - 1) + d;
    } else if x == y + 1 {
      assert d * x == d * y + d;
    }
  }

  /** Quotient and remainder are the only ones: `a == d q + r` with `r < d`. */
  lemma DivModUnique(a: nat, d: nat, q: nat, r: nat)
    requires d >= 1 && r < d && a == d * q + r
    ensures a / d == q && a % d == r
  {
    MulGap(d, a / d, q);
    MulGap(d, q, a / d);
  }

  /** Dividing by `2 p` is halving and then dividing by `p`, and the remainder
   *  keeps the lowest bit and, above it, the remainder of the half. */
  lemma DivModHalf(a: nat, p: nat)
    requires p >= 1
    ensures a % (2 * p) % 2 == a % 2
    ensures a % (2 * p) / 2 == a / 2 % p
    ensures a / (2 * p) == a / 2 / p
  {
    var q, b := a / 2, a % 2;
    var q1, r1 := q / p, q % p;
    assert q == p * q1 + r1;
    assert a == 2 * p * q1 + (2 * r1 + b);
    DivModUnique(a, 2 * p, q1, 2 * r1 + b);
  }

  /** Bit `i` of `h * 2^k + l`, for `l` of `k` bits: the bits of `l` below `k`, the
   *  bits of `h` from `k` on. */
  lemma {:induction false} ConcatAt(h: nat, l: nat, k: nat, i: nat)
    requires l < Pow2(k)
    ensures Bit(h * Pow2(k) + l, i) == if i < k then Bit(l, i) else Bit(h, i - k)
    decreases k
  {
    if k > 0 {
      var rest := h * Pow2(k - 1) + l / 2;
      assert h * Pow2(k) + l == l % 2 + 2 * rest;
      BitStep(l % 2, rest, i);
      if i > 0 {
        ConcatAt(h, l / 2, k - 1, i - 1);
      }
    }
  }
}
