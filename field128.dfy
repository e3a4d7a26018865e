/*
 * `Bitfield128` of src/bitfield128.rs: a bit set of 128 bits backed by one `u128`.
 * Bit `i` of a set is bit `i` of the integer, bit 0 the least significant.
 */
module Field128 {
  import opened Widths
  import opened Errors
  import opened BitSeq
  import W = Word
  import Field8

  // ---------------------------------------------------------------------------
  // Bits, construction, constants
  // ---------------------------------------------------------------------------

  /** Bit `i` of `x` (`get(i)`). */
  predicate Bit(x: Bitfield128, i: Index128) {
    W.Bit(x.inner, i)
  }

  /** Two 128-bit sets with the same bits are the same set. */
  lemma Ext(a: Bitfield128, b: Bitfield128)
    requires forall i: Index128 :: Bit(a, i) == Bit(b, i)
    ensures a == b
  {
    forall i: nat | i < 128
      ensures W.Bit(a.inner, i) == W.Bit(b.inner, i)
    {
      assert Bit(a, i) == Bit(b, i);
    }
    W.Pow2Values();
    W.Ext(a.inner, b.inner, 128);
  }

  /** `From<u128>`. */
  function FromInner(n: u128): Bitfield128 {
    Bitfield128(n)
  }

  /** `into_inner` and `From<Bitfield128> for u128`. */
  function IntoInner(x: Bitfield128): u128 {
    x.inner
  }

  /** The integer and the bit set convert into each other without loss. */
  lemma FromInnerIntoInner(n: u128, x: Bitfield128)
    ensures IntoInner(FromInner(n)) == n
    ensures FromInner(IntoInner(x)) == x
  {
  }

  /** `Bitfield::BIT_SIZE`. */
  const BIT_SIZE: nat := 128
  const ONE: Bitfield128 := Bitfield128(1)
  const NONE: Bitfield128 := Bitfield128(0)
  const ALL: Bitfield128 := Bitfield128(0xFFFF_FFFF_FFFF_FFFF_FFFF_FFFF_FFFF_FFFF)

  /** `NONE` holds no bit, `ALL` every bit, `ONE` bit 0 alone. */
  lemma Constants(i: Index128)
    ensures !Bit(NONE, i) && Bit(ALL, i)
    ensures Bit(ONE, i) <==> i == 0
  {
    W.ZeroAt(i);
    W.OneAt(i);
    W.Pow2Values();
    W.ComplementAt(0, 128, i);
  }

  // ---------------------------------------------------------------------------
  // Bitwise operators and shifts
  // ---------------------------------------------------------------------------

  /** `!x`. */
  function Not(x: Bitfield128): Bitfield128 {
    W.Pow2Values();
    Bitfield128(W.Not(x.inner, 128))
  }

  /** `a & b`. */
  function And(a: Bitfield128, b: Bitfield128): Bitfield128 {
    W.Pow2Values();
    Bitfield128(W.And(a.inner, b.inner, 128))
  }

  /** `a | b`. */
  function Or(a: Bitfield128, b: Bitfield128): Bitfield128 {
    W.Pow2Values();
    Bitfield128(W.Or(a.inner, b.inner, 128))
  }

  /** `a ^ b`. */
  function Xor(a: Bitfield128, b: Bitfield128): Bitfield128 {
    W.Pow2Values();
    Bitfield128(W.Xor(a.inner, b.inner, 128))
  }

  /** `difference(a, b)`, which is `a & !b`. */
  function Difference(a: Bitfield128, b: Bitfield128): Bitfield128 {
    And(a, Not(b))
  }

  /** `x << i`: the bits shifted past bit 127 are dropped. */
  function Shl(x: Bitfield128, i: Index128): Bitfield128 {
    W.Pow2Values();
    Bitfield128(W.Shl(x.inner, i, 128))
  }

  /** `x >> i`. */
  function Shr(x: Bitfield128, i: Index128): Bitfield128 {
    W.Pow2Values();
    Bitfield128(W.Shr(x.inner, i, 128))
  }

  /** `From<BitfieldIndex>`: `ONE << i`. */
  function FromIndex(i: Index128): Bitfield128 {
    Shl(ONE, i)
  }

  /** `!` flips every bit. */
  lemma NotAt(a: Bitfield128, i: Index128)
    ensures Bit(Not(a), i) == !Bit(a, i)
  {
    W.NotAt(a.inner, 128, i);
  }

  /** `&` keeps the bits set in both operands. */
  lemma AndAt(a: Bitfield128, b: Bitfield128, i: Index128)
    ensures Bit(And(a, b), i) == (Bit(a, i) && Bit(b, i))
  {
    W.AndAt(a.inner, b.inner, 128, i);
  }

  /** `|` keeps the bits set in either operand. */
  lemma OrAt(a: Bitfield128, b: Bitfield128, i: Index128)
    ensures Bit(Or(a, b), i) == (Bit(a, i) || Bit(b, i))
  {
    W.OrAt(a.inner, b.inner, 128, i);
  }

  /** `^` keeps the bits set in exactly one operand. */
  lemma XorAt(a: Bitfield128, b: Bitfield128, i: Index128)
    ensures Bit(Xor(a, b), i) == (Bit(a, i) != Bit(b, i))
  {
    W.XorAt(a.inner, b.inner, 128, i);
  }

  /** `difference(a, b)` keeps the bits of `a` that are not in `b`. */
  lemma DifferenceAt(a: Bitfield128, b: Bitfield128, i: Index128)
    ensures Bit(Difference(a, b), i) == (Bit(a, i) && !Bit(b, i))
  {
    AndAt(a, Not(b), i);
    NotAt(b, i);
  }

  /** `<<` moves bit `j - i` to bit `j` and fills the `i` low bits with zeros; the
   *  bits moved past bit 127 are lost. */
  lemma ShlAt(x: Bitfield128, i: Index128, j: Index128)
    ensures Bit(Shl(x, i), j) == (j >= i && Bit(x, j - i))
  {
    W.ShlAt(x.inner, i, 128, j);
  }

  /** `>>` moves bit `j + i` to bit `j` and fills the `i` high bits with zeros. */
  lemma ShrAt(x: Bitfield128, i: Index128, j: Index128)
    ensures Bit(Shr(x, i), j) == (j + i < 128 && Bit(x, j + i))
  {
    W.ShrAt(x.inner, i, 128, j);
    if j + i >= 128 {
      W.Pow2Values();
      W.BitsAbove(x.inner, 128, j + i);
    }
  }

  /** As a number, `!x` is `u128::MAX - x`. */
  lemma NotValue(x: Bitfield128)
    ensures Not(x).inner == ALL.inner - x.inner
  {
    W.Pow2Values();
    W.NotValue(x.inner, 128);
  }

  /** As a number, `x << i` is `x * 2^i` reduced modulo `2^128`. */
  lemma ShlValue(x: Bitfield128, i: Index128)
    ensures Shl(x, i).inner == x.inner * W.Pow2(i) % 0x1_0000_0000_0000_0000_0000_0000_0000_0000
  {
    W.Pow2Values();
    W.ShlValue(x.inner, i, 128);
  }

  /** As a number, `x >> i` is `x / 2^i`, rounded down. */
  lemma ShrValue(x: Bitfield128, i: Index128)
    ensures Shr(x, i).inner == x.inner / W.Pow2(i)
  {
    W.Pow2Values();
    W.ShrValue(x.inner, i, 128);
  }

  /** `From<BitfieldIndex>` is the set holding the index alone; `From(MIN)` is `ONE`. */
  lemma FromIndexAt(i: Index128, j: Index128)
    ensures Bit(FromIndex(i), j) <==> j == i
    ensures FromIndex(0) == ONE
  {
    ShlAt(ONE, i, j);
    if j >= i {
      W.OneAt(j - i);
    }
    forall k: Index128
      ensures Bit(FromIndex(0), k) == Bit(ONE, k)
    {
      ShlAt(ONE, 0, k);
    }
    Ext(FromIndex(0), ONE);
  }

  /** `!` undoes itself. */
  lemma NotNot(x: Bitfield128)
    ensures Not(Not(x)) == x
  {
    W.Pow2Values();
    W.NotNot(x.inner, 128);
  }

  /** `^` by the same operand twice gives the set back; in particular flipping bit `i`
   *  twice does. */
  lemma XorTwice(a: Bitfield128, b: Bitfield128)
    ensures Xor(Xor(a, b), b) == a
  {
    W.Pow2Values();
    W.XorTwice(a.inner, b.inner, 128);
  }

  /** De Morgan: `!(a & b) == !a | !b` and `!(a | b) == !a & !b`. */
  lemma DeMorgan(a: Bitfield128, b: Bitfield128)
    ensures Not(And(a, b)) == Or(Not(a), Not(b))
    ensures Not(Or(a, b)) == And(Not(a), Not(b))
  {
    W.DeMorgan(a.inner, b.inner, 128);
  }

  /** `&` and `|` of a set with itself give it back: `(x | y) & (x | y) == x | y`. */
  lemma Idempotent(x: Bitfield128)
    ensures And(x, x) == x && Or(x, x) == x
  {
    W.Pow2Values();
    W.Idempotent(x.inner, 128);
  }

  /** `difference(a, b)` and `b` have no bit in common, and with `a & b` they make
   *  up `a`. */
  lemma DifferenceSplits(a: Bitfield128, b: Bitfield128)
    ensures And(Difference(a, b), b) == NONE
    ensures Or(Difference(a, b), And(a, b)) == a
  {
    W.Pow2Values();
    W.DifferenceSplits(a.inner, b.inner, 128);
  }

  // ---------------------------------------------------------------------------
  // Per-bit accessors of the `Bitfield` trait
  // ---------------------------------------------------------------------------

  /** `set(i, v)`: ORs in `From(i)` for `true`, removes it for `false`. */
  function SetBit(x: Bitfield128, i: Index128, v: bool): Bitfield128 {
    if v then Or(x, FromIndex(i)) else Difference(x, FromIndex(i))
  }

  /** `check_bit(i)`. */
  function CheckBit(x: Bitfield128, i: Index128): Bitfield128 {
    SetBit(x, i, true)
  }

  /** `uncheck_bit(i)`. */
  function UncheckBit(x: Bitfield128, i: Index128): Bitfield128 {
    SetBit(x, i, false)
  }

  /** `set(i, v)` makes bit `i` read `v` and leaves every other bit as it was;
   *  `check_bit` and `uncheck_bit` do so with `true` and `false`. */
  lemma SetBitAt(x: Bitfield128, i: Index128, v: bool, j: Index128)
    ensures Bit(SetBit(x, i, v), j) == (if j == i then v else Bit(x, j))
    ensures Bit(CheckBit(x, i), j) == (j == i || Bit(x, j))
    ensures Bit(UncheckBit(x, i), j) == (j != i && Bit(x, j))
  {
    FromIndexAt(i, j);
    OrAt(x, FromIndex(i), j);
    DifferenceAt(x, FromIndex(i), j);
  }

  /** Setting a bit to the value it already has changes nothing. */
  lemma SetBitOwnValue(x: Bitfield128, i: Index128)
    ensures SetBit(x, i, Bit(x, i)) == x
  {
    forall j: Index128
      ensures Bit(SetBit(x, i, Bit(x, i)), j) == Bit(x, j)
    {
      SetBitAt(x, i, Bit(x, i), j);
    }
    Ext(SetBit(x, i, Bit(x, i)), x);
  }

  /** Setting the same bit twice keeps only the second value. */
  lemma SetBitTwice(x: Bitfield128, i: Index128, v: bool, w: bool)
    ensures SetBit(SetBit(x, i, v), i, w) == SetBit(x, i, w)
  {
    forall j: Index128
      ensures Bit(SetBit(SetBit(x, i, v), i, w), j) == Bit(SetBit(x, i, w), j)
    {
      SetBitAt(x, i, v, j);
      SetBitAt(SetBit(x, i, v), i, w, j);
      SetBitAt(x, i, w, j);
    }
    Ext(SetBit(SetBit(x, i, v), i, w), SetBit(x, i, w));
  }

  // ---------------------------------------------------------------------------
  // Iteration and counting
  // ---------------------------------------------------------------------------

  /** `into_iter()` / `bits()`: the 128 bits, bit 0 first. */
  function Bits(x: Bitfield128): seq<bool> {
    seq(128, k requires 0 <= k < 128 => Bit(x, k))
  }

  /** `set_indeces()`. */
  function SetIndices(x: Bitfield128): seq<nat> {
    Positions(Bits(x), true)
  }

  /** `unset_indeces()`. */
  function UnsetIndices(x: Bitfield128): seq<nat> {
    Positions(Bits(x), false)
  }

  /** `set_indeces()` lists the set bits and `unset_indeces()` the unset bits, each
   *  in ascending order. */
  lemma IndicesAt(x: Bitfield128, k: nat)
    ensures Ascending(SetIndices(x)) && Ascending(UnsetIndices(x))
    ensures k in SetIndices(x) <==> k < 128 && Bit(x, k)
    ensures k in UnsetIndices(x) <==> k < 128 && !Bit(x, k)
  {
  }

  /** `count_ones()`. */
  function CountOnes(x: Bitfield128): nat {
    Count(Bits(x), true)
  }

  /** `count_zeros()`. */
  function CountZeros(x: Bitfield128): nat {
    Count(Bits(x), false)
  }

  /** The set and unset bits together are all 128 bits, and the counts are the
   *  lengths of the index lists. */
  lemma CountSum(x: Bitfield128)
    ensures CountOnes(x) + CountZeros(x) == BIT_SIZE
    ensures |SetIndices(x)| == CountOnes(x) && |UnsetIndices(x)| == CountZeros(x)
  {
    CountBoth(Bits(x));
  }

  // ---------------------------------------------------------------------------
  // Widening conversions
  // ---------------------------------------------------------------------------

  /** `From<Bitfield8>`: the number, zero-extended. */
  function From8(v: Bitfield8): Bitfield128 {
    Bitfield128(v.inner)
  }

  /** `From<Bitfield16>`: the number, zero-extended. */
  function From16(v: Bitfield16): Bitfield128 {
    Bitfield128(v.inner)
  }

  /** `From<Bitfield32>`: the number, zero-extended. */
  function From32(v: Bitfield32): Bitfield128 {
    Bitfield128(v.inner)
  }

  /** `From<Bitfield64>`: the number, zero-extended. */
  function From64(v: Bitfield64): Bitfield128 {
    Bitfield128(v.inner)
  }

  /** Widening an 8-bit set keeps its 8 bits in place and leaves the other 120 unset. */
  lemma From8At(v: Bitfield8, j: Index128)
    ensures Bit(From8(v), j) == (j < 8 && Field8.Bit(v, j))
  {
    if j >= 8 {
      W.Pow2Values();
      W.BitsAbove(v.inner, 8, j);
    }
  }

  /** Widening a 16-bit set keeps its 16 bits in place and leaves the other 112
   *  unset. */
  lemma From16At(v: Bitfield16, j: Index128)
    ensures Bit(From16(v), j) == (j < 16 && W.Bit(v.inner, j))
  {
    if j >= 16 {
      W.Pow2Values();
      W.BitsAbove(v.inner, 16, j);
    }
  }

  /** Widening a 32-bit set keeps its 32 bits in place and leaves the other 96
   *  unset. */
  lemma From32At(v: Bitfield32, j: Index128)
    ensures Bit(From32(v), j) == (j < 32 && W.Bit(v.inner, j))
  {
    if j >= 32 {
      W.Pow2Values();
      W.BitsAbove(v.inner, 32, j);
    }
  }

  /** Widening a 64-bit set keeps its 64 bits in place and leaves the other 64
   *  unset. */
  lemma From64At(v: Bitfield64, j: Index128)
    ensures Bit(From64(v), j) == (j < 64 && W.Bit(v.inner, j))
  {
    if j >= 64 {
      W.Pow2Values();
      W.BitsAbove(v.inner, 64, j);
    }
  }

  /** Widening to 128 bits is undone by narrowing back to 8 bits. */
  lemma NarrowFrom8(v: Bitfield8)
    ensures Field8.TryFrom128(From8(v)) == Ok(v)
  {
  }

  /** Widening through a wider set gives the same 128-bit set. */
  lemma WideningAgrees(v: Bitfield8)
    ensures From16(Field8.Expand16(v).value) == From8(v)
    ensures From32(Field8.Expand32(v).value) == From8(v)
    ensures From64(Field8.Expand64(v).value) == From8(v)
    ensures Field8.Expand128(v).value == From8(v)
  {
  }

  /** Widening commutes with `&`, `|`, `^` and `difference`: the 8-bit result,
   *  widened, is the 128-bit result on the widened operands. */
  lemma From8Operators(a: Bitfield8, b: Bitfield8)
    ensures And(From8(a), From8(b)) == From8(Field8.And(a, b))
    ensures Or(From8(a), From8(b)) == From8(Field8.Or(a, b))
    ensures Xor(From8(a), From8(b)) == From8(Field8.Xor(a, b))
    ensures Difference(From8(a), From8(b)) == From8(Field8.Difference(a, b))
  {
    forall j: Index128
      ensures Bit(And(From8(a), From8(b)), j) == Bit(From8(Field8.And(a, b)), j)
      ensures Bit(Or(From8(a), From8(b)), j) == Bit(From8(Field8.Or(a, b)), j)
      ensures Bit(Xor(From8(a), From8(b)), j) == Bit(From8(Field8.Xor(a, b)), j)
      ensures Bit(Difference(From8(a), From8(b)), j) == Bit(From8(Field8.Difference(a, b)), j)
    {
      From8At(a, j);
      From8At(b, j);
      AndAt(From8(a), From8(b), j);
      OrAt(From8(a), From8(b), j);
      XorAt(From8(a), From8(b), j);
      DifferenceAt(From8(a), From8(b), j);
      From8At(Field8.And(a, b), j);
      From8At(Field8.Or(a, b), j);
      From8At(Field8.Xor(a, b), j);
      From8At(Field8.Difference(a, b), j);
      if j < 8 {
        Field8.AndAt(a, b, j);
        Field8.OrAt(a, b, j);
        Field8.XorAt(a, b, j);
        Field8.DifferenceAt(a, b, j);
      }
    }
    Ext(And(From8(a), From8(b)), From8(Field8.And(a, b)));
    Ext(Or(From8(a), From8(b)), From8(Field8.Or(a, b)));
    Ext(Xor(From8(a), From8(b)), From8(Field8.Xor(a, b)));
    Ext(Difference(From8(a), From8(b)), From8(Field8.Difference(a, b)));
  }

  /** Widening commutes with `>>`. */
  lemma From8Shr(a: Bitfield8, i: Index8)
    ensures Shr(From8(a), i) == From8(Field8.Shr(a, i))
  {
    forall j: Index128
      ensures Bit(Shr(From8(a), i), j) == Bit(From8(Field8.Shr(a, i)), j)
    {
      ShrAt(From8(a), i, j);
      From8At(Field8.Shr(a, i), j);
      if j + i < 128 {
        From8At(a, j + i);
      }
      if j < 8 {
        Field8.ShrAt(a, i, j);
      }
    }
    Ext(Shr(From8(a), i), From8(Field8.Shr(a, i)));
  }

  /** Widening commutes with `set`, `check_bit` and `uncheck_bit` at an index below 8. */
  lemma From8SetBit(x: Bitfield8, i: Index8, v: bool)
    ensures SetBit(From8(x), i, v) == From8(Field8.SetBit(x, i, v))
  {
    forall j: Index128
      ensures Bit(SetBit(From8(x), i, v), j) == Bit(From8(Field8.SetBit(x, i, v)), j)
    {
      SetBitAt(From8(x), i, v, j);
      From8At(x, j);
      From8At(Field8.SetBit(x, i, v), j);
      if j < 8 {
        Field8.SetBitAt(x, i, v, j);
      }
    }
    Ext(SetBit(From8(x), i, v), From8(Field8.SetBit(x, i, v)));
  }

  /** The bits of a widened 8-bit set: its own 8, then 120 unset. */
  lemma From8Bits(v: Bitfield8)
    ensures Bits(From8(v)) == Field8.Bits(v) + seq(120, _ => false)
  {
    var s := Field8.Bits(v) + seq(120, _ => false);
    forall k | 0 <= k < 128
      ensures Bits(From8(v))[k] == s[k]
    {
      From8At(v, k);
    }
  }

  // ---------------------------------------------------------------------------
  // `FromIterator<bool>`
  // ---------------------------------------------------------------------------

  /** One step of `FromIterator<bool>`: ORs `(if bit { 1 } else { 0 }) << i` into
   *  the number `acc`. */
  function Step(acc: u128, bit: bool, i: Index128): u128 {
    W.Pow2Values();
    W.Or(acc, W.Shl(if bit then 1 else 0, i, 128), 128)
  }

  /** A step sets bit `i` when the item is true and touches no other bit. */
  lemma StepAt(acc: u128, bit: bool, i: Index128, j: Index128)
    ensures W.Bit(Step(acc, bit, i), j) == (W.Bit(acc, j) || (bit && j == i))
  {
    W.OrAt(acc, W.Shl(if bit then 1 else 0, i, 128), 128, j);
    W.ShlAt(if bit then 1 else 0, i, 128, j);
    if j >= i {
      W.OneAt(j - i);
      W.ZeroAt(j - i);
    }
  }

  /** The number after the items of `s`, at most 128 of them, have been folded in. */
  function FoldBools(s: seq<bool>): u128
    requires |s| <= 128
    decreases |s|
  {
    if s == [] then 0 else Step(FoldBools(s[..|s| - 1]), s[|s| - 1], |s| - 1)
  }

  /** Bit `k` of the fold is item `k`, and unset past the last item. */
  lemma {:induction false} FoldBoolsAt(s: seq<bool>, k: Index128)
    requires |s| <= 128
    ensures W.Bit(FoldBools(s), k) == (k < |s| && s[k])
    decreases |s|
  {
    if s == [] {
      W.ZeroAt(k);
    } else {
      var n := |s| - 1;
      FoldBoolsAt(s[..n], k);
      StepAt(FoldBools(s[..n]), s[n], n, k);
    }
  }

  /** `collect()` into a `Bitfield128`: the fold over the first 128 items. */
  function FromBools(items: seq<bool>): Bitfield128 {
    Bitfield128(FoldBools(if |items| <= 128 then items else items[..128]))
  }

  /** Item `j` becomes bit `j`; a bit past the last item is unset. */
  lemma FromBoolsAt(items: seq<bool>, j: Index128)
    ensures Bit(FromBools(items), j) == (j < |items| && items[j])
  {
    FoldBoolsAt(if |items| <= 128 then items else items[..128], j);
  }

  /** Items after the 128th do not matter. */
  lemma FromBoolsTruncates(items: seq<bool>, more: seq<bool>)
    requires |items| >= 128
    ensures FromBools(items + more) == FromBools(items)
  {
    forall j: Index128
      ensures Bit(FromBools(items + more), j) == Bit(FromBools(items), j)
    {
      FromBoolsAt(items + more, j);
      FromBoolsAt(items, j);
    }
    Ext(FromBools(items + more), FromBools(items));
  }

  /** Collecting the bits of a set gives the set back. */
  lemma CollectBits(x: Bitfield128)
    ensures FromBools(Bits(x)) == x
  {
    forall j: Index128
      ensures Bit(FromBools(Bits(x)), j) == Bit(x, j)
    {
      FromBoolsAt(Bits(x), j);
    }
    Ext(FromBools(Bits(x)), x);
  }

  /** Reading the bits of a collected sequence of 128 items gives the items back. */
  lemma BitsOfCollect(items: seq<bool>)
    requires |items| == 128
    ensures Bits(FromBools(items)) == items
  {
    forall k | 0 <= k < 128
      ensures Bits(FromBools(items))[k] == items[k]
    {
      FromBoolsAt(items, k);
    }
  }

  /** Up to 8 items collect into the widened 8-bit collection. */
  lemma FromBoolsShort(items: seq<bool>)
    requires |items| <= 8
    ensures FromBools(items) == From8(Field8.FromBools(items))
  {
    forall j: Index128
      ensures Bit(FromBools(items), j) == Bit(From8(Field8.FromBools(items)), j)
    {
      FromBoolsAt(items, j);
      From8At(Field8.FromBools(items), j);
      if j < 8 {
        Field8.FromBoolsAt(items, j);
      }
    }
    Ext(FromBools(items), From8(Field8.FromBools(items)));
  }

  /** `FromIterator<bool>::from_iter`: a loop over the first 128 items, each ORing
   *  its bit in at its position. */
  method FromIterBool(items: seq<bool>) returns (r: Bitfield128)
    ensures r == FromBools(items)
  {
    var inner: u128 := 0;
    var i: nat := 0;
    while i < 128 && i < |items|
      invariant i <= 128 && i <= |items|
      invariant inner == FoldBools(items[..i])
    {
      assert items[..i + 1][..i] == items[..i];
      inner := Step(inner, items[i], i);
      i := i + 1;
    }
    assert items[..i] == if |items| <= 128 then items else items[..128];
    r := Bitfield128(inner);
  }

  // ---------------------------------------------------------------------------
  // `FromIterator<A: Flagenum>`
  // ---------------------------------------------------------------------------

  /** The indices of a sequence of flags, through `BitfieldIndex::from`. */
  function Indices<A>(items: seq<A>, index: A -> Index128): (s: seq<Index128>)
    ensures |s| == |items|
    ensures forall k :: 0 <= k < |items| ==> s[k] == index(items[k])
  {
    seq(|items|, k requires 0 <= k < |items| => index(items[k]))
  }

  /** The set holding exactly the given indices: `ONE << index` ORed over them. */
  function Union(s: seq<Index128>): Bitfield128
    decreases |s|
  {
    if s == [] then NONE else Or(Union(s[..|s| - 1]), FromIndex(s[|s| - 1]))
  }

  /** A bit of the union is set exactly when its index is listed. */
  lemma {:induction false} UnionAt(s: seq<Index128>, j: Index128)
    ensures Bit(Union(s), j) <==> j in s
    decreases |s|
  {
    if s == [] {
      Constants(j);
    } else {
      var n := |s| - 1;
      UnionAt(s[..n], j);
      OrAt(Union(s[..n]), FromIndex(s[n]), j);
      FromIndexAt(s[n], j);
      assert s == s[..n] + [s[n]];
    }
  }

  /** The union depends only on which indices are listed: not on their order and
   *  not on repetitions. */
  lemma UnionSameIndices(s: seq<Index128>, t: seq<Index128>)
    requires forall j :: j in s <==> j in t
    ensures Union(s) == Union(t)
  {
    forall j: Index128
      ensures Bit(Union(s), j) == Bit(Union(t), j)
    {
      UnionAt(s, j);
      UnionAt(t, j);
    }
    Ext(Union(s), Union(t));
  }

  /** `collect()` of flags into a `Bitfield128`. */
  function FromFlagsSpec<A>(items: seq<A>, index: A -> Index128): Bitfield128 {
    Union(Indices(items, index))
  }

  /** `FromIterator<A: Flagenum>::from_iter`: a loop over the flags that ORs in
   *  `ONE << index` the first time each index is seen, remembering the indices
   *  already seen in a set. */
  method FromFlags<A>(items: seq<A>, index: A -> Index128) returns (r: Bitfield128)
    ensures r == FromFlagsSpec(items, index)
  {
    ghost var all := Indices(items, index);
    r := NONE;
    var seen: set<Index128> := {};
    var i := 0;
    while i < |items|
      invariant i <= |items|
      invariant forall j :: j in seen <==> j in all[..i]
      invariant r == Union(all[..i])
    {
      var idx := index(items[i]);
      assert all[..i + 1] == all[..i] + [idx];
      if idx !in seen {
        seen := seen + {idx};
        r := Or(r, FromIndex(idx));
      } else {
        UnionSameIndices(all[..i + 1], all[..i]);
      }
      i := i + 1;
    }
    assert all[..i] == all;
  }

  // ---------------------------------------------------------------------------
  // The behaviour the tests of src/bitfield128.rs assert
  // ---------------------------------------------------------------------------

  /** `new().set(0, true).check_bit(1).uncheck_bit(0)` is `0b10`. */
  lemma ConstructionExample()
    ensures UncheckBit(CheckBit(SetBit(NONE, 0, true), 1), 0) == FromInner(0x02)
  {
    var x1 := Field8.SetBit(Field8.NONE, 0, true);
    var x2 := Field8.CheckBit(x1, 1);
    From8SetBit(Field8.NONE, 0, true);
    From8SetBit(x1, 1, true);
    From8SetBit(x2, 0, false);
    Field8.ConstructionExample();
  }

  /** `set`, `check_bit`, `uncheck_bit` and `get` on `0b1010_1010`, and
   *  `From(BitfieldIndex::MIN)`. */
  lemma BitExamples()
    ensures FromIndex(0) == ONE
    ensures SetBit(FromInner(0xAA), 6, true) == FromInner(0xEA)
    ensures SetBit(FromInner(0xAA), 7, false) == FromInner(0x2A)
    ensures CheckBit(FromInner(0xAA), 6) == FromInner(0xEA)
    ensures UncheckBit(FromInner(0xAA), 7) == FromInner(0x2A)
    ensures !Bit(FromInner(0xAA), 0) && Bit(FromInner(0xAA), 1)
  {
    FromIndexAt(0, 0);
    From8SetBit(Field8.New(0xAA), 6, true);
    From8SetBit(Field8.New(0xAA), 7, false);
    Field8.SetTrueExample();
    Field8.SetFalseExample();
  }

  /** `<<`, `>>`, `!`, `&`, `|`, `^` and `difference` on the values of the tests. */
  lemma OperatorExamples()
    ensures Shl(FromInner(0x01), 1) == FromInner(0x02)
    ensures Shr(FromInner(0x02), 1) == FromInner(0x01)
    ensures Not(NONE) == ALL
    ensures And(FromInner(0xF0), FromInner(0xCC)) == FromInner(0xC0)
    ensures Or(FromInner(0xF0), FromInner(0xCC)) == FromInner(0xFC)
    ensures Xor(FromInner(0xF0), FromInner(0xCC)) == FromInner(0x3C)
    ensures Difference(FromInner(0xF0), FromInner(0xCC)) == FromInner(0x30)
  {
    ShlValue(FromInner(0x01), 1);
    ShrValue(FromInner(0x02), 1);
    NotValue(NONE);
    From8Operators(Field8.New(0xF0), Field8.New(0xCC));
    Field8.AndExample();
    Field8.OrExample();
    Field8.XorExample();
    Field8.DifferenceExample();
  }

  /** The bits of `0b1111_0000`: four unset, four set, then 120 unset. */
  lemma BitsExample()
    ensures Bits(FromInner(0xF0)) == [false, false, false, false, true, true, true, true] + seq(120, _ => false)
  {
    From8Bits(Field8.New(0xF0));
    Field8.BitsExample();
  }

  /** `set_indeces()` of `0b1111_0000`. */
  lemma SetIndicesExample()
    ensures SetIndices(FromInner(0xF0)) == [4, 5, 6, 7]
  {
    BitsExample();
    PositionsExactly(Bits(FromInner(0xF0)), true, [4, 5, 6, 7]);
  }

  /** `unset_indeces()` of `0b1111_0000`: 0 to 3, then 8 to 127. */
  lemma UnsetIndicesExample()
    ensures UnsetIndices(FromInner(0xF0)) == [0, 1, 2, 3] + Range(8, 128)
  {
    BitsExample();
    AppendRange([0, 1, 2, 3], 8, 128);
    var s := Bits(FromInner(0xF0));
    forall k: nat | k < 128
      ensures s[k] == (4 <= k < 8)
    {
      if k >= 8 {
        assert s[k] == seq(120, _ => false)[k - 8];
      }
    }
    PositionsExactly(s, false, [0, 1, 2, 3] + Range(8, 128));
  }

  /** `count_ones()` and `count_zeros()` of `0b1110_0000`. */
  lemma CountExample()
    ensures CountOnes(FromInner(0xE0)) == 3
    ensures CountZeros(FromInner(0xE0)) == 125
  {
    From8Bits(Field8.New(0xE0));
    PositionsExactly(Bits(FromInner(0xE0)), true, [5, 6, 7]);
    CountSum(FromInner(0xE0));
  }

  /** `collect()` of the bits of `0b1111_0000` and of
   *  `[false, true, false, true, false, true, false, true]`, and `from_slice_bool`
   *  of the reversed slice. */
  lemma CollectExamples()
    ensures FromBools(Bits(FromInner(0xF0))) == FromInner(0xF0)
    ensures FromBools([false, true, false, true, false, true, false, true]) == FromInner(0xAA)
    ensures FromBools([true, false, true, false, true, false, true, false]) == FromInner(0x55)
  {
    CollectBits(FromInner(0xF0));
    FromBoolsShort([false, true, false, true, false, true, false, true]);
    FromBoolsShort([true, false, true, false, true, false, true, false]);
    Field8.CollectExamples();
  }

  /** `From<u128>` and `into_inner` keep the number. */
  lemma ConversionExamples()
    ensures FromInner(0xAA).inner == 0xAA
    ensures IntoInner(FromInner(0xAA)) == 0xAA
  {
  }

  /** Widening keeps the number: `0b1010_1010` from 8 bits and `u64::MAX` from 64. */
  lemma WideningExamples()
    ensures From8(Bitfield8(0xAA)) == FromInner(0xAA)
    ensures From64(Bitfield64(0xFFFF_FFFF_FFFF_FFFF)).inner == 0xFFFF_FFFF_FFFF_FFFF
  {
  }

  // ---------------------------------------------------------------------------
  // In-place updates
  // ---------------------------------------------------------------------------

  /** A `Bitfield128` variable, for the operations that take `&mut self`. */
  class MutBitfield128 {
    var inner: u128

    constructor(x: Bitfield128)
      ensures Value() == x
    {
      inner := x.inner;
    }

    function Value(): Bitfield128
      reads this
    {
      Bitfield128(inner)
    }

    /** `a &= b`. */
    method AndAssign(rhs: Bitfield128)
      modifies this
      ensures Value() == And(old(Value()), rhs)
    {
      inner := And(Value(), rhs).inner;
    }

    /** `a |= b`. */
    method OrAssign(rhs: Bitfield128)
      modifies this
      ensures Value() == Or(old(Value()), rhs)
    {
      inner := Or(Value(), rhs).inner;
    }

    /** `a ^= b`. */
    method XorAssign(rhs: Bitfield128)
      modifies this
      ensures Value() == Xor(old(Value()), rhs)
    {
      inner := Xor(Value(), rhs).inner;
    }

    /** `a <<= i`. */
    method ShlAssign(i: Index128)
      modifies this
      ensures Value() == Shl(old(Value()), i)
    {
      inner := Shl(Value(), i).inner;
    }

    /** `a >>= i`. */
    method ShrAssign(i: Index128)
      modifies this
      ensures Value() == Shr(old(Value()), i)
    {
      inner := Shr(Value(), i).inner;
    }

    /** `set(i, v)` on a variable. */
    method Set(i: Index128, v: bool)
      modifies this
      ensures Value() == SetBit(old(Value()), i, v)
    {
      inner := SetBit(Value(), i, v).inner;
    }

    /** `check_bit(i)` on a variable. */
    method Check(i: Index128)
      modifies this
      ensures Value() == CheckBit(old(Value()), i)
    {
      Set(i, true);
    }

    /** `uncheck_bit(i)` on a variable. */
    method Uncheck(i: Index128)
      modifies this
      ensures Value() == UncheckBit(old(Value()), i)
    {
      Set(i, false);
    }
  }

  /** The tests of the compound assignments and of the in-place bit updates:
   *  `0b1 <<= 1` gives `0b10` and `0b10 >>= 1` gives `0b1`; `0b1111_0000` `&=`,
   *  `|=`, `^=` `0b1100_1100` give `0b1100_0000`, `0b1111_1100`, `0b0011_1100`;
   *  on `0b1010_1010`, `set(6, true)` and `check_bit(6)` give `0b1110_1010`, and
   *  `set(7, false)` and `uncheck_bit(7)` give `0b0010_1010`. */
  method InPlaceExamples() returns (shl: Bitfield128, shr: Bitfield128, and: Bitfield128,
                                    or: Bitfield128, xor: Bitfield128,
                                    setTrue: Bitfield128, checked: Bitfield128,
                                    setFalse: Bitfield128, unchecked: Bitfield128)
    ensures shl == FromInner(0x02) && shr == FromInner(0x01)
    ensures and == FromInner(0xC0) && or == FromInner(0xFC) && xor == FromInner(0x3C)
    ensures setTrue == checked == FromInner(0xEA)
    ensures setFalse == unchecked == FromInner(0x2A)
  {
    OperatorExamples();
    BitExamples();
    var a := new MutBitfield128(FromInner(0x01));
    a.ShlAssign(1);
    shl := a.Value();
    var z := new MutBitfield128(FromInner(0x02));
    z.ShrAssign(1);
    shr := z.Value();
    var b := new MutBitfield128(FromInner(0xF0));
    b.AndAssign(FromInner(0xCC));
    and := b.Value();
    var c := new MutBitfield128(FromInner(0xF0));
    c.OrAssign(FromInner(0xCC));
    or := c.Value();
    var d := new MutBitfield128(FromInner(0xF0));
    d.XorAssign(FromInner(0xCC));
    xor := d.Value();
    var e := new MutBitfield128(FromInner(0xAA));
    e.Set(6, true);
    setTrue := e.Value();
    var f := new MutBitfield128(FromInner(0xAA));
    f.Check(6);
    checked := f.Value();
    var g := new MutBitfield128(FromInner(0xAA));
    g.Set(7, false);
    setFalse := g.Value();
    var h := new MutBitfield128(FromInner(0xAA));
    h.Uncheck(7);
    unchecked := h.Value();
  }
}
