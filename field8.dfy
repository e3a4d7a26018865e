/*
 * `Bitfield8` of src/bitfield8.rs: a bit set of 8 bits backed by one `u8`.
 * Bit `i` of a set is bit `i` of the integer, bit 0 the least significant.
 */
module Field8 {
  import opened Widths
  import opened Errors
  import opened BitSeq
  import W = Word

  // ---------------------------------------------------------------------------
  // Bits, construction, constants
  // ---------------------------------------------------------------------------

  /** Bit `i` of `x` (`bit(i)`, `*bit_ref(i)`). */
  predicate Bit(x: Bitfield8, i: Index8) {
    W.Bit(x.inner, i)
  }

  /** Two 8-bit sets with the same bits are the same set. */
  lemma Ext(a: Bitfield8, b: Bitfield8)
    requires forall i: Index8 :: Bit(a, i) == Bit(b, i)
    ensures a == b
  {
    forall i: nat | i < 8
      ensures W.Bit(a.inner, i) == W.Bit(b.inner, i)
    {
      assert Bit(a, i) == Bit(b, i);
    }
    W.Pow2Values();
    W.Ext(a.inner, b.inner, 8);
  }

  /** `Bitfield8::new` and `From<u8>`. */
  function New(n: u8): Bitfield8 {
    Bitfield8(n)
  }

  /** `into_inner` and `From<Bitfield8> for u8`. */
  function IntoInner(x: Bitfield8): u8 {
    x.inner
  }

  /** The integer and the bit set convert into each other without loss. */
  lemma NewIntoInner(n: u8, x: Bitfield8)
    ensures IntoInner(New(n)) == n
    ensures New(IntoInner(x)) == x
  {
  }

  const NONE: Bitfield8 := Bitfield8(0)
  const ONE: Bitfield8 := Bitfield8(1)
  const ALL: Bitfield8 := Bitfield8(0xFF)

  /** `NONE` holds no bit, `ALL` every bit, `ONE` bit 0 alone. */
  lemma Constants(i: Index8)
    ensures !Bit(NONE, i) && Bit(ALL, i)
    ensures Bit(ONE, i) <==> i == 0
  {
    W.ZeroAt(i);
    W.OneAt(i);
    W.Pow2Values();
    W.ComplementAt(0, 8, i);
  }

  // ---------------------------------------------------------------------------
  // Bitwise operators
  // ---------------------------------------------------------------------------

  /** `!x`. */
  function Not(x: Bitfield8): Bitfield8 {
    W.Pow2Values();
    Bitfield8(W.Not(x.inner, 8))
  }

  /** `a & b`. */
  function And(a: Bitfield8, b: Bitfield8): Bitfield8 {
    W.Pow2Values();
    Bitfield8(W.And(a.inner, b.inner, 8))
  }

  /** `a | b`. */
  function Or(a: Bitfield8, b: Bitfield8): Bitfield8 {
    W.Pow2Values();
    Bitfield8(W.Or(a.inner, b.inner, 8))
  }

  /** `a ^ b`. */
  function Xor(a: Bitfield8, b: Bitfield8): Bitfield8 {
    W.Pow2Values();
    Bitfield8(W.Xor(a.inner, b.inner, 8))
  }

  /** `difference(a, b)`, which is `a & !b`. */
  function Difference(a: Bitfield8, b: Bitfield8): Bitfield8 {
    And(a, Not(b))
  }

  /** `x << i`: the bits shifted past bit 7 are dropped. */
  function Shl(x: Bitfield8, i: Index8): Bitfield8 {
    W.Pow2Values();
    Bitfield8(W.Shl(x.inner, i, 8))
  }

  /** `x >> i`. */
  function Shr(x: Bitfield8, i: Index8): Bitfield8 {
    W.Pow2Values();
    Bitfield8(W.Shr(x.inner, i, 8))
  }

  /** `From<Index>`: `ONE << i`. */
  function FromIndex(i: Index8): Bitfield8 {
    Shl(ONE, i)
  }

  /** `x & i` for an index `i`. */
  function AndIndex(x: Bitfield8, i: Index8): Bitfield8 {
    And(x, FromIndex(i))
  }

  /** `x | i` for an index `i`. */
  function OrIndex(x: Bitfield8, i: Index8): Bitfield8 {
    Or(x, FromIndex(i))
  }

  /** `x ^ i` for an index `i`. */
  function XorIndex(x: Bitfield8, i: Index8): Bitfield8 {
    Xor(x, FromIndex(i))
  }

  /** `!` flips every bit. */
  lemma NotAt(a: Bitfield8, i: Index8)
    ensures Bit(Not(a), i) == !Bit(a, i)
  {
    W.NotAt(a.inner, 8, i);
  }

  /** `&` keeps the bits set in both operands. */
  lemma AndAt(a: Bitfield8, b: Bitfield8, i: Index8)
    ensures Bit(And(a, b), i) == (Bit(a, i) && Bit(b, i))
  {
    W.AndAt(a.inner, b.inner, 8, i);
  }

  /** `|` keeps the bits set in either operand. */
  lemma OrAt(a: Bitfield8, b: Bitfield8, i: Index8)
    ensures Bit(Or(a, b), i) == (Bit(a, i) || Bit(b, i))
  {
    W.OrAt(a.inner, b.inner, 8, i);
  }

  /** `^` keeps the bits set in exactly one operand. */
  lemma XorAt(a: Bitfield8, b: Bitfield8, i: Index8)
    ensures Bit(Xor(a, b), i) == (Bit(a, i) != Bit(b, i))
  {
    W.XorAt(a.inner, b.inner, 8, i);
  }

  /** `difference(a, b)` keeps the bits of `a` that are not in `b`. */
  lemma DifferenceAt(a: Bitfield8, b: Bitfield8, i: Index8)
    ensures Bit(Difference(a, b), i) == (Bit(a, i) && !Bit(b, i))
  {
    AndAt(a, Not(b), i);
    NotAt(b, i);
  }

  /** `<<` moves bit `j - i` to bit `j` and fills the `i` low bits with zeros; the
   *  bits moved past bit 7 are lost. */
  lemma ShlAt(x: Bitfield8, i: Index8, j: Index8)
    ensures Bit(Shl(x, i), j) == (j >= i && Bit(x, j - i))
  {
    W.ShlAt(x.inner, i, 8, j);
  }

  /** `>>` moves bit `j + i` to bit `j` and fills the `i` high bits with zeros; the
   *  bits moved past bit 0 are lost. */
  lemma ShrAt(x: Bitfield8, i: Index8, j: Index8)
    ensures Bit(Shr(x, i), j) == (j + i < 8 && Bit(x, j + i))
  {
    W.ShrAt(x.inner, i, 8, j);
    if j + i >= 8 {
      W.Pow2Values();
      W.BitsAbove(x.inner, 8, j + i);
    }
  }

  /** `From<Index>` is the set holding the index alone; `From(Index::MIN)` is `ONE`. */
  lemma FromIndexAt(i: Index8, j: Index8)
    ensures Bit(FromIndex(i), j) <==> j == i
    ensures FromIndex(0) == ONE
  {
    ShlAt(ONE, i, j);
    if j >= i {
      W.OneAt(j - i);
    }
    forall k: Index8
      ensures Bit(FromIndex(0), k) == Bit(ONE, k)
    {
      ShlAt(ONE, 0, k);
    }
    Ext(FromIndex(0), ONE);
  }

  /** As a number, `!x` is `255 - x`. */
  lemma NotValue(x: Bitfield8)
    ensures Not(x).inner == 0xFF - x.inner
  {
    W.Pow2Values();
    W.NotValue(x.inner, 8);
  }

  /** As a number, `x << i` is `x * 2^i` reduced modulo 256. */
  lemma ShlValue(x: Bitfield8, i: Index8)
    ensures Shl(x, i).inner == x.inner * W.Pow2(i) % 0x100
  {
    W.Pow2Values();
    W.ShlValue(x.inner, i, 8);
  }

  /** As a number, `x >> i` is `x / 2^i`, rounded down. */
  lemma ShrValue(x: Bitfield8, i: Index8)
    ensures Shr(x, i).inner == x.inner / W.Pow2(i)
  {
    W.Pow2Values();
    W.ShrValue(x.inner, i, 8);
  }

  /** An index on the right: `&` isolates its bit, `|` sets it, `^` flips it. */
  lemma IndexOperandAt(x: Bitfield8, i: Index8, j: Index8)
    ensures Bit(AndIndex(x, i), j) == (j == i && Bit(x, i))
    ensures Bit(OrIndex(x, i), j) == (j == i || Bit(x, j))
    ensures Bit(XorIndex(x, i), j) == (if j == i then !Bit(x, j) else Bit(x, j))
  {
    FromIndexAt(i, j);
    AndAt(x, FromIndex(i), j);
    OrAt(x, FromIndex(i), j);
    XorAt(x, FromIndex(i), j);
  }

  /** `!` undoes itself. */
  lemma NotNot(x: Bitfield8)
    ensures Not(Not(x)) == x
  {
    W.Pow2Values();
    W.NotNot(x.inner, 8);
  }

  /** `^` by the same operand twice gives the set back; in particular flipping bit `i`
   *  twice does. */
  lemma XorTwice(a: Bitfield8, b: Bitfield8)
    ensures Xor(Xor(a, b), b) == a
  {
    W.Pow2Values();
    W.XorTwice(a.inner, b.inner, 8);
  }

  /** De Morgan: `!(a & b) == !a | !b` and `!(a | b) == !a & !b`. */
  lemma DeMorgan(a: Bitfield8, b: Bitfield8)
    ensures Not(And(a, b)) == Or(Not(a), Not(b))
    ensures Not(Or(a, b)) == And(Not(a), Not(b))
  {
    W.DeMorgan(a.inner, b.inner, 8);
  }

  /** `&` and `|` of a set with itself give it back: `(x | y) & (x | y) == x | y`. */
  lemma Idempotent(x: Bitfield8)
    ensures And(x, x) == x && Or(x, x) == x
  {
    W.Pow2Values();
    W.Idempotent(x.inner, 8);
  }

  /** `difference(a, b)` and `b` have no bit in common, and with `a & b` they make
   *  up `a`. */
  lemma DifferenceSplits(a: Bitfield8, b: Bitfield8)
    ensures And(Difference(a, b), b) == NONE
    ensures Or(Difference(a, b), And(a, b)) == a
  {
    W.Pow2Values();
    W.DifferenceSplits(a.inner, b.inner, 8);
  }

  // ---------------------------------------------------------------------------
  // Per-bit accessors of the `Bitfield` trait
  // ---------------------------------------------------------------------------

  /** `set_bit(i, v)` (and `*bit_mut(i) = v`). */
  function SetBit(x: Bitfield8, i: Index8, v: bool): Bitfield8 {
    if v then OrIndex(x, i) else Difference(x, FromIndex(i))
  }

  /** `check_bit(i)`. */
  function CheckBit(x: Bitfield8, i: Index8): Bitfield8 {
    SetBit(x, i, true)
  }

  /** `uncheck_bit(i)`. */
  function UncheckBit(x: Bitfield8, i: Index8): Bitfield8 {
    SetBit(x, i, false)
  }

  /** `set_bit(i, v)` makes bit `i` read `v` and leaves every other bit as it was;
   *  `check_bit` and `uncheck_bit` do so with `true` and `false`. */
  lemma SetBitAt(x: Bitfield8, i: Index8, v: bool, j: Index8)
    ensures Bit(SetBit(x, i, v), j) == (if j == i then v else Bit(x, j))
    ensures Bit(CheckBit(x, i), j) == (j == i || Bit(x, j))
    ensures Bit(UncheckBit(x, i), j) == (j != i && Bit(x, j))
  {
    IndexOperandAt(x, i, j);
    FromIndexAt(i, j);
    DifferenceAt(x, FromIndex(i), j);
  }

  /** Setting a bit to the value it already has changes nothing. */
  lemma SetBitOwnValue(x: Bitfield8, i: Index8)
    ensures SetBit(x, i, Bit(x, i)) == x
  {
    forall j: Index8
      ensures Bit(SetBit(x, i, Bit(x, i)), j) == Bit(x, j)
    {
      SetBitAt(x, i, Bit(x, i), j);
    }
    Ext(SetBit(x, i, Bit(x, i)), x);
  }

  /** Setting the same bit twice keeps only the second value. */
  lemma SetBitTwice(x: Bitfield8, i: Index8, v: bool, w: bool)
    ensures SetBit(SetBit(x, i, v), i, w) == SetBit(x, i, w)
  {
    forall j: Index8
      ensures Bit(SetBit(SetBit(x, i, v), i, w), j) == Bit(SetBit(x, i, w), j)
    {
      SetBitAt(x, i, v, j);
      SetBitAt(SetBit(x, i, v), i, w, j);
      SetBitAt(x, i, w, j);
    }
    Ext(SetBit(SetBit(x, i, v), i, w), SetBit(x, i, w));
  }

  // ---------------------------------------------------------------------------
  // Iteration, counting, collection
  // ---------------------------------------------------------------------------

  /** `bits()`: the 8 bits, bit 0 first. */
  function Bits(x: Bitfield8): (s: seq<bool>)
    ensures |s| == 8 && forall k: Index8 :: s[k] == Bit(x, k)
  {
    [Bit(x, 0), Bit(x, 1), Bit(x, 2), Bit(x, 3), Bit(x, 4), Bit(x, 5), Bit(x, 6), Bit(x, 7)]
  }

  /** `ones()`. */
  function Ones(x: Bitfield8): seq<nat> {
    Positions(Bits(x), true)
  }

  /** `zeros()`. */
  function Zeros(x: Bitfield8): seq<nat> {
    Positions(Bits(x), false)
  }

  /** `ones()` lists the set bits and `zeros()` the unset bits, each in ascending
   *  order; every position below 8 is in exactly one of them. */
  lemma OnesZeros(x: Bitfield8, k: nat)
    ensures Ascending(Ones(x)) && Ascending(Zeros(x))
    ensures k in Ones(x) <==> k < 8 && Bit(x, k)
    ensures k in Zeros(x) <==> k < 8 && !Bit(x, k)
  {
  }

  /** `count_ones()`. */
  function CountOnes(x: Bitfield8): nat {
    Count(Bits(x), true)
  }

  /** `count_zeros()`. */
  function CountZeros(x: Bitfield8): nat {
    Count(Bits(x), false)
  }

  /** The set and unset bits together are all 8 bits, and the counts are the
   *  lengths of `ones()` and `zeros()`. */
  lemma CountSum(x: Bitfield8)
    ensures CountOnes(x) + CountZeros(x) == 8
    ensures |Ones(x)| == CountOnes(x) && |Zeros(x)| == CountZeros(x)
  {
    CountBoth(Bits(x));
  }

  /** The fold of `FromIterator<bool>` over at most 8 items: each `true` item ORs in
   *  `ONE << index`, from the first item to the last. */
  function FoldOnes(s: seq<bool>): Bitfield8
    requires |s| <= 8
    decreases |s|
  {
    if s == [] then NONE
    else
      var acc := FoldOnes(s[..|s| - 1]);
      if s[|s| - 1] then Or(acc, Shl(ONE, |s| - 1)) else acc
  }

  /** Bit `i` of the fold is item `i`, and false past the last item. */
  lemma {:induction false} FoldOnesAt(s: seq<bool>, i: Index8)
    requires |s| <= 8
    ensures Bit(FoldOnes(s), i) == (i < |s| && s[i])
    decreases |s|
  {
    if s != [] {
      var n := |s| - 1;
      FoldOnesAt(s[..n], i);
      OrAt(FoldOnes(s[..n]), Shl(ONE, n), i);
      FromIndexAt(n, i);
    } else {
      Constants(i);
    }
  }

  /** `FromIterator<bool>` (`collect()`): only the first 8 items are read. */
  function FromBools(items: seq<bool>): Bitfield8 {
    FoldOnes(if |items| <= 8 then items else items[..8])
  }

  /** Item `i` becomes bit `i`; a bit past the last item is unset. */
  lemma FromBoolsAt(items: seq<bool>, i: Index8)
    ensures Bit(FromBools(items), i) == (i < |items| && items[i])
  {
    FoldOnesAt(if |items| <= 8 then items else items[..8], i);
  }

  /** Items after the eighth do not matter. */
  lemma FromBoolsTruncates(items: seq<bool>, more: seq<bool>)
    requires |items| >= 8
    ensures FromBools(items + more) == FromBools(items)
  {
    forall i: Index8
      ensures Bit(FromBools(items + more), i) == Bit(FromBools(items), i)
    {
      FromBoolsAt(items + more, i);
      FromBoolsAt(items, i);
    }
    Ext(FromBools(items + more), FromBools(items));
  }

  /** Collecting the bits of a set gives the set back. */
  lemma CollectBits(x: Bitfield8)
    ensures FromBools(Bits(x)) == x
  {
    forall i: Index8
      ensures Bit(FromBools(Bits(x)), i) == Bit(x, i)
    {
      FromBoolsAt(Bits(x), i);
    }
    Ext(FromBools(Bits(x)), x);
  }

  /** Reading the bits of a collected sequence of 8 items gives the items back. */
  lemma BitsOfCollect(items: seq<bool>)
    requires |items| == 8
    ensures Bits(FromBools(items)) == items
  {
    forall k | 0 <= k < 8
      ensures Bits(FromBools(items))[k] == items[k]
    {
      FromBoolsAt(items, k);
    }
  }

  // ---------------------------------------------------------------------------
  // Width conversions
  // ---------------------------------------------------------------------------

  /** `TryFrom<Bitfield16>`: `u8::try_from` of the number. */
  function TryFrom16(v: Bitfield16): (r: Result<Bitfield8>)
    ensures r.Ok? <==> v.inner < 0x100
    ensures r.Ok? ==> r.value.inner == v.inner
    ensures r.Err? ==> r.error == Errors.New(Set(16), Set(8))
  {
    if v.inner < 0x100 then Ok(New(v.inner)) else Err(Errors.New(Set(16), Set(8)))
  }

  /** `TryFrom<Bitfield32>`. */
  function TryFrom32(v: Bitfield32): (r: Result<Bitfield8>)
    ensures r.Ok? <==> v.inner < 0x100
    ensures r.Ok? ==> r.value.inner == v.inner
    ensures r.Err? ==> r.error == Errors.New(Set(32), Set(8))
  {
    if v.inner < 0x100 then Ok(New(v.inner)) else Err(Errors.New(Set(32), Set(8)))
  }

  /** `TryFrom<Bitfield64>`. */
  function TryFrom64(v: Bitfield64): (r: Result<Bitfield8>)
    ensures r.Ok? <==> v.inner < 0x100
    ensures r.Ok? ==> r.value.inner == v.inner
    ensures r.Err? ==> r.error == Errors.New(Set(64), Set(8))
  {
    if v.inner < 0x100 then Ok(New(v.inner)) else Err(Errors.New(Set(64), Set(8)))
  }

  /** `TryFrom<Bitfield128>`. */
  function TryFrom128(v: Bitfield128): (r: Result<Bitfield8>)
    ensures r.Ok? <==> v.inner < 0x100
    ensures r.Ok? ==> r.value.inner == v.inner
    ensures r.Err? ==> r.error == Errors.New(Set(128), Set(8))
  {
    if v.inner < 0x100 then Ok(New(v.inner)) else Err(Errors.New(Set(128), Set(8)))
  }

  /** `expand()` to 16 bits. */
  function Expand16(x: Bitfield8): Result<Bitfield16> {
    Ok(Bitfield16(x.inner))
  }

  /** `expand()` to 32 bits. */
  function Expand32(x: Bitfield8): Result<Bitfield32> {
    Ok(Bitfield32(x.inner))
  }

  /** `expand()` to 64 bits. */
  function Expand64(x: Bitfield8): Result<Bitfield64> {
    Ok(Bitfield64(x.inner))
  }

  /** `expand()` to 128 bits. */
  function Expand128(x: Bitfield8): Result<Bitfield128> {
    Ok(Bitfield128(x.inner))
  }

  /** Expanding always succeeds and keeps the number, so narrowing the expanded
   *  set succeeds and gives the set back. */
  lemma NarrowExpanded(x: Bitfield8)
    ensures Expand16(x).Ok? && TryFrom16(Expand16(x).value) == Ok(x)
    ensures Expand32(x).Ok? && TryFrom32(Expand32(x).value) == Ok(x)
    ensures Expand64(x).Ok? && TryFrom64(Expand64(x).value) == Ok(x)
    ensures Expand128(x).Ok? && TryFrom128(Expand128(x).value) == Ok(x)
  {
  }

  /** A successful narrowing expands back to the value it came from. */
  lemma ExpandNarrowed(v16: Bitfield16, v32: Bitfield32, v64: Bitfield64, v128: Bitfield128)
    ensures TryFrom16(v16).Ok? ==> Expand16(TryFrom16(v16).value) == Ok(v16)
    ensures TryFrom32(v32).Ok? ==> Expand32(TryFrom32(v32).value) == Ok(v32)
    ensures TryFrom64(v64).Ok? ==> Expand64(TryFrom64(v64).value) == Ok(v64)
    ensures TryFrom128(v128).Ok? ==> Expand128(TryFrom128(v128).value) == Ok(v128)
  {
  }

  /** `combine(high)` of `low`: `low` fills bits 0 to 7 and `high` bits 8 to 15. */
  function Combine(low: Bitfield8, high: Bitfield8): Result<Bitfield16> {
    W.Pow2Values();
    Ok(Bitfield16(W.FromBits(seq(16, i requires 0 <= i =>
      if i < 8 then W.Bit(low.inner, i) else W.Bit(high.inner, i - 8)))))
  }

  /** `split()` of a 16-bit set: its low byte and its high byte. */
  function Split(v: Bitfield16): Result<(Bitfield8, Bitfield8)> {
    W.Pow2Values();
    Ok((Bitfield8(W.Shr(v.inner, 0, 8)), Bitfield8(W.Shr(v.inner, 8, 8))))
  }

  /** Combining always succeeds; bit `i` of the result is bit `i` of `low` below 8
   *  and bit `i - 8` of `high` from 8 on. */
  lemma CombineAt(low: Bitfield8, high: Bitfield8, i: nat)
    requires i < 16
    ensures Combine(low, high).Ok?
    ensures W.Bit(Combine(low, high).value.inner, i)
         == if i < 8 then Bit(low, i) else Bit(high, i - 8)
  {
    W.FromBitsAt(seq(16, i requires 0 <= i =>
      if i < 8 then W.Bit(low.inner, i) else W.Bit(high.inner, i - 8)), i);
  }

  /** Splitting always succeeds; the low half holds bits 0 to 7 of `v` and the high
   *  half bits 8 to 15. */
  lemma SplitAt(v: Bitfield16, i: Index8)
    ensures Split(v).Ok?
    ensures Bit(Split(v).value.0, i) == W.Bit(v.inner, i)
    ensures Bit(Split(v).value.1, i) == W.Bit(v.inner, i + 8)
  {
    W.ShrAt(v.inner, 0, 8, i);
    W.ShrAt(v.inner, 8, 8, i);
  }

  /** Combining the halves of a split set gives the set back. */
  lemma CombineSplit(v: Bitfield16)
    ensures Combine(Split(v).value.0, Split(v).value.1) == Ok(v)
  {
    var (low, high) := Split(v).value;
    var c := Combine(low, high).value;
    forall i: nat | i < 16
      ensures W.Bit(c.inner, i) == W.Bit(v.inner, i)
    {
      CombineAt(low, high, i);
      if i < 8 {
        SplitAt(v, i);
      } else {
        SplitAt(v, i - 8);
      }
    }
    W.Pow2Values();
    W.Ext(c.inner, v.inner, 16);
  }

  /** As a number, `combine` is `high * 256 + low`. */
  lemma CombineValue(low: Bitfield8, high: Bitfield8)
    ensures Combine(low, high).Ok?
    ensures Combine(low, high).value.inner == high.inner * 0x100 + low.inner
  {
    var c := Combine(low, high).value.inner;
    var n := high.inner * 0x100 + low.inner;
    W.Pow2Values();
    forall i: nat | i < 16
      ensures W.Bit(c, i) == W.Bit(n, i)
    {
      CombineAt(low, high, i);
      W.ConcatAt(high.inner, low.inner, 8, i);
    }
    W.Ext(c, n, 16);
  }

  /** As numbers, the halves `split` returns are the remainder and the quotient of
   *  the division by 256. */
  lemma SplitValue(v: Bitfield16)
    ensures Split(v).Ok?
    ensures Split(v).value.0.inner == v.inner % 0x100
    ensures Split(v).value.1.inner == v.inner / 0x100
  {
    CombineSplit(v);
    CombineValue(Split(v).value.0, Split(v).value.1);
  }

  /** Splitting a combined set gives its two halves back. */
  lemma SplitCombine(low: Bitfield8, high: Bitfield8)
    ensures Split(Combine(low, high).value) == Ok((low, high))
  {
    var v := Combine(low, high).value;
    var (l, h) := Split(v).value;
    forall i: Index8
      ensures Bit(l, i) == Bit(low, i) && Bit(h, i) == Bit(high, i)
    {
      SplitAt(v, i);
      CombineAt(low, high, i);
      CombineAt(low, high, i + 8);
    }
    Ext(l, low);
    Ext(h, high);
  }

  // ---------------------------------------------------------------------------
  // The behaviour the tests of src/bitfield8.rs assert
  // ---------------------------------------------------------------------------

  /** Two 8-bit sets that agree on each of the bits 0 to 7 are equal. */
  lemma Ext8(a: Bitfield8, b: Bitfield8)
    requires Bit(a, 0) == Bit(b, 0) && Bit(a, 1) == Bit(b, 1)
    requires Bit(a, 2) == Bit(b, 2) && Bit(a, 3) == Bit(b, 3)
    requires Bit(a, 4) == Bit(b, 4) && Bit(a, 5) == Bit(b, 5)
    requires Bit(a, 6) == Bit(b, 6) && Bit(a, 7) == Bit(b, 7)
    ensures a == b
  {
    Ext(a, b);
  }

  /** `NONE.set_bit(0, true).check_bit(1).uncheck_bit(0)` is `0b10`. */
  lemma ConstructionExample()
    ensures UncheckBit(CheckBit(SetBit(NONE, 0, true), 1), 0) == New(0x02)
  {
    var x1 := SetBit(NONE, 0, true);
    var x2 := CheckBit(x1, 1);
    var x3 := UncheckBit(x2, 0);
    forall i: Index8
      ensures Bit(x3, i) == (i == 1)
    {
      Constants(i);
      SetBitAt(NONE, 0, true, i);
      SetBitAt(x1, 1, true, i);
      SetBitAt(x2, 0, false, i);
    }
    Ext8(x3, New(0x02));
  }

  /** `set_bit(6, true)` and `check_bit(6)` on `0b1010_1010`. */
  lemma SetTrueExample()
    ensures SetBit(New(0xAA), 6, true) == CheckBit(New(0xAA), 6) == New(0xEA)
  {
    var x := SetBit(New(0xAA), 6, true);
    forall i: Index8
      ensures Bit(x, i) == (i == 6 || Bit(New(0xAA), i))
    {
      SetBitAt(New(0xAA), 6, true, i);
    }
    Ext8(x, New(0xEA));
  }

  /** `set_bit(7, false)` and `uncheck_bit(7)` on `0b1010_1010`. */
  lemma SetFalseExample()
    ensures SetBit(New(0xAA), 7, false) == UncheckBit(New(0xAA), 7) == New(0x2A)
  {
    var x := SetBit(New(0xAA), 7, false);
    forall i: Index8
      ensures Bit(x, i) == (i != 7 && Bit(New(0xAA), i))
    {
      SetBitAt(New(0xAA), 7, false, i);
    }
    Ext8(x, New(0x2A));
  }

  /** `bit(0)` and `bit(1)` of `0b1010_1010`. */
  lemma BitExample()
    ensures !Bit(New(0xAA), 0) && Bit(New(0xAA), 1)
  {
  }

  /** `1 << 1` is `2`. */
  lemma ShlExample()
    ensures Shl(New(0x01), 1) == New(0x02)
  {
    forall i: Index8
      ensures Bit(Shl(New(0x01), 1), i) == (i >= 1 && Bit(New(0x01), i - 1))
    {
      ShlAt(New(0x01), 1, i);
    }
    Ext8(Shl(New(0x01), 1), New(0x02));
  }

  /** `2 >> 1` is `1`. */
  lemma ShrExample()
    ensures Shr(New(0x02), 1) == New(0x01)
  {
    forall i: Index8
      ensures Bit(Shr(New(0x02), 1), i) == (i + 1 < 8 && Bit(New(0x02), i + 1))
    {
      ShrAt(New(0x02), 1, i);
    }
    Ext8(Shr(New(0x02), 1), New(0x01));
  }

  /** `!0b1111_0000` (and its `complement`) is `0b0000_1111`. */
  lemma NotExample()
    ensures Not(New(0xF0)) == New(0x0F)
  {
    forall i: Index8
      ensures Bit(Not(New(0xF0)), i) == !Bit(New(0xF0), i)
    {
      NotAt(New(0xF0), i);
    }
    Ext8(Not(New(0xF0)), New(0x0F));
  }

  /** `0b1111_0000 & 0b1100_1100` (and their `intersection`) is `0b1100_0000`. */
  lemma AndExample()
    ensures And(New(0xF0), New(0xCC)) == New(0xC0)
  {
    forall i: Index8
      ensures Bit(And(New(0xF0), New(0xCC)), i) == (Bit(New(0xF0), i) && Bit(New(0xCC), i))
    {
      AndAt(New(0xF0), New(0xCC), i);
    }
    Ext8(And(New(0xF0), New(0xCC)), New(0xC0));
  }

  /** `0b1111_0000 | 0b1100_1100` (and their `union`) is `0b1111_1100`. */
  lemma OrExample()
    ensures Or(New(0xF0), New(0xCC)) == New(0xFC)
  {
    forall i: Index8
      ensures Bit(Or(New(0xF0), New(0xCC)), i) == (Bit(New(0xF0), i) || Bit(New(0xCC), i))
    {
      OrAt(New(0xF0), New(0xCC), i);
    }
    Ext8(Or(New(0xF0), New(0xCC)), New(0xFC));
  }

  /** `0b1111_0000 ^ 0b1100_1100` (and their `sym_difference`) is `0b0011_1100`. */
  lemma XorExample()
    ensures Xor(New(0xF0), New(0xCC)) == New(0x3C)
  {
    forall i: Index8
      ensures Bit(Xor(New(0xF0), New(0xCC)), i) == (Bit(New(0xF0), i) != Bit(New(0xCC), i))
    {
      XorAt(New(0xF0), New(0xCC), i);
    }
    Ext8(Xor(New(0xF0), New(0xCC)), New(0x3C));
  }

  /** `difference(0b1111_0000, 0b1100_1100)` is `0b0011_0000`. */
  lemma DifferenceExample()
    ensures Difference(New(0xF0), New(0xCC)) == New(0x30)
  {
    forall i: Index8
      ensures Bit(Difference(New(0xF0), New(0xCC)), i) == (Bit(New(0xF0), i) && !Bit(New(0xCC), i))
    {
      DifferenceAt(New(0xF0), New(0xCC), i);
    }
    Ext8(Difference(New(0xF0), New(0xCC)), New(0x30));
  }

  /** `bits()` of `0b1111_0000`. */
  lemma BitsExample()
    ensures Bits(New(0xF0)) == [false, false, false, false, true, true, true, true]
  {
  }

  /** `ones()` of `0b1111_0000`. */
  lemma OnesExample()
    ensures Ones(New(0xF0)) == [4, 5, 6, 7]
  {
    BitsExample();
    PositionsExactly(Bits(New(0xF0)), true, [4, 5, 6, 7]);
  }

  /** `zeros()` of `0b1111_0000`. */
  lemma ZerosExample()
    ensures Zeros(New(0xF0)) == [0, 1, 2, 3]
  {
    BitsExample();
    PositionsExactly(Bits(New(0xF0)), false, [0, 1, 2, 3]);
  }

  /** `count_ones()` and `count_zeros()` of `0b1110_0000`. */
  lemma CountExample()
    ensures CountOnes(New(0xE0)) == 3
    ensures CountZeros(New(0xE0)) == 5
  {
    PositionsExactly(Bits(New(0xE0)), true, [5, 6, 7]);
    CountSum(New(0xE0));
  }

  /** `collect()` of the bits of `0b1111_0000`, of the items of
   *  `[true, false, true, false, true, false, true, false]` reversed, and
   *  `from_bits_ref` of that slice itself. */
  lemma CollectExamples()
    ensures FromBools(Bits(New(0xF0))) == New(0xF0)
    ensures FromBools([false, true, false, true, false, true, false, true]) == New(0xAA)
    ensures FromBools([true, false, true, false, true, false, true, false]) == New(0x55)
  {
    CollectBits(New(0xF0));
    CollectBits(New(0x55));
    CollectBits(New(0xAA));
  }

  /** `expand()`, `combine` and `split` on `0b0001_1011` and `0b1110_1000`, and a
   *  narrowing that fails. */
  lemma ConversionExamples()
    ensures Expand16(New(0x1B)) == Ok(Bitfield16(0x1B))
    ensures Expand32(New(0x1B)) == Ok(Bitfield32(0x1B))
    ensures Expand64(New(0x1B)) == Ok(Bitfield64(0x1B))
    ensures Expand128(New(0x1B)) == Ok(Bitfield128(0x1B))
    ensures Combine(New(0x1B), New(0xE8)) == Ok(Bitfield16(0xE81B))
    ensures Split(Bitfield16(0xE81B)) == Ok((New(0x1B), New(0xE8)))
    ensures TryFrom16(Bitfield16(0x100)) == Err(Errors.New(Set(16), Set(8)))
  {
    CombineValue(New(0x1B), New(0xE8));
    SplitValue(Bitfield16(0xE81B));
  }

  // ---------------------------------------------------------------------------
  // In-place updates
  // ---------------------------------------------------------------------------

  /** A `Bitfield8` variable, for the operations that take `&mut self`. */
  class MutBitfield8 {
    var inner: u8

    constructor(x: Bitfield8)
      ensures Value() == x
    {
      inner := x.inner;
    }

    function Value(): Bitfield8
      reads this
    {
      Bitfield8(inner)
    }

    /** `a &= b`. */
    method AndAssign(rhs: Bitfield8)
      modifies this
      ensures Value() == And(old(Value()), rhs)
    {
      inner := And(Value(), rhs).inner;
    }

    /** `a |= b`. */
    method OrAssign(rhs: Bitfield8)
      modifies this
      ensures Value() == Or(old(Value()), rhs)
    {
      inner := Or(Value(), rhs).inner;
    }

    /** `a ^= b`. */
    method XorAssign(rhs: Bitfield8)
      modifies this
      ensures Value() == Xor(old(Value()), rhs)
    {
      inner := Xor(Value(), rhs).inner;
    }

    /** `a &= i` for an index `i`. */
    method AndAssignIndex(i: Index8)
      modifies this
      ensures Value() == AndIndex(old(Value()), i)
    {
      inner := AndIndex(Value(), i).inner;
    }

    /** `a |= i` for an index `i`. */
    method OrAssignIndex(i: Index8)
      modifies this
      ensures Value() == OrIndex(old(Value()), i)
    {
      inner := OrIndex(Value(), i).inner;
    }

    /** `a ^= i` for an index `i`. */
    method XorAssignIndex(i: Index8)
      modifies this
      ensures Value() == XorIndex(old(Value()), i)
    {
      inner := XorIndex(Value(), i).inner;
    }

    /** `a <<= i`: the whole value is replaced by `a << i`. */
    method ShlAssign(i: Index8)
      modifies this
      ensures Value() == Shl(old(Value()), i)
    {
      var shifted := Shl(Value(), i);
      inner := shifted.inner;
    }

    /** `a >>= i`: the whole value is replaced by `a >> i`. */
    method ShrAssign(i: Index8)
      modifies this
      ensures Value() == Shr(old(Value()), i)
    {
      var shifted := Shr(Value(), i);
      inner := shifted.inner;
    }

    /** `set_bit(i, v)` on a variable, and `*bit_mut(i) = v`. */
    method Set(i: Index8, v: bool)
      modifies this
      ensures Value() == SetBit(old(Value()), i, v)
    {
      inner := SetBit(Value(), i, v).inner;
    }

    /** `check_bit(i)` on a variable. */
    method Check(i: Index8)
      modifies this
      ensures Value() == CheckBit(old(Value()), i)
    {
      Set(i, true);
    }

    /** `uncheck_bit(i)` on a variable. */
    method Uncheck(i: Index8)
      modifies this
      ensures Value() == UncheckBit(old(Value()), i)
    {
      Set(i, false);
    }

    /** `for mut bit in bits_mut() { *bit = !*bit }`: each bit in turn is replaced by
     *  its negation, which leaves the complement. */
    method FlipAll()
      modifies this
      ensures Value() == Not(old(Value()))
    {
      var i: nat := 0;
      while i < 8
        invariant i <= 8
        invariant forall j: Index8 :: Bit(Value(), j) == (if j < i then !Bit(old(Value()), j) else Bit(old(Value()), j))
      {
        var before := Value();
        Set(i, !Bit(before, i));
        forall j: Index8
          ensures Bit(Value(), j) == (if j == i then !Bit(before, j) else Bit(before, j))
        {
          SetBitAt(before, i, !Bit(before, i), j);
        }
        i := i + 1;
      }
      forall j: Index8
        ensures Bit(Value(), j) == Bit(Not(old(Value())), j)
      {
        NotAt(old(Value()), j);
      }
      Ext(Value(), Not(old(Value())));
    }
  }

  /** The in-place bit tests on `0b1010_1010`: `set_bit(6, true)` and `check_bit(6)`
   *  give `0b1110_1010`, `set_bit(7, false)` and `uncheck_bit(7)` give `0b0010_1010`,
   *  and writing `true` to bit 0 and `false` to bit 1 through `bit_mut` makes them
   *  read back so. */
  method SetInPlaceExample() returns (setTrue: Bitfield8, checked: Bitfield8,
                                      setFalse: Bitfield8, unchecked: Bitfield8,
                                      mutated: Bitfield8)
    ensures setTrue == checked == New(0xEA)
    ensures setFalse == unchecked == New(0x2A)
    ensures Bit(mutated, 0) && !Bit(mutated, 1)
  {
    SetTrueExample();
    SetFalseExample();
    var a := new MutBitfield8(New(0xAA));
    a.Set(6, true);
    setTrue := a.Value();
    var b := new MutBitfield8(New(0xAA));
    b.Check(6);
    checked := b.Value();
    var c := new MutBitfield8(New(0xAA));
    c.Set(7, false);
    setFalse := c.Value();
    var d := new MutBitfield8(New(0xAA));
    d.Uncheck(7);
    unchecked := d.Value();
    var e := new MutBitfield8(New(0xAA));
    e.Set(0, true);
    e.Set(1, false);
    SetBitAt(SetBit(New(0xAA), 0, true), 1, false, 0);
    SetBitAt(SetBit(New(0xAA), 0, true), 1, false, 1);
    SetBitAt(New(0xAA), 0, true, 0);
    mutated := e.Value();
  }

  /** The in-place operator tests: `0b1 <<= 1` gives `0b10`, `0b10 >>= 1` gives `0b1`,
   *  and `0b1111_0000` `&=`, `|=`, `^=` `0b1100_1100` give `0b1100_0000`,
   *  `0b1111_1100` and `0b0011_1100`. */
  method AssignExamples() returns (shl: Bitfield8, shr: Bitfield8, and: Bitfield8,
                                   or: Bitfield8, xor: Bitfield8)
    ensures shl == New(0x02) && shr == New(0x01)
    ensures and == New(0xC0) && or == New(0xFC) && xor == New(0x3C)
  {
    ShlExample();
    ShrExample();
    AndExample();
    OrExample();
    XorExample();
    var a := new MutBitfield8(New(0x01));
    a.ShlAssign(1);
    shl := a.Value();
    var z := new MutBitfield8(New(0x02));
    z.ShrAssign(1);
    shr := z.Value();
    var b := new MutBitfield8(New(0xF0));
    b.AndAssign(New(0xCC));
    and := b.Value();
    var c := new MutBitfield8(New(0xF0));
    c.OrAssign(New(0xCC));
    or := c.Value();
    var d := new MutBitfield8(New(0xF0));
    d.XorAssign(New(0xCC));
    xor := d.Value();
  }

  /** The `bits_mut` test: flipping every bit of `0b1111_0000` leaves `0b0000_1111`. */
  method FlipAllExample() returns (r: Bitfield8)
    ensures r == New(0x0F)
  {
    var a := new MutBitfield8(New(0xF0));
    a.FlipAll();
    NotExample();
    r := a.Value();
  }
}
