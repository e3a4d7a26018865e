# simple-bitfield: fixed-width bit sets and their conversion errors

This project models the core of the Rust crate `simple-bitfield`:

- `Bitfield8` (src/bitfield8.rs) and `Bitfield128` (src/bitfield128.rs). Each is a bit set of fixed width that wraps exactly one unsigned integer, `u8` or `u128`.
- The conversion-error taxonomy `ConvTarget` / `ConvError` of src/error.rs, and how both render through `Display` and `Debug`.

Bit `i` of a set is bit `i` of its integer; bit 0 is the least significant.

Files and modules:

- `widths.dfy` (`Widths`): the value types of all five widths (`Bitfield8` … `Bitfield128`, each over a natural number below `2^W`) and the index types `Index8` (`0..7`) and `Index128` (`0..127`).
- `word.dfy` (`Word`): bits of natural numbers. It defines `Bit(x, i)` and the operators `Not`, `And`, `Or`, `Xor`, `Shl`, `Shr` on `W`-bit words, each built bit by bit from `FromBits`. It proves each operator's per-bit law, the set-algebra laws (`!!x == x`, `(a ^ b) ^ b == a`, De Morgan, idempotence, the split by `difference`) and, for `!`, `<<` and `>>`, its arithmetic value (`2^W - 1 - x`, `x * 2^k mod 2^W`, `x / 2^k`). `Field8` and `Field128` state each of these once more for their own width.
- `bitseq.dfy` (`BitSeq`): facts about the `bool` sequence a set yields when iterated bit 0 first. It counts the entries with a given value and lists the ascending positions of the set or unset entries.
- `errors.dfy` (`Errors`): `ConvTarget`, `ConvError`, the `Result` of fallible conversions, and the four renderings: `Display` and `Debug` of each type. Each rendering is proved to identify the value it renders.
- `field8.dfy` (`Field8`): `Bitfield8` and its operations as functions. `MutBitfield8` is a class with one `inner` field, for the `*_assign` operators and the in-place bit updates.
- `field128.dfy` (`Field128`): `Bitfield128` in the same style. It adds:
  - the widening conversions;
  - the `FromIterator<bool>` loop, as a method proved against a fold;
  - the `FromIterator<Flagenum>` loop, as a method with a set of seen indices, proved against the union of the singletons.

Every operator is specified bit by bit, and two sets with the same bits are equal (`Ext`). Each property the source or its tests promise is proved for all inputs. The concrete values of the tests are proved as example lemmas.

## Model

| member | source | states |
|---|---|---|
| Errors.New | src/error.rs:67-69 | `ConvError::new(from, to)` keeps both targets unchanged |
| Errors.NewEquality | src/error.rs:21-26 | two errors are equal exactly when their sources and destinations are equal |
| Errors.TargetDisplayInjective | src/error.rs:39-48 | the `Display` text of a target (`Bitset (size n)`, `Index (max = m)`, `Enum (n variants)`, `nusize`) determines the target |
| Errors.TargetDebugInjective | src/error.rs:28-37 | the `Debug` text of a target (`Bitsetn`, `Index<Bitsetn>`, `Enum(n variants)`, `nusize`) determines the target |
| Errors.DisplayEight | src/error.rs:42-44 | `Set(8)` displays as `Bitset (size 8)` and `Enum(8)` as `Enum (8 variants)` |
| Errors.NewDisplayExample | src/error.rs:61-63 | the error from `Set(8)` to `Enum(8)` reads `failed to convert from Bitset (size 8) to Enum (8 variants)` |
| Errors.ErrorDisplayInjective | src/error.rs:74-78 | the message `failed to convert from {from} to {to}` determines the error: `" to "` cannot occur inside a target's `Display` text |
| Errors.ErrorDebugInjective | src/error.rs:21-37 | the derived `Debug` text `ConvError { from: {from:?}, to: {to:?} }` determines the error |
| Errors.ParseDecimalOfDecimal | src/error.rs:39-48 | the decimal rendering `{n}` of a number reads back as that number |
| Field8.NewIntoInner | src/bitfield8.rs:28-75 | `into_inner(new(n)) == n` and `new(into_inner(x)) == x`; `From<u8>` and `From<Bitfield8> for u8` are inverse |
| Field8.Constants | src/bitfield8.rs:58-60 | `NONE` holds no bit, `ALL` every bit, `ONE` bit 0 alone |
| Field8.NotAt | src/bitfield8.rs:146-153 | `!x` flips every one of the 8 bits |
| Field8.NotValue | src/bitfield8.rs:146-153 | as a number, `!x` is `0xFF - x` |
| Field8.AndAt | src/bitfield8.rs:155-162 | bit `i` of `a & b` is set iff it is set in both |
| Field8.OrAt | src/bitfield8.rs:171-178 | bit `i` of `a \| b` is set iff it is set in either |
| Field8.XorAt | src/bitfield8.rs:187-194 | bit `i` of `a ^ b` is set iff it is set in exactly one |
| Field8.DifferenceAt | src/bitfield8.rs:651-657 | `difference(a, b)` keeps exactly the bits of `a` not in `b` |
| Field8.ShlAt | src/bitfield8.rs:203-210 | `x << i` moves bit `j - i` to `j` and zero-fills; bits moved past bit 7 are dropped |
| Field8.ShlValue | src/bitfield8.rs:203-210 | as a number, `x << i` is `x * 2^i mod 256` |
| Field8.ShrAt | src/bitfield8.rs:219-226 | `x >> i` moves bit `j + i` to `j` and zero-fills the top `i` bits |
| Field8.ShrValue | src/bitfield8.rs:219-226 | as a number, `x >> i` is `x / 2^i` |
| Field8.FromIndexAt | src/bitfield8.rs:77-82 | `From(i)` holds bit `i` alone; `From(Index::MIN) == ONE` |
| Field8.IndexOperandAt | src/bitfield8.rs:235-281 | with an index operand, `&` isolates bit `i`, `\|` sets it and `^` flips it |
| Field8.NotNot | src/bitfield8.rs:146-153 | `!!x == x` |
| Field8.XorTwice | src/bitfield8.rs:187-194 | `(a ^ b) ^ b == a` |
| Field8.DifferenceSplits | src/bitfield8.rs:636-657 | `difference(a, b)` is disjoint from `b`, and with `a & b` it makes up `a` |
| Field8.DeMorgan | src/bitfield8.rs:146-178 | `!(a & b) == !a \| !b` and `!(a \| b) == !a & !b` |
| Field8.Idempotent | src/bitfield8.rs:155-178 | `x & x == x` and `x \| x == x` |
| Field8.SetBitAt | src/bitfield8.rs:466-513 | `set_bit(i, v)` makes bit `i` read `v` and changes no other bit; `check_bit`/`uncheck_bit` do so with `true`/`false` |
| Field8.SetBitOwnValue | src/bitfield8.rs:466-484 | setting a bit to the value it already has changes nothing |
| Field8.SetBitTwice | src/bitfield8.rs:466-484 | setting the same bit twice keeps only the second value |
| Field8.Bits | src/bitfield8.rs:667-681 | `bits()` yields exactly 8 booleans, entry `k` being bit `k` |
| Field8.OnesZeros | src/bitfield8.rs:753-777 | `ones()` lists the set bits and `zeros()` the unset bits, each in ascending order |
| Field8.CountSum | src/bitfield8.rs:539-551 | `count_ones() + count_zeros() == 8`, and they are the lengths of `ones()` and `zeros()` |
| Field8.FoldOnesAt | src/bitfield8.rs:355-364 | the fold `acc \| 1 << i` over the true items sets bit `i` iff item `i` is true |
| Field8.FromBoolsAt | src/bitfield8.rs:355-364 | `collect()` sets bit `i` iff item `i` exists and is true |
| Field8.FromBoolsTruncates | src/bitfield8.rs:355-364 | items after the eighth do not change the result |
| Field8.CollectBits | src/bitfield8.rs:733-751 | `collect(bits(x)) == x` |
| Field8.BitsOfCollect | src/bitfield8.rs:733-751 | `bits(collect(s)) == s` for 8 items |
| Field8.TryFrom16 | src/bitfield8.rs:102-111 | succeeds iff the value is below 256, with the same number; otherwise fails with the error from `Set(16)` to `Set(8)` |
| Field8.TryFrom32 | src/bitfield8.rs:113-122 | succeeds iff the value is below 256, with the same number; otherwise fails with the error from `Set(32)` to `Set(8)` |
| Field8.TryFrom64 | src/bitfield8.rs:124-133 | succeeds iff the value is below 256, with the same number; otherwise fails with the error from `Set(64)` to `Set(8)` |
| Field8.TryFrom128 | src/bitfield8.rs:135-144 | succeeds iff the value is below 256, with the same number; otherwise fails with the error from `Set(128)` to `Set(8)` |
| Field8.NarrowExpanded | src/bitfield8.rs:800-823 | `expand` to 16, 32, 64 and 128 bits succeeds, and narrowing back gives the original set |
| Field8.ExpandNarrowed | src/bitfield8.rs:102-144 | a successful narrowing, expanded again, gives the original wide set |
| Field8.CombineAt | src/bitfield8.rs:850-859 | `combine(low, high)` succeeds; its bits 0-7 are `low` and bits 8-15 are `high` |
| Field8.SplitAt | src/bitfield8.rs:861-869 | `split(v)` succeeds with `(low byte, high byte)` of `v`, bit by bit |
| Field8.CombineValue | src/bitfield8.rs:850-859 | as a number, `combine(low, high)` is `high * 256 + low` |
| Field8.SplitValue | src/bitfield8.rs:861-869 | as numbers, `split(v)` is `(v mod 256, v / 256)` |
| Field8.CombineSplit | src/bitfield8.rs:850-869 | `combine(split(v)) == v` |
| Field8.SplitCombine | src/bitfield8.rs:850-869 | `split(combine(low, high)) == (low, high)` |
| Field8.ConstructionExample | src/bitfield8.rs:432-443 | `NONE.set_bit(0, true).check_bit(1).uncheck_bit(0) == 0b10` |
| Field8.SetTrueExample | src/bitfield8.rs:466-474 | `set_bit(6, true)` and `check_bit(6)` on `0b10101010` give `0b11101010` |
| Field8.SetFalseExample | src/bitfield8.rs:476-484 | `set_bit(7, false)` and `uncheck_bit(7)` on `0b10101010` give `0b00101010` |
| Field8.BitExample | src/bitfield8.rs:486-493 | bit 0 of `0b10101010` is unset and bit 1 set |
| Field8.ShlExample | src/bitfield8.rs:553-564 | `1 << 1 == 2` |
| Field8.ShrExample | src/bitfield8.rs:566-577 | `2 >> 1 == 1` |
| Field8.NotExample | src/bitfield8.rs:579-584 | `!0b11110000 == 0b00001111` |
| Field8.AndExample | src/bitfield8.rs:586-598 | `0b11110000 & 0b11001100 == 0b11000000` |
| Field8.OrExample | src/bitfield8.rs:600-612 | `0b11110000 \| 0b11001100 == 0b11111100` |
| Field8.XorExample | src/bitfield8.rs:614-626 | `0b11110000 ^ 0b11001100 == 0b00111100` |
| Field8.DifferenceExample | src/bitfield8.rs:651-657 | `difference(0b11110000, 0b11001100) == 0b00110000` |
| Field8.BitsExample | src/bitfield8.rs:667-681 | `bits()` of `0b11110000` is four `false` then four `true` |
| Field8.OnesExample | src/bitfield8.rs:753-764 | `ones()` of `0b11110000` is `[4, 5, 6, 7]` |
| Field8.ZerosExample | src/bitfield8.rs:766-777 | `zeros()` of `0b11110000` is `[0, 1, 2, 3]` |
| Field8.CountExample | src/bitfield8.rs:539-551 | `0b11100000` has 3 ones and 5 zeros |
| Field8.CollectExamples | src/bitfield8.rs:733-786 | collecting `bits(0b11110000)` gives it back; the alternating slices give `0b10101010` and `0b01010101` |
| Field8.ConversionExamples | src/bitfield8.rs:800-869 | the `expand`, `combine` and `split` values of the tests, and the error of narrowing `0x100` |
| Field8.MutBitfield8.AndAssign | src/bitfield8.rs:164-169 | `a &= b` leaves `a` equal to `old(a) & b` |
| Field8.MutBitfield8.OrAssign | src/bitfield8.rs:180-185 | `a \|= b` leaves `a` equal to `old(a) \| b` |
| Field8.MutBitfield8.XorAssign | src/bitfield8.rs:196-201 | `a ^= b` leaves `a` equal to `old(a) ^ b` |
| Field8.MutBitfield8.AndAssignIndex | src/bitfield8.rs:244-249 | `a &= i` leaves `a` equal to `old(a) & From(i)` |
| Field8.MutBitfield8.OrAssignIndex | src/bitfield8.rs:260-265 | `a \|= i` leaves `a` equal to `old(a) \| From(i)` |
| Field8.MutBitfield8.XorAssignIndex | src/bitfield8.rs:276-281 | `a ^= i` leaves `a` equal to `old(a) ^ From(i)` |
| Field8.MutBitfield8.ShlAssign | src/bitfield8.rs:212-217 | `a <<= i` leaves `a` equal to `old(a) << i` |
| Field8.MutBitfield8.ShrAssign | src/bitfield8.rs:228-233 | `a >>= i` leaves `a` equal to `old(a) >> i` |
| Field8.MutBitfield8.Set | src/bitfield8.rs:524-537 | `set_bit(i, v)` / `*bit_mut(i) = v` in place gives `SetBit(old, i, v)` |
| Field8.MutBitfield8.Check | src/bitfield8.rs:495-503 | `check_bit(i)` in place gives `CheckBit(old, i)` |
| Field8.MutBitfield8.Uncheck | src/bitfield8.rs:505-513 | `uncheck_bit(i)` in place gives `UncheckBit(old, i)` |
| Field8.MutBitfield8.FlipAll | src/bitfield8.rs:699-731 | the `bits_mut` loop that flips each bit leaves the complement `!old` |
| Field8.SetInPlaceExample | src/bitfield8.rs:466-537 | in place on `0b10101010`, `set_bit(6, true)` and `check_bit(6)` give `0b11101010`, `set_bit(7, false)` and `uncheck_bit(7)` give `0b00101010`, and writing `true` to bit 0 and `false` to bit 1 through `bit_mut` makes them read back so |
| Field8.AssignExamples | src/bitfield8.rs:553-626 | in place, `0b1 <<= 1` gives `0b10`, `0b10 >>= 1` gives `0b1`, and `0b11110000` `&=`, `\|=`, `^=` `0b11001100` give `0b11000000`, `0b11111100`, `0b00111100` |
| Field8.FlipAllExample | src/bitfield8.rs:699-731 | flipping every bit of `0b11110000` through `bits_mut` leaves `0b00001111` |
| Field128.FromInnerIntoInner | src/bitfield128.rs:26-62 | `into_inner(From(n)) == n` and `From(into_inner(x)) == x` |
| Field128.Constants | src/bitfield128.rs:33-38 | `NONE` holds no bit, `ALL` all 128 bits, `ONE` bit 0 alone |
| Field128.NotAt | src/bitfield128.rs:99-106 | `!x` flips every one of the 128 bits |
| Field128.NotValue | src/bitfield128.rs:99-106 | as a number, `!x` is `u128::MAX - x` |
| Field128.AndAt | src/bitfield128.rs:108-115 | bit `i` of `a & b` is set iff it is set in both |
| Field128.OrAt | src/bitfield128.rs:124-131 | bit `i` of `a \| b` is set iff it is set in either |
| Field128.XorAt | src/bitfield128.rs:140-147 | bit `i` of `a ^ b` is set iff it is set in exactly one |
| Field128.DifferenceAt | src/bitfield128.rs:451-457 | `difference(a, b)` keeps exactly the bits of `a` not in `b` |
| Field128.ShlAt | src/bitfield128.rs:156-163 | `x << i` moves bit `j - i` to `j` and zero-fills; bits moved past bit 127 are dropped |
| Field128.ShlValue | src/bitfield128.rs:156-163 | as a number, `x << i` is `x * 2^i mod 2^128` |
| Field128.ShrAt | src/bitfield128.rs:172-179 | `x >> i` moves bit `j + i` to `j` and zero-fills the top `i` bits |
| Field128.ShrValue | src/bitfield128.rs:172-179 | as a number, `x >> i` is `x / 2^i` |
| Field128.FromIndexAt | src/bitfield128.rs:64-69 | `From(i) == ONE << i` holds bit `i` alone; `From(MIN) == ONE` |
| Field128.NotNot | src/bitfield128.rs:99-106 | `!!x == x` |
| Field128.XorTwice | src/bitfield128.rs:140-147 | `(a ^ b) ^ b == a` |
| Field128.DeMorgan | src/bitfield128.rs:99-131 | `!(a & b) == !a \| !b` and `!(a \| b) == !a & !b` |
| Field128.Idempotent | src/bitfield128.rs:108-131 | `x & x == x` and `x \| x == x` |
| Field128.DifferenceSplits | src/bitfield128.rs:436-457 | `difference(a, b)` is disjoint from `b`, and with `a & b` it makes up `a` |
| Field128.SetBitAt | src/bitfield128.rs:297-339 | `set(i, v)` makes bit `i` read `v` and changes no other bit; `check_bit`/`uncheck_bit` do so with `true`/`false` |
| Field128.SetBitOwnValue | src/bitfield128.rs:297-313 | setting a bit to the value it already has changes nothing |
| Field128.SetBitTwice | src/bitfield128.rs:297-313 | setting the same bit twice keeps only the second value |
| Field128.IndicesAt | src/bitfield128.rs:508-535 | `set_indeces()` lists the set bits and `unset_indeces()` the unset bits, in ascending order, partitioning `[0, 128)` |
| Field128.CountSum | src/bitfield128.rs:39-47 | `count_ones() + count_zeros() == BIT_SIZE == 128`, and they are the lengths of the index lists |
| Field128.From8At | src/bitfield128.rs:71-76 | widening a `Bitfield8` keeps its 8 bits and leaves bits 8-127 unset |
| Field128.From16At | src/bitfield128.rs:78-83 | widening a `Bitfield16` keeps its 16 bits and leaves bits 16-127 unset |
| Field128.From32At | src/bitfield128.rs:85-90 | widening a `Bitfield32` keeps its 32 bits and leaves bits 32-127 unset |
| Field128.From64At | src/bitfield128.rs:92-97 | widening a `Bitfield64` keeps its 64 bits and leaves bits 64-127 unset |
| Field128.NarrowFrom8 | src/bitfield8.rs:135-144 | narrowing by `TryFrom<Bitfield128> for Bitfield8` undoes the widening `From<Bitfield8> for Bitfield128` (src/bitfield128.rs:71-76): it succeeds with the original byte |
| Field128.WideningAgrees | src/bitfield128.rs:71-97 | widening through 16, 32 or 64 bits, or by `expand`, gives the same 128-bit set |
| Field128.From8Operators | src/bitfield128.rs:71-154 | widening commutes with `&`, `\|`, `^` and `difference` |
| Field128.From8Shr | src/bitfield128.rs:71-76 | widening commutes with `>>` |
| Field128.From8SetBit | src/bitfield128.rs:71-76 | widening commutes with `set(i, v)` for `i < 8` |
| Field128.From8Bits | src/bitfield128.rs:188-197 | the 128 bits of a widened 8-bit set are its 8 bits followed by 120 unset ones |
| Field128.StepAt | src/bitfield128.rs:203-205 | one step `acc \|= (bit as u128) << i` sets bit `i` when the item is true and changes no other bit |
| Field128.FoldBoolsAt | src/bitfield128.rs:199-207 | after folding items `0..n`, bit `k` is item `k` for `k < n` and unset above |
| Field128.FromBoolsAt | src/bitfield128.rs:199-207 | `collect()` sets bit `j` iff item `j` exists and is true |
| Field128.FromBoolsTruncates | src/bitfield128.rs:199-207 | items after the 128th do not change the result |
| Field128.CollectBits | src/bitfield128.rs:488-506 | `collect(bits(x)) == x` |
| Field128.BitsOfCollect | src/bitfield128.rs:188-207 | `bits(collect(s)) == s` for 128 items |
| Field128.FromBoolsShort | src/bitfield128.rs:537-544 | up to 8 items collect into the widened 8-bit collection |
| Field128.FromIterBool | src/bitfield128.rs:199-207 | the `for` loop over the first 128 items computes `FromBools(items)` |
| Field128.UnionAt | src/bitfield128.rs:209-228 | bit `j` of the OR of the singletons of a list of indices is set iff `j` is listed |
| Field128.UnionSameIndices | src/bitfield128.rs:209-228 | that OR depends only on which indices are listed, not on order or repetitions |
| Field128.FromFlags | src/bitfield128.rs:209-228 | the loop that skips already-seen indices computes the OR of the singletons of all the flags' indices |
| Field128.ConstructionExample | src/bitfield128.rs:266-274 | `new()` (`NONE`)`.set(0, true).check_bit(1).uncheck_bit(0) == 0b10` |
| Field128.BitExamples | src/bitfield128.rs:283-339 | `From(MIN) == ONE`; `set`, `check_bit`, `uncheck_bit` and `get` on `0b10101010` give the tested values |
| Field128.OperatorExamples | src/bitfield128.rs:355-465 | the tested values of `<<`, `>>`, `!NONE == ALL`, `&`, `\|`, `^` and `difference` |
| Field128.BitsExample | src/bitfield128.rs:467-486 | the bits of `0b11110000`: four unset, four set, then 120 unset |
| Field128.SetIndicesExample | src/bitfield128.rs:508-518 | `set_indeces()` of `0b11110000` is `[4, 5, 6, 7]` |
| Field128.UnsetIndicesExample | src/bitfield128.rs:520-535 | `unset_indeces()` of `0b11110000` is `0..3` then `8..127` |
| Field128.CountExample | src/bitfield128.rs:341-353 | `0b11100000` has 3 ones and 125 zeros |
| Field128.CollectExamples | src/bitfield128.rs:488-544 | collecting `bits(0b11110000)` gives it back; the alternating slices give `0b10101010` and `0b01010101` |
| Field128.ConversionExamples | src/bitfield128.rs:276-295 | `From<u128>` and `into_inner` keep the number, as the tests assert |
| Field128.WideningExamples | src/bitfield128.rs:71-97 | widening by `From<Bitfield8>` and `From<Bitfield64>` keeps the number |
| Field128.MutBitfield128.AndAssign | src/bitfield128.rs:117-122 | `a &= b` leaves `a` equal to `old(a) & b` |
| Field128.MutBitfield128.OrAssign | src/bitfield128.rs:133-138 | `a \|= b` leaves `a` equal to `old(a) \| b` |
| Field128.MutBitfield128.XorAssign | src/bitfield128.rs:149-154 | `a ^= b` leaves `a` equal to `old(a) ^ b` |
| Field128.MutBitfield128.ShlAssign | src/bitfield128.rs:165-170 | `a <<= i` leaves `a` equal to `old(a) << i` |
| Field128.MutBitfield128.ShrAssign | src/bitfield128.rs:181-186 | `a >>= i` leaves `a` equal to `old(a) >> i` |
| Field128.MutBitfield128.Set | src/bitfield128.rs:297-313 | `set(i, v)` in place gives `SetBit(old, i, v)` |
| Field128.MutBitfield128.Check | src/bitfield128.rs:323-330 | `check_bit(i)` in place gives `CheckBit(old, i)` |
| Field128.MutBitfield128.Uncheck | src/bitfield128.rs:332-339 | `uncheck_bit(i)` in place gives `UncheckBit(old, i)` |
| Field128.InPlaceExamples | src/bitfield128.rs:297-435 | in place, `0b1 <<= 1` gives `0b10`, `0b10 >>= 1` gives `0b1`, `0b11110000` `&=`, `\|=`, `^=` `0b11001100` give `0b11000000`, `0b11111100`, `0b00111100`; on `0b10101010`, `set(6, true)` and `check_bit(6)` give `0b11101010`, `set(7, false)` and `uncheck_bit(7)` give `0b00101010` |

## Left out

- The `Debug`, `Display`, `Binary`, `Octal`, `UpperHex` and `LowerHex` impls of the bit sets: they delegate to Rust's formatting machinery.
- The serde derives: serialization is an external library.
- The `Send`/`Sync` tests: they check trait bounds and have no behaviour.
- The commented-out `FlagsEnum` code of src/bitfield8.rs: it is disabled.
- The memory reinterpretation of `LeftAligned`: its `_BYTE_SIZE` and the `*_optimized` variants of `expand`, `combine` and `split`. The model cannot see memory layout. Their tests assert the same values as the plain variants, and those values are proved. The three constants of `LeftAligned for Bitfield8` (`_NONE`, `_ONE`, `_ALL`, src/bitfield8.rs:56-61) are modelled as `Field8.NONE`, `Field8.ONE` and `Field8.ALL`.
- `From<ByteField<1>>`: `ByteField` is not part of this model.
- The borrowing and write-back-on-drop mechanics of `bit_ref`, `bit_mut`, `bits_ref` and `bits_mut`. Reading through them is modelled as `Bit`, writing as `Set`, and the flip loop as `FlipAll`.
- src/bitfield8.rs reports narrowing errors with `ConvTarget::Field(w)`, but src/error.rs has only `Set`, `Index`, `Enum` and `Raw`. `Field(w)` is modelled as `Set(w)`.
- The trait methods that live outside the three files: `set_bit`/`set`, `check_bit`, `uncheck_bit`, `bit`/`get`, `bits`, `ones`/`set_indeces`, `zeros`/`unset_indeces`, `complement`, `intersection`, `union`, `sym_difference`, `difference`, `expand`, `combine`, `split`, `from_slice_bool`, `from_bits_ref`, `new()` of `Bitfield128`. Their definitions are not part of this model, so each is given the definition its tests imply. `complement`, `intersection`, `union` and `sym_difference` are the operators `!`, `&`, `|`, `^`; `difference(a, b)` is `a & !b`; `from_bits_ref(slice)` collects the slice like `FromIterator<bool>` (`FromBools`); `new()` is taken to be `NONE`, although the test's result `0b10` fixes only its bits 2 to 127 (at zero).
- Field8.Combine, Field8.Split, Field8.Expand16, Field8.Expand32, Field8.Expand64, Field8.Expand128: always return `Ok`. The trait methods are defined outside the three files, and their tests show only the success path.
- Iterators are modelled as finished sequences (`seq<bool>`, `seq<nat>`): their laziness, and any consumption from an infinite iterator beyond the first 8 or 128 items, are not modelled.
- Field128.FromFlags: the `Flagenum` conversion to an index is a parameter function `A -> Index128`. The `BTreeSet` of seen indices is a Dafny `set`, so its ordering is not modelled.
- `usize` is modelled as a natural number below `2^64` (a 64-bit target).
