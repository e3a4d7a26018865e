/*
 * The conversion-error taxonomy of src/error.rs: `ConvTarget` names the shape
 * on one side of a failed conversion, `ConvError` pairs a source and a
 * destination shape, and both render through `Display` and `Debug`.
 */
module Errors {

  /** Rust's `usize` on a 64-bit target. */
  type usize = n: nat | n < 0x1_0000_0000_0000_0000

  /** Target or instigator of a conversion. */
  datatype ConvTarget =
    | Set(n: usize)     // a bit set of `n` bits
    | Index(n: usize)   // an index bounded by `n`
    | Enum(n: usize)    // an enumeration with `n` variants
    | Raw(n: usize)     // a raw integer

  /** The one error type of every fallible conversion. */
  datatype ConvError = ConvError(from: ConvTarget, to: ConvTarget)

  /** The result of a fallible conversion (`ConvResult<T>`). */
  datatype Result<T> = Ok(value: T) | Err(error: ConvError)

  /** `ConvError::new`: keeps both targets as given. */
  function New(from: ConvTarget, to: ConvTarget): (e: ConvError)
    ensures e.from == from && e.to == to
  {
    ConvError(from, to)
  }

  /** Two errors are equal exactly when their source and destination are. */
  lemma NewEquality(a: ConvTarget, b: ConvTarget, c: ConvTarget, d: ConvTarget)
    ensures New(a, b) == New(c, d) <==> a == c && b == d
  {
  }

  // ---------------------------------------------------------------------------
  // Decimal rendering of an integer, as `{n}` in a format string does it
  // ---------------------------------------------------------------------------

  predicate IsDigit(c: char) {
    '0' <= c <= '9'
  }

  predicate AllDigits(s: string) {
    forall k :: 0 <= k < |s| ==> IsDigit(s[k])
  }

  function DigitChar(d: nat): (c: char)
    requires d < 10
    ensures IsDigit(c) && c as int - '0' as int == d
  {
    "0123456789"[d]
  }

  function DigitValue(c: char): (d: nat)
    requires IsDigit(c)
    ensures d < 10 && DigitChar(d) == c
  {
    c as int - '0' as int
  }

  /** Decimal digits of `n`, most significant first, without leading zeros. */
  function Decimal(n: nat): (s: string)
    ensures |s| >= 1 && AllDigits(s)
    ensures (s[0] == '0') == (n == 0)
    ensures n < 10 <==> |s| == 1
    decreases n
  {
    if n < 10 then [DigitChar(n)] else Decimal(n / 10) + [DigitChar(n % 10)]
  }

  /** Reads a string of decimal digits back as a number. */
  function ParseDecimal(s: string): nat
    requires AllDigits(s)
    decreases |s|
  {
    if s == [] then 0 else 10 * ParseDecimal(s[..|s| - 1]) + DigitValue(s[|s| - 1])
  }

  lemma {:induction false} ParseDecimalOfDecimal(n: nat)
    ensures ParseDecimal(Decimal(n)) == n
    decreases n
  {
    var s := Decimal(n);
    if n >= 10 {
      ParseDecimalOfDecimal(n / 10);
      assert s[..|s| - 1] == Decimal(n / 10);
    }
  }

  /** Distinct numbers render as distinct digit strings. */
  lemma DecimalInjective(a: nat, b: nat)
    requires Decimal(a) == Decimal(b)
    ensures a == b
  {
    ParseDecimalOfDecimal(a);
    ParseDecimalOfDecimal(b);
  }

  // ---------------------------------------------------------------------------
  // Display and Debug
  // ---------------------------------------------------------------------------

  /** `impl Display for ConvTarget`. */
  function TargetDisplay(t: ConvTarget): string {
    match t
    case Set(size) => "Bitset (size " + Decimal(size) + ")"
    case Index(max) => "Index (max = " + Decimal(max) + ")"
    case Enum(size) => "Enum (" + Decimal(size) + " variants)"
    case Raw(n) => Decimal(n) + "usize"
  }

  /** `impl Debug for ConvTarget`. */
  function TargetDebug(t: ConvTarget): string {
    match t
    case Set(size) => "Bitset" + Decimal(size)
    case Index(size) => "Index<Bitset" + Decimal(size) + ">"
    case Enum(size) => "Enum(" + Decimal(size) + " variants)"
    case Raw(n) => Decimal(n) + "usize"
  }

  /** `impl Display for ConvError`. */
  function ErrorDisplay(e: ConvError): string {
    "failed to convert from " + TargetDisplay(e.from) + " to " + TargetDisplay(e.to)
  }

  /** The `Debug` that `#[derive(Debug)]` gives `ConvError`: the struct name and
   *  both fields, each shown through `Debug for ConvTarget`. */
  function ErrorDebug(e: ConvError): string {
    "ConvError { from: " + TargetDebug(e.from) + ", to: " + TargetDebug(e.to) + " }"
  }

  /** If `p + x + q == p + y + q` for digit strings `x` and `y`, the numbers agree. */
  lemma FramedDecimal(p: string, a: nat, b: nat, q: string)
    requires p + Decimal(a) + q == p + Decimal(b) + q
    ensures a == b
  {
    var s := p + Decimal(a) + q;
    assert |Decimal(a)| == |Decimal(b)|;
    assert Decimal(a) == s[|p|..|s| - |q|];
    assert Decimal(b) == s[|p|..|s| - |q|];
    DecimalInjective(a, b);
  }

  /** The text `Display` shows for a target identifies the target. */
  lemma TargetDisplayInjective(a: ConvTarget, b: ConvTarget)
    requires TargetDisplay(a) == TargetDisplay(b)
    ensures a == b
  {
    var s := TargetDisplay(a);
    var da, db := Decimal(a.n), Decimal(b.n);
    assert IsDigit(da[0]) && IsDigit(db[0]);
    // the first character tells the variants apart: 'B', 'I', 'E' or a digit
    assert a.Set? ==> s[0] == 'B';
    assert a.Index? ==> s[0] == 'I';
    assert a.Enum? ==> s[0] == 'E';
    assert a.Raw? ==> s[0] == da[0];
    assert b.Set? ==> s[0] == 'B';
    assert b.Index? ==> s[0] == 'I';
    assert b.Enum? ==> s[0] == 'E';
    assert b.Raw? ==> s[0] == db[0];
    match a
    case Set(_) => FramedDecimal("Bitset (size ", a.n, b.n, ")");
    case Index(_) => FramedDecimal("Index (max = ", a.n, b.n, ")");
    case Enum(_) => FramedDecimal("Enum (", a.n, b.n, " variants)");
    case Raw(_) =>
      assert "" + Decimal(a.n) + "usize" == s == "" + Decimal(b.n) + "usize";
      FramedDecimal("", a.n, b.n, "usize");
  }

  /** The text `Debug` shows for a target identifies the target. */
  lemma TargetDebugInjective(a: ConvTarget, b: ConvTarget)
    requires TargetDebug(a) == TargetDebug(b)
    ensures a == b
  {
    var s := TargetDebug(a);
    var da, db := Decimal(a.n), Decimal(b.n);
    assert IsDigit(da[0]) && IsDigit(db[0]);
    assert a.Set? ==> s[..6] == "Bitset";
    assert a.Index? ==> s[..6] == "Index<";
    assert a.Enum? ==> s[0] == 'E';
    assert a.Raw? ==> s[0] == da[0];
    assert b.Set? ==> s[..6] == "Bitset";
    assert b.Index? ==> s[..6] == "Index<";
    assert b.Enum? ==> s[0] == 'E';
    assert b.Raw? ==> s[0] == db[0];
    match a
    case Set(_) => FramedDecimal("Bitset", a.n, b.n, "");
    case Index(_) => FramedDecimal("Index<Bitset", a.n, b.n, ">");
    case Enum(_) => FramedDecimal("Enum(", a.n, b.n, " variants)");
    case Raw(_) =>
      assert "" + Decimal(a.n) + "usize" == s == "" + Decimal(b.n) + "usize";
      FramedDecimal("", a.n, b.n, "usize");
  }

  /** `s` does not contain `c`. */
  predicate Lacks(s: string, c: char) {
    forall k :: 0 <= k < |s| ==> s[k] != c
  }

  /** The first position at or after `i` where `s` holds `c`, or `|s|`. */
  function Find(s: string, c: char, i: nat): nat
    requires i <= |s|
    decreases |s| - i
  {
    if i == |s| then |s| else if s[i] == c then i else Find(s, c, i + 1)
  }

  lemma {:induction false} FindFirst(s: string, c: char, i: nat, j: nat)
    requires i <= j < |s| && s[j] == c
    requires forall m :: i <= m < j ==> s[m] != c
    ensures Find(s, c, i) == j
    decreases j - i
  {
    if i < j {
      FindFirst(s, c, i + 1, j);
    }
  }

  /** In `p + x + sep + y + q`, where `x` lacks `c` and `c` first appears in `sep`
   *  at offset `k`, the first `c` after `p` is at `|p| + |x| + k`. */
  lemma FindSeparator(p: string, x: string, y: string, sep: string, q: string, c: char, k: nat)
    requires k < |sep| && sep[k] == c
    requires forall j :: 0 <= j < k ==> sep[j] != c
    requires Lacks(x, c)
    ensures Find(p + x + sep + y + q, c, |p|) == |p| + |x| + k
  {
    var s := p + x + sep + y + q;
    forall m | |p| <= m < |p| + |x| + k
      ensures s[m] != c
    {
      if m < |p| + |x| {
        assert s[m] == x[m - |p|];
      } else {
        assert s[m] == sep[m - |p| - |x|];
      }
    }
    FindFirst(s, c, |p|, |p| + |x| + k);
  }

  /** A separator whose character `c` first appears at offset `k` splits
   *  `p + x + sep + y + q` in one way only when `x` lacks `c`. */
  lemma SplitAtFirst(p: string, x: string, y: string, x2: string, y2: string,
                     sep: string, q: string, c: char, k: nat)
    requires k < |sep| && sep[k] == c
    requires forall j :: 0 <= j < k ==> sep[j] != c
    requires Lacks(x, c) && Lacks(x2, c)
    requires p + x + sep + y + q == p + x2 + sep + y2 + q
    ensures x == x2 && y == y2
  {
    var s := p + x + sep + y + q;
    FindSeparator(p, x, y, sep, q, c, k);
    FindSeparator(p, x2, y2, sep, q, c, k);
    assert x == s[|p|..|p| + |x|] == x2;
    assert y == s[|p| + |x| + |sep|..|s| - |q|] == y2;
  }

  lemma LacksConcat(a: string, b: string, c: char)
    requires Lacks(a, c) && Lacks(b, c)
    ensures Lacks(a + b, c)
  {
    forall k | 0 <= k < |a + b|
      ensures (a + b)[k] != c
    {
      if k >= |a| {
        assert (a + b)[k] == b[k - |a|];
      }
    }
  }

  /** Digits are neither a letter nor a comma. */
  lemma DecimalLacks(n: nat, c: char)
    requires !IsDigit(c)
    ensures Lacks(Decimal(n), c)
  {
  }

  /** No `Display` text of a target contains the letter `o`. */
  lemma DisplayLacksO(t: ConvTarget)
    ensures Lacks(TargetDisplay(t), 'o')
  {
    var d := Decimal(t.n);
    DecimalLacks(t.n, 'o');
    match t
    case Set(_) => LacksConcat("Bitset (size ", d, 'o'); LacksConcat("Bitset (size " + d, ")", 'o');
    case Index(_) => LacksConcat("Index (max = ", d, 'o'); LacksConcat("Index (max = " + d, ")", 'o');
    case Enum(_) => LacksConcat("Enum (", d, 'o'); LacksConcat("Enum (" + d, " variants)", 'o');
    case Raw(_) => LacksConcat(d, "usize", 'o');
  }

  /** No `Debug` text of a target contains a comma. */
  lemma DebugLacksComma(t: ConvTarget)
    ensures Lacks(TargetDebug(t), ',')
  {
    var d := Decimal(t.n);
    DecimalLacks(t.n, ',');
    match t
    case Set(_) => LacksConcat("Bitset", d, ',');
    case Index(_) => LacksConcat("Index<Bitset", d, ','); LacksConcat("Index<Bitset" + d, ">", ',');
    case Enum(_) => LacksConcat("Enum(", d, ','); LacksConcat("Enum(" + d, " variants)", ',');
    case Raw(_) => LacksConcat(d, "usize", ',');
  }

  /** The message `Display` shows for an error identifies the error: " to " cannot
   *  occur inside a target's text. */
  lemma ErrorDisplayInjective(e: ConvError, f: ConvError)
    requires ErrorDisplay(e) == ErrorDisplay(f)
    ensures e == f
  {
    DisplayLacksO(e.from);
    DisplayLacksO(f.from);
    SplitAtFirst("failed to convert from ", TargetDisplay(e.from), TargetDisplay(e.to),
                 TargetDisplay(f.from), TargetDisplay(f.to), " to ", "", 'o', 2);
    TargetDisplayInjective(e.from, f.from);
    TargetDisplayInjective(e.to, f.to);
  }

  /** The text `Debug` shows for an error identifies the error. */
  lemma ErrorDebugInjective(e: ConvError, f: ConvError)
    requires ErrorDebug(e) == ErrorDebug(f)
    ensures e == f
  {
    DebugLacksComma(e.from);
    DebugLacksComma(f.from);
    SplitAtFirst("ConvError { from: ", TargetDebug(e.from), TargetDebug(e.to),
                 TargetDebug(f.from), TargetDebug(f.to), ", to: ", " }", ',', 0);
    TargetDebugInjective(e.from, f.from);
    TargetDebugInjective(e.to, f.to);
  }

  /** How `Set(8)` and `Enum(8)` are displayed. */
  lemma DisplayEight()
    ensures TargetDisplay(Set(8)) == "Bitset (size 8)"
    ensures TargetDisplay(Enum(8)) == "Enum (8 variants)"
  {
    assert Decimal(8) == "8";
  }

  /** The example of the documentation of `ConvError::new`: the error from an 8-bit
   *  set to an 8-variant enumeration reads
   *  "failed to convert from Bitset (size 8) to Enum (8 variants)". */
  lemma NewDisplayExample()
    ensures ErrorDisplay(New(Set(8), Enum(8)))
         == "failed to convert from " + "Bitset (size 8)" + " to " + "Enum (8 variants)"
  {
    DisplayEight();
  }
}
