/** lua_int64.c: powers by squaring in wrapping 64-bit arithmetic, and printing. */
module Int64 {
  import opened Memory

  const TWO63: int := 0x8000_0000_0000_0000
  const TWO64: int := 0x1_0000_0000_0000_0000

  predicate InRange(x: int) {
    -TWO63 <= x < TWO63
  }

  /** What an int64_t holds after arithmetic whose exact result is x. */
  function Wrap(x: int): (w: int)
    ensures InRange(w) && (InRange(x) ==> w == x)
  {
    (x + TWO63) % TWO64 - TWO63
  }

  // ---------- Power ----------

  function Power(a: int, b: nat): int {
    if b == 0 then 1 else a * Power(a, b - 1)
  }

  /** _pow64 */
  function Pow64(a: int, b: nat): int
    requires b >= 1
    decreases b
  {
    if b == 1 then a
    else
      var a2 := Wrap(a * a);
      if b % 2 == 1 then Wrap(Pow64(a2, b / 2) * a) else Pow64(a2, b / 2)
  }

  datatype ArithError = NegativePower(b: int)

  /** int64_pow */
  function Int64Pow(a: int, b: int): Result<int, ArithError> {
    if b > 0 then Ok(Pow64(a, b)) else if b == 0 then Ok(1) else Err(NegativePower(b))
  }

  /** Equal modulo 2^64, with the difference made explicit. */
  ghost predicate Same(x: int, y: int) {
    exists k :: Differ(x, y, k)
  }

  ghost predicate Differ(x: int, y: int, k: int) {
    x == y + k * TWO64
  }

  lemma WrapSame(x: int)
    ensures Same(Wrap(x), x)
  {
    assert Differ(Wrap(x), x, -((x + TWO63) / TWO64));
  }

  lemma SameWraps(x: int, y: int)
    requires Same(x, y)
    ensures Wrap(x) == Wrap(y)
  {
    var k :| Differ(x, y, k);
    ModShift(y + TWO63, k);
  }

  lemma {:induction false} ModShift(y: int, k: int)
    ensures (y + k * TWO64) % TWO64 == y % TWO64
    decreases if k < 0 then -k else k
  {
    if k > 0 {
      ModShift(y, k - 1);
      assert y + k * TWO64 == y + (k - 1) * TWO64 + TWO64;
    } else if k < 0 {
      ModShift(y, k + 1);
      assert y + k * TWO64 == y + (k + 1) * TWO64 - TWO64;
    }
  }

  lemma SameProduct(x: int, y: int, x': int, y': int)
    requires Same(x, x') && Same(y, y')
    ensures Same(x * y, x' * y')
  {
    var k :| Differ(x, x', k);
    var j :| Differ(y, y', j);
    calc {
      x * y;
      (x' + k * TWO64) * (y' + j * TWO64);
      x' * y' + (x' * j + k * y' + k * j * TWO64) * TWO64;
    }
    assert Differ(x * y, x' * y', x' * j + k * y' + k * j * TWO64);
  }

  lemma SameTrans(x: int, y: int, z: int)
    requires Same(x, y) && Same(y, z)
    ensures Same(x, z)
  {
    var k :| Differ(x, y, k);
    var j :| Differ(y, z, j);
    assert Differ(x, z, k + j);
  }

  lemma SameRefl(x: int)
    ensures Same(x, x)
  {
    assert Differ(x, x, 0);
  }

  lemma {:induction false} SamePower(x: int, y: int, b: nat)
    requires Same(x, y)
    ensures Same(Power(x, b), Power(y, b))
  {
    if b == 0 {
      SameRefl(1);
    } else {
      SamePower(x, y, b - 1);
      SameProduct(x, Power(x, b - 1), y, Power(y, b - 1));
    }
  }

  /** a^b by halving b. */
  lemma {:induction false} PowerHalves(a: int, b: nat)
    ensures Power(a, b) == if b % 2 == 1 then Power(a * a, b / 2) * a else Power(a * a, b / 2)
  {
    if b >= 2 {
      PowerHalves(a, b - 2);
      PowerTwoSteps(a, b);
      assert (b - 2) / 2 == b / 2 - 1;
      var p := Power(a * a, b / 2 - 1);
      assert Power(a * a, b / 2) == a * a * p;
      if b % 2 == 1 {
        assert a * a * (p * a) == a * a * p * a;
      }
    }
  }

  lemma PowerTwoSteps(a: int, b: nat)
    requires b >= 2
    ensures Power(a, b) == a * a * Power(a, b - 2)
  {
    assert Power(a, b) == a * (a * Power(a, b - 2));
  }

  /** Squaring with wrap-around at every step gives the wrapped power. */
  lemma {:induction false} PowWraps(a: int, b: nat)
    requires b >= 1 && InRange(a)
    ensures Pow64(a, b) == Wrap(Power(a, b))
    decreases b
  {
    if b == 1 {
      assert Power(a, 1) == a * Power(a, 0);
    } else {
      PowSame(a, b);
      SameWraps(Pow64(a, b), Power(a, b));
      Pow64InRange(a, b);
    }
  }

  lemma {:induction false} Pow64InRange(a: int, b: nat)
    requires b >= 1 && InRange(a)
    ensures InRange(Pow64(a, b))
    decreases b
  {
    if b > 1 { Pow64InRange(Wrap(a * a), b / 2); }
  }

  lemma {:induction false} PowSame(a: int, b: nat)
    requires b >= 1
    ensures Same(Pow64(a, b), Power(a, b))
    decreases b
  {
    PowerHalves(a, b);
    if b == 1 {
      SameRefl(a);
    } else {
      var a2 := Wrap(a * a);
      PowSame(a2, b / 2);
      WrapSame(a * a);
      SamePower(a2, a * a, b / 2);
      SameTrans(Pow64(a2, b / 2), Power(a2, b / 2), Power(a * a, b / 2));
      if b % 2 == 1 {
        SameRefl(a);
        SameProduct(Pow64(a2, b / 2), a, Power(a * a, b / 2), a);
        WrapSame(Pow64(a2, b / 2) * a);
        SameTrans(Pow64(a, b), Pow64(a2, b / 2) * a, Power(a, b));
      }
    }
  }

  /** No square and no product that _pow64 computes leaves the range. */
  ghost predicate Exact(a: int, b: nat)
    requires b >= 1
    decreases b
  {
    b == 1 || (InRange(a * a) && Exact(a * a, b / 2) && (b % 2 == 1 ==> InRange(Power(a * a, b / 2) * a)))
  }

  function Abs(x: int): nat {
    if x < 0 then -x else x
  }

  lemma {:induction false} PowerGrows(a: int, b: nat, c: nat)
    requires b <= c && a != 0
    ensures Abs(Power(a, b)) >= 1
    ensures Abs(Power(a, b)) <= Abs(Power(a, c))
    decreases c
  {
    if b < c {
      PowerGrows(a, b, c - 1);
      TimesGrows(a, Power(a, c - 1));
    } else if c > 0 {
      PowerGrows(a, c - 1, c - 1);
      TimesGrows(a, Power(a, c - 1));
    }
  }

  lemma TimesGrows(a: int, p: int)
    requires a != 0
    ensures Abs(a * p) >= Abs(p)
    ensures Abs(a) >= 2 ==> Abs(a * p) >= 2 * Abs(p)
  {
    assert Abs(a * p) == Abs(a) * Abs(p);
    if Abs(a) >= 2 { assert Abs(a) * Abs(p) >= 2 * Abs(p); }
  }

  lemma {:induction false} PowerNonnegative(x: nat, n: nat)
    ensures Power(x, n) >= 0
    ensures x <= 1 ==> Power(x, n) <= 1
  {
    if n > 0 {
      PowerNonnegative(x, n - 1);
      assert x * Power(x, n - 1) >= 0;
    }
  }

  lemma SquareInRange(a: int, b: nat)
    requires b >= 2 && InRange(Power(a, b))
    ensures InRange(a * a)
  {
    if Abs(a) >= 2 {
      assert Power(a, 1) == a && Power(a, 2) == a * a;
      if b % 2 == 0 {
        PowerHalves(a, b);
        PowerNonnegative(a * a, b / 2);
        PowerGrows(a, 2, b);
      } else {
        TimesGrows(a, a * a);
        assert Power(a, 3) == a * (a * a);
        PowerGrows(a, 3, b);
      }
    }
  }

  lemma HalfInRange(a: int, b: nat)
    requires b >= 2 && InRange(Power(a, b))
    ensures InRange(Power(a * a, b / 2))
  {
    PowerHalves(a, b);
    PowerNonnegative(a * a, b / 2);
    if Abs(a) >= 2 {
      TimesGrows(a, Power(a * a, b / 2));
    } else {
      assert a * a <= 1;
    }
  }

  /** If a^b fits, no intermediate result overflows, -2^63 included. */
  lemma {:induction false} PowExact(a: int, b: nat)
    requires b >= 1 && InRange(Power(a, b))
    ensures Exact(a, b)
    decreases b
  {
    if b > 1 {
      SquareInRange(a, b);
      HalfInRange(a, b);
      PowExact(a * a, b / 2);
      PowerHalves(a, b);
    }
  }

  /** Int64Pow as callers see it. */
  lemma Int64PowMeaning(a: int, b: int)
    requires InRange(a)
    ensures b < 0 ==> Int64Pow(a, b) == Err(NegativePower(b))
    ensures b >= 0 ==> Int64Pow(a, b) == Ok(Wrap(Power(a, b)))
    ensures b >= 0 && InRange(Power(a, b)) ==> Int64Pow(a, b) == Ok(Power(a, b))
  {
    if b > 0 { PowWraps(a, b); }
  }

  // ---------- Printing ----------

  const HEX := "0123456789ABCDEF"

  /** The value of a digit character. */
  function DigitValue(c: char): nat {
    if '0' <= c <= '9' then (c - '0') as nat
    else if 'A' <= c <= 'F' then (c - 'A') as nat + 10
    else 0
  }

  function Value(s: string, base: nat): nat {
    if s == "" then 0 else Value(s[..|s| - 1], base) * base + DigitValue(s[|s| - 1])
  }

  /** What a decimal string with an optional sign reads as. */
  function Parse(s: string): int {
    if s != "" && s[0] == '-' then -(Value(s[1..], 10) as int) else Value(s, 10)
  }

  /** s consists of digits of the base. */
  ghost predicate IsNumeral(s: string, base: nat)
    requires base <= 16
  {
    s != "" && forall i :: 0 <= i < |s| ==> s[i] in "0123456789ABCDEF"[..base]
  }

  lemma HexDigits(d: nat)
    requires d < 16
    ensures DigitValue(HEX[d]) == d && HEX[d] != '-' && (HEX[d] == '0' <==> d == 0)
  {
  }

  lemma NumeralSnoc(s: string, base: nat, d: nat)
    requires base <= 16 && d < base && (s == "" || IsNumeral(s, base))
    ensures IsNumeral(s + [HEX[d]], base)
  {
    var t := s + [HEX[d]];
    assert HEX[d] == "0123456789ABCDEF"[..base][d];
    forall i | 0 <= i < |t| ensures t[i] in "0123456789ABCDEF"[..base] {
      if i < |s| { assert t[i] == s[i]; }
    }
  }

  lemma NumeralPart(s: string, base: nat, n: nat)
    requires base <= 16 && IsNumeral(s, base) && 0 < n <= |s|
    ensures IsNumeral(s[..n], base)
  {
  }

  lemma ValueSnoc(s: string, base: nat, c: char)
    ensures Value(s + [c], base) == Value(s, base) * base + DigitValue(c)
  {
    assert (s + [c])[..|s|] == s;
  }

  // ---------- Base 10 ----------

  /** The number whose leading part is dec and whose remaining digits are given lowest
      first. */
  ghost function Joined(dec: nat, digits: seq<nat>): nat
    decreases |digits|
  {
    if digits == [] then dec else Joined(10 * dec + digits[|digits| - 1], digits[..|digits| - 1])
  }

  function Pow10(k: nat): nat {
    if k == 0 then 1 else 10 * Pow10(k - 1)
  }

  lemma NineteenDigits()
    ensures Pow10(1) == 10 && Pow10(19) > TWO63
  {
    assert Pow10(10) == 1_00000_00000;
  }

  /** Moving one digit from dec to the buffer changes nothing. */
  lemma DigitMoves(dec: nat, digits: seq<nat>)
    ensures Joined(dec / 10, digits + [dec % 10]) == Joined(dec, digits)
  {
    assert (digits + [dec % 10])[..|digits|] == digits;
  }

  ghost predicate DigitsBelow10(digits: seq<nat>) {
    forall i :: 0 <= i < |digits| ==> digits[i] < 10
  }

  /** s is the decimal form of m. */
  ghost predicate IsDecimal(s: string, m: nat) {
    && Value(s, 10) == m && |s| <= 19 && IsNumeral(s, 10)
    && (s[0] == '0' ==> s == "0" && m == 0)
  }

  ghost predicate IsSignedDecimal(s: string, n: int) {
    if n < 0 then s != "" && s[0] == '-' && IsDecimal(s[1..], -n) else IsDecimal(s, n)
  }

  /** tostring(n, 10).  -2^63 is excluded: its negation overflows. */
  method Decimal(n: int) returns (s: string)
    requires -TWO63 < n < TWO63
    ensures Parse(s) == n
    ensures IsSignedDecimal(s, n)
  {
    hide Value;
    var digits := DecimalDigits(if n < 0 then -n else n);
    if n < 0 {
      s := "-" + digits;
      assert s[1..] == digits;
    } else {
      s := digits;
    }
  }

  /** The digits go into the buffer lowest first, at most 19 of them. */
  method DecimalDigits(m: nat) returns (s: string)
    requires m < TWO63
    ensures IsDecimal(s, m)
  {
    hide Joined, Value, Pow10;
    var buffer := new nat[32];
    var dec: nat, i: nat := m, 0;
    NineteenDigits();
    assert buffer[..0] == [];
    JoinedNone(dec);
    while i < 32
      invariant i <= 18 && dec < Pow10(19 - i) && (i > 0 ==> dec > 0)
      invariant DigitsBelow10(buffer[..i]) && Joined(dec, buffer[..i]) == m
      decreases 32 - i
    {
      DigitMoves(dec, buffer[..i]);
      TenTimes(18 - i);
      buffer[i] := dec % 10;
      dec := dec / 10;
      assert buffer[..i + 1] == buffer[..i] + [buffer[i]];
      if dec == 0 {
        break;
      }
      i := i + 1;
    }
    s := EmitDigits(buffer, i, m);
  }

  lemma TenTimes(k: nat)
    ensures Pow10(k + 1) == 10 * Pow10(k) && Pow10(0) == 1
  {
  }

  lemma JoinedNone(dec: nat)
    ensures Joined(dec, []) == dec
  {
  }

  lemma JoinedTop(dec: nat, digits: seq<nat>, d: nat)
    ensures Joined(dec, digits + [d]) == Joined(10 * dec + d, digits)
  {
    assert (digits + [d])[..|digits|] == digits;
  }

  /** The loop that prints the buffer from its top digit down. */
  method EmitDigits(buffer: array<nat>, top: nat, ghost m: nat) returns (s: string)
    requires top < buffer.Length && top <= 18 && DigitsBelow10(buffer[..top + 1])
    requires Joined(0, buffer[..top + 1]) == m && (buffer[top] == 0 ==> top == 0)
    ensures IsDecimal(s, m)
  {
    hide Joined, Value;
    var i: int := top;
    s := "";
    EmptyValue(10);
    while i >= 0
      invariant -1 <= i <= top && |s| == top - i
      invariant Joined(Value(s, 10), buffer[..i + 1]) == m
      invariant s != "" ==> s[0] == HEX[buffer[top]] && IsNumeral(s, 10)
      decreases i
    {
      var d := buffer[i];
      assert d == buffer[..top + 1][i];
      HexDigits(d);
      ValueSnoc(s, 10, HEX[d]);
      NumeralSnoc(s, 10, d);
      assert buffer[..i + 1] == buffer[..i] + [d];
      JoinedTop(Value(s, 10), buffer[..i], d);
      s := s + [HEX[d]];
      i := i - 1;
    }
    assert buffer[..0] == [];
    JoinedNone(Value(s, 10));
    assert buffer[top] == buffer[..top + 1][top];
    HexDigits(buffer[top]);
    ZeroValue();
    if s[0] == '0' { assert s == "0"; }
  }

  lemma EmptyValue(base: nat)
    ensures Value("", base) == 0
  {
  }

  lemma ZeroValue()
    ensures Value("0", 10) == 0
  {
    ValueSnoc("", 10, '0');
    EmptyValue(10);
    assert "" + ['0'] == "0";
  }

  // ---------- Bases 2, 16 and 0 ----------

  /** n >> k */
  function Shr(n: int, k: nat): int {
    if k == 0 then n else Shr(n, k - 1) / 2
  }

  function Pow2(k: nat): nat {
    if k == 0 then 1 else 2 * Pow2(k - 1)
  }

  /** The value of the 64 bits of n read as an unsigned number. */
  function Unsigned(n: int): int
    requires InRange(n)
  {
    if n < 0 then n + TWO64 else n
  }

  lemma UnsignedIsMod(n: int)
    requires InRange(n)
    ensures Unsigned(n) == n % TWO64 && 0 <= Unsigned(n) < TWO64
  {
  }

  lemma {:induction false} ShrShift(n: int, j: nat, k: nat)
    ensures Shr(n, j + k) == Shr(Shr(n, j), k)
    decreases k
  {
    if k > 0 { ShrShift(n, j, k - 1); }
  }

  lemma {:induction false} ShrPlus(n: int, k: nat, m: nat)
    requires k <= m
    ensures Shr(n + Pow2(m), k) == Shr(n, k) + Pow2(m - k)
    decreases k
  {
    if k > 0 { ShrPlus(n, k - 1, m); }
  }

  lemma {:induction false} ShrBelow(n: nat, k: nat)
    requires n < Pow2(k)
    ensures Shr(n, k) == 0
    decreases k
  {
    if k > 0 { ShrHalf(n, k); ShrBelow(n / 2, k - 1); }
  }

  lemma ShrHalf(n: int, k: nat)
    requires k > 0
    ensures Shr(n, k) == Shr(n / 2, k - 1)
  {
    ShrShift(n, 1, k - 1);
    assert Shr(n, 1) == n / 2;
  }

  lemma {:induction false} Pow2Sum(a: nat, b: nat)
    ensures Pow2(a + b) == Pow2(a) * Pow2(b)
    decreases a
  {
    if a > 0 { Pow2Sum(a - 1, b); }
  }

  lemma Pow64Is()
    ensures Pow2(64) == TWO64 && Pow2(3) == 8 && Pow2(4) == 16 && Pow2(8) == 256
  {
    assert Pow2(4) == 16;
    Pow2Sum(4, 4);
    Pow2Sum(8, 8);
    Pow2Sum(16, 16);
    Pow2Sum(32, 32);
  }

  /** The low bits of n >> k do not depend on n's sign. */
  lemma LowBits(n: int, k: nat)
    requires InRange(n) && k <= 64
    ensures Shr(Unsigned(n), k) == Shr(n, k) + if n < 0 then Pow2(64 - k) else 0
    ensures k <= 63 ==> Shr(n, k) % 2 == Shr(Unsigned(n), k) % 2
    ensures k <= 61 ==> Shr(n, k) % 8 == Shr(Unsigned(n), k) % 8
    ensures k <= 60 ==> Shr(n, k) % 16 == Shr(Unsigned(n), k) % 16
    ensures k <= 56 ==> Shr(n, k) % 256 == Shr(Unsigned(n), k) % 256
  {
    hide Shr, Pow2;
    Pow64Is();
    if n < 0 {
      ShrPlus(n, k, 64);
      var p := Pow2(64 - k);
      if k <= 63 { SplitPow2(1, 63 - k); ModPlus2(Shr(n, k), Pow2(63 - k)); }
      if k <= 61 { SplitPow2(3, 61 - k); ModPlus8(Shr(n, k), Pow2(61 - k)); }
      if k <= 60 { SplitPow2(4, 60 - k); ModPlus16(Shr(n, k), Pow2(60 - k)); }
      if k <= 56 { SplitPow2(8, 56 - k); ModPlus256(Shr(n, k), Pow2(56 - k)); }
    }
  }

  lemma ModPlus2(x: int, y: int)
    ensures (x + 2 * y) % 2 == x % 2
  {
  }

  lemma ModPlus8(x: int, y: int)
    ensures (x + 8 * y) % 8 == x % 8
  {
  }

  lemma ModPlus16(x: int, y: int)
    ensures (x + 16 * y) % 16 == x % 16
  {
  }

  lemma ModPlus256(x: int, y: int)
    ensures (x + 256 * y) % 256 == x % 256
  {
  }

  lemma SplitPow2(a: nat, b: nat)
    ensures a == 1 ==> Pow2(a + b) == 2 * Pow2(b)
    ensures a == 3 ==> Pow2(a + b) == 8 * Pow2(b)
    ensures a == 4 ==> Pow2(a + b) == 16 * Pow2(b)
    ensures a == 8 ==> Pow2(a + b) == 256 * Pow2(b)
  {
    Pow2Sum(a, b);
    Pow64Is();
  }

  datatype PrintError = UnsupportedBase(base: int) | NegationOverflows

  /** The loop for bases 2, 8 and 16: from the top, 64 / shift digits of shift bits.  64 is
      no multiple of 3: base 8 leaves the lowest bit out, and its last turn shifts by -2
      and stores a digit that is not printed. */
  method PowerOfTwoDigits(n: int, shift: nat) returns (s: string)
    requires InRange(n) && (shift == 1 || shift == 3 || shift == 4)
    ensures |s| == 64 / shift
    ensures Value(s, Pow2(shift)) == if shift == 3 then Unsigned(n) / 2 else Unsigned(n)
    ensures Pow2(shift) <= 16 && IsNumeral(s, Pow2(shift))
  {
    hide Shr, Value, Unsigned, IsNumeral, Pow2, DigitValue;
    var size := Pow2(shift);
    Pow64Is();
    DigitBits(shift);
    UnsignedIsMod(n);
    ShrBelow(Unsigned(n), 64);
    ShrFour(Unsigned(n));
    ShrStep(Unsigned(n), 0);
    EmptyValue(size);
    var buffer: string := "";
    var i: nat := 0;
    while i < 64
      invariant i == (if shift == 1 then |buffer| else if shift == 3 then 3 * |buffer| else 4 * |buffer|)
      invariant i <= 64 ==> Value(buffer, size) == Shr(Unsigned(n), 64 - i)
      invariant i > 64 ==> shift == 3 && |buffer| == 22 && Value(buffer[..21], size) == Shr(Unsigned(n), 1)
      invariant buffer == "" || IsNumeral(buffer, size)
      decreases 64 - i
    {
      var k := 64 - shift - i;
      if k >= 0 {
        NextDigit(n, shift, k);
        var d := Shr(n, k) % size;
        HexDigits(d);
        ValueSnoc(buffer, size, HEX[d]);
        NumeralSnoc(buffer, size, d);
        buffer := buffer + [HEX[d]];
      } else {
        var d: nat :| d < size;
        assert (buffer + [HEX[d]])[..21] == buffer;
        NumeralSnoc(buffer, size, d);
        buffer := buffer + [HEX[d]];
      }
      i := i + shift;
    }
    s := buffer[..64 / shift];
    NumeralPart(buffer, size, 64 / shift);
    if shift != 3 { assert s == buffer; }
  }

  /** The digit at bit k completes the value of the bits above. */
  lemma NextDigit(n: int, shift: nat, k: nat)
    requires InRange(n) && (shift == 1 || shift == 3 || shift == 4) && k + shift <= 64
    ensures Pow2(shift) == (if shift == 1 then 2 else if shift == 3 then 8 else 16)
    ensures Shr(Unsigned(n), k) == Shr(Unsigned(n), k + shift) * Pow2(shift) + Shr(n, k) % Pow2(shift)
  {
    LowBits(n, k);
    Pow64Is();
    ShrShift(Unsigned(n), k, shift);
    ShrFour(Shr(Unsigned(n), k));
  }

  lemma DigitBits(shift: nat)
    requires shift == 1 || shift == 3 || shift == 4
    ensures Pow2(shift) == if shift == 1 then 2 else if shift == 3 then 8 else 16
  {
    Pow64Is();
  }

  lemma ShrFour(x: int)
    ensures Shr(x, 1) == x / 2 && Shr(x, 3) == x / 8 && Shr(x, 4) == x / 16
  {
    ShrStep(x, 0);
    ShrStep(x, 1);
    ShrStep(x, 2);
    ShrStep(x, 3);
    hide Shr;
    assert x / 2 / 2 == x / 4 && x / 4 / 2 == x / 8 && x / 8 / 2 == x / 16;
  }

  lemma ShrStep(x: int, k: nat)
    ensures Shr(x, k + 1) == Shr(x, k) / 2 && Shr(x, 0) == x
  {
  }

  lemma ShrEight(x: int)
    ensures Shr(x, 8) == x / 256
  {
    ShrShift(x, 4, 4);
    ShrFour(x);
    ShrFour(x / 16);
    assert x / 16 / 16 == x / 256;
  }

  /** The number whose bytes are given lowest first. */
  function LittleEndian(bytes: seq<nat>): nat {
    if bytes == [] then 0 else bytes[0] + 256 * LittleEndian(bytes[1..])
  }

  /** Base 0: the eight bytes themselves. */
  method RawBytes(n: int) returns (bytes: seq<nat>)
    requires InRange(n)
    ensures |bytes| == 8 && LittleEndian(bytes) == Unsigned(n)
    ensures forall i :: 0 <= i < 8 ==> bytes[i] < 256
  {
    bytes := [];
    for i := 0 to 8
      invariant |bytes| == i && forall j :: 0 <= j < i ==> bytes[j] == Shr(n, 8 * j) % 256
    {
      bytes := bytes + [Shr(n, i * 8) % 256];
    }
    BytesFrom(n, bytes, 0);
  }

  lemma {:induction false} BytesFrom(n: int, bytes: seq<nat>, i: nat)
    requires InRange(n) && |bytes| == 8 && i <= 8
    requires forall j :: 0 <= j < 8 ==> bytes[j] == Shr(n, 8 * j) % 256
    ensures LittleEndian(bytes[i..]) == Shr(Unsigned(n), 8 * i)
    decreases 8 - i
  {
    hide Shr;
    if i == 8 {
      Pow64Is();
      ShrBelow(Unsigned(n), 64);
    } else {
      BytesFrom(n, bytes, i + 1);
      LowBits(n, 8 * i);
      ShrShift(Unsigned(n), 8 * i, 8);
      ShrEight(Shr(Unsigned(n), 8 * i));
      assert bytes[i..][1..] == bytes[i + 1..];
    }
  }

  /** The characters' codes. */
  function Codes(s: string): seq<nat> {
    seq(|s|, i requires 0 <= i < |s| => s[i] as nat)
  }

  /** tostring(n, base).  Base 8 prints half the number, so it is right for 0 alone. */
  method ToString(n: int, base: int) returns (r: Result<string, PrintError>)
    requires InRange(n)
    ensures base !in {0, 2, 8, 10, 16} ==> r == Err(UnsupportedBase(base))
    ensures base == 10 ==> if n == -TWO63 then r == Err(NegationOverflows) else r.Ok? && Parse(r.value) == n && IsSignedDecimal(r.value, n)
    ensures base == 0 ==> r.Ok? && |r.value| == 8 && LittleEndian(Codes(r.value)) == Unsigned(n)
    ensures base == 2 ==> r.Ok? && |r.value| == 64 && IsNumeral(r.value, 2) && Value(r.value, 2) == Unsigned(n)
    ensures base == 16 ==> r.Ok? && |r.value| == 16 && IsNumeral(r.value, 16) && Value(r.value, 16) == Unsigned(n)
    ensures base == 8 ==>
      && r.Ok? && |r.value| == 21 && IsNumeral(r.value, 8) && Value(r.value, 8) == Unsigned(n) / 2
      && (Value(r.value, 8) == Unsigned(n) <==> n == 0)
  {
    hide Value, Parse, LittleEndian, IsSignedDecimal, IsNumeral;
    Pow64Is();
    var shift := 1;
    match base {
      case 0 =>
        var bytes := RawBytes(n);
        var s := seq(8, i requires 0 <= i < 8 => bytes[i] as char);
        assert Codes(s) == bytes;
        return Ok(s);
      case 10 =>
        if n == -TWO63 {
          return Err(NegationOverflows);
        }
        var s := Decimal(n);
        return Ok(s);
      case 2 => shift := 1;
      case 8 => shift := 3;
      case 16 => shift := 4;
      case _ => return Err(UnsupportedBase(base));
    }
    var s := PowerOfTwoDigits(n, shift);
    return Ok(s);
  }
}
