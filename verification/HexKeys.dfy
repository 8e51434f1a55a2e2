/** The text form in which the databases keep integers, so that SQL can compare and sort them. */
module HexKeys {
  import opened Common
  import PfsModel

  // ---------------------------------------------------------------- digits

  const HEX_DIGITS: string := "0123456789abcdef"

  predicate IsHexDigit(c: char) {
    '0' <= c <= '9' || 'a' <= c <= 'f' || 'A' <= c <= 'F'
  }

  function DigitValue(c: char): (value: nat)
    requires IsHexDigit(c)
    ensures value < 16
  {
    if c <= '9' then (c - '0') as nat
    else if c <= 'F' then (c - 'A') as nat + 10
    else (c - 'a') as nat + 10
  }

  function HexDigit(n: nat): (c: char)
    requires n < 16
    ensures IsHexDigit(c) && DigitValue(c) == n && !('A' <= c <= 'F')
  {
    HEX_DIGITS[n]
  }

  predicate AllHex(s: string) {
    forall c :: c in s ==> IsHexDigit(c)
  }

  /** Digits in lower case, as formatting writes them. */
  predicate LowerHex(s: string) {
    forall c :: c in s ==> IsHexDigit(c) && !('A' <= c <= 'F')
  }

  /** The digits of a number without leading zeros. */
  function Digits(n: nat): string {
    (if n < 16 then "" else Digits(n / 16)) + [HexDigit(n % 16)]
  }

  function Zeros(n: nat): (s: string)
    ensures |s| == n && LowerHex(s)
  {
    seq(n, _ => '0')
  }

  function Padded(s: string, width: nat): string {
    if |s| < width then Zeros(width - |s|) + s else s
  }

  function Value(s: string): nat
    requires AllHex(s)
  {
    if s == "" then 0
    else
      assert forall c :: c in s[..|s| - 1] ==> c in s;
      16 * Value(s[..|s| - 1]) + DigitValue(s[|s| - 1])
  }

  lemma {:induction false} DigitsHaveValue(n: nat)
    ensures LowerHex(Digits(n)) && Value(Digits(n)) == n && Digits(n) != ""
  {
    if n < 16 {
      assert Digits(n) == [HexDigit(n)];
      assert Digits(n)[..0] == "";
    } else {
      DigitsHaveValue(n / 16);
      assert Digits(n)[..|Digits(n)| - 1] == Digits(n / 16);
    }
  }

  lemma {:induction false} ZerosAddNothing(k: nat, s: string)
    requires AllHex(s)
    ensures AllHex(Zeros(k) + s) && Value(Zeros(k) + s) == Value(s)
  {
    var all := Zeros(k) + s;
    assert AllHex(all);
    if s != "" {
      var front := s[..|s| - 1];
      assert forall c :: c in front ==> c in s;
      ZerosAddNothing(k, front);
      assert all[..|all| - 1] == Zeros(k) + front;
    } else if k > 0 {
      ZerosAddNothing(k - 1, "");
      assert Zeros(k - 1) + "" == Zeros(k - 1);
      assert all[..|all| - 1] == Zeros(k - 1) && all[|all| - 1] == '0';
    } else {
      assert all == "";
    }
  }

  lemma PaddedHasValue(n: nat, width: nat)
    ensures var s := Padded(Digits(n), width); LowerHex(s) && s != "" && Value(s) == n && |s| >= width
  {
    DigitsHaveValue(n);
    if |Digits(n)| < width {
      ZerosAddNothing(width - |Digits(n)|, Digits(n));
    }
  }

  // ---------------------------------------------------------------- encoding and decoding

  const WIDTH: nat := 64

  /** Sign, prefix, and the digits of the magnitude padded to 64. */
  function Hex256(x: int): string {
    var magnitude := if x < 0 then -x else x;
    (if x < 0 then "-" else "+") + "0x" + Padded(Digits(magnitude), WIDTH)
  }

  predicate HasPrefix(s: string) {
    |s| >= 2 && s[0] == '0' && (s[1] == 'x' || s[1] == 'X')
  }

  /** A base-16 integer literal with optional sign and prefix; None where `convert_hex` raises. */
  function ConvertHex(raw: string): Option<int> {
    var signed := raw != "" && (raw[0] == '+' || raw[0] == '-');
    var unsigned := if signed then raw[1..] else raw;
    var digits := if HasPrefix(unsigned) then unsigned[2..] else unsigned;
    if digits == "" || !AllHex(digits) then None
    else if signed && raw[0] == '-' then Some(0 - Value(digits) as int)
    else Some(Value(digits) as int)
  }

  lemma SignedLiteral(sign: char, digits: string)
    requires (sign == '+' || sign == '-') && digits != "" && AllHex(digits)
    ensures ConvertHex([sign] + "0x" + digits) == Some(if sign == '-' then 0 - Value(digits) as int else Value(digits) as int)
  {
    var raw := [sign] + "0x" + digits;
    assert raw[1..] == "0x" + digits;
    assert raw[1..][2..] == digits;
  }

  /** Every integer, of whatever size and sign, reads back as it was written. */
  lemma RoundTrip(x: int)
    ensures ConvertHex(Hex256(x)) == Some(x)
  {
    var magnitude := if x < 0 then -x else x;
    PaddedHasValue(magnitude, WIDTH);
    SignedLiteral(if x < 0 then '-' else '+', Padded(Digits(magnitude), WIDTH));
  }

  // ---------------------------------------------------------------- width

  function Pow16(k: nat): nat {
    if k == 0 then 1 else 16 * Pow16(k - 1)
  }

  lemma {:induction false} Pow16Adds(a: nat, b: nat)
    ensures Pow16(a + b) == Pow16(a) * Pow16(b)
  {
    if a > 0 {
      Pow16Adds(a - 1, b);
      assert Pow16(a + b) == 16 * (Pow16(a - 1) * Pow16(b)) == 16 * Pow16(a - 1) * Pow16(b);
    }
  }

  /** 64 digits are what an unsigned 256-bit number needs. */
  lemma WidthFitsUint256()
    ensures Pow16(WIDTH) == PfsModel.UINT256_MAX + 1
  {
    assert Pow16(4) == 0x1_0000;
    Pow16Adds(4, 4);
    assert Pow16(8) == 0x1_0000_0000;
    Pow16Adds(8, 8);
    Pow16Adds(16, 16);
    Pow16Adds(32, 32);
  }

  lemma {:induction false} DigitsFit(n: nat, k: nat)
    requires k > 0
    ensures |Digits(n)| <= k <==> n < Pow16(k)
    decreases k
  {
    if n >= 16 {
      if k == 1 {
        assert |Digits(n / 16)| > 0;
      } else {
        DigitsFit(n / 16, k - 1);
      }
    } else {
      assert Pow16(k) == 16 * Pow16(k - 1);
      PowPositive(k - 1);
    }
  }

  lemma {:induction false} PowPositive(k: nat)
    ensures Pow16(k) >= 1
  {
    if k > 0 {
      PowPositive(k - 1);
    }
  }

  predicate InRange(x: int) {
    -PfsModel.UINT256_MAX <= x <= PfsModel.UINT256_MAX
  }

  /** The encoding has its fixed length of 67 exactly for magnitudes below 2^256. */
  lemma FixedLength(x: int)
    ensures |Hex256(x)| == 67 <==> InRange(x)
  {
    var magnitude := if x < 0 then -x else x;
    WidthFitsUint256();
    DigitsFit(magnitude, WIDTH);
  }

  // ---------------------------------------------------------------- order

  /** The order in which SQLite compares text: character by character. */
  predicate TextLess(a: string, b: string) {
    if b == "" then false
    else if a == "" then true
    else a[0] < b[0] || (a[0] == b[0] && TextLess(a[1..], b[1..]))
  }

  lemma {:induction false} TextLessByLast(a: string, b: string, x: char, y: char)
    requires |a| == |b|
    ensures TextLess(a + [x], b + [y]) <==> TextLess(a, b) || (a == b && x < y)
  {
    if a != "" {
      TextLessByLast(a[1..], b[1..], x, y);
      assert (a + [x])[1..] == a[1..] + [x] && (b + [y])[1..] == b[1..] + [y];
      assert a == [a[0]] + a[1..] && b == [b[0]] + b[1..];
    } else {
      assert a + [x] == [x] && b + [y] == [y];
    }
  }

  lemma {:induction false} TextLessAfterPrefix(prefix: string, a: string, b: string)
    ensures TextLess(prefix + a, prefix + b) <==> TextLess(a, b)
  {
    if prefix == "" {
      assert prefix + a == a && prefix + b == b;
    } else {
      TextLessAfterPrefix(prefix[1..], a, b);
      assert (prefix + a)[1..] == prefix[1..] + a && (prefix + b)[1..] == prefix[1..] + b;
    }
  }

  /** Lower-case digit strings of one length compare as their values do. */
  lemma {:induction false} TextOrderIsValueOrder(a: string, b: string)
    requires |a| == |b| && LowerHex(a) && LowerHex(b)
    ensures TextLess(a, b) <==> Value(a) < Value(b)
    ensures Value(a) == Value(b) ==> a == b
  {
    if a != "" {
      var front, back := a[..|a| - 1], b[..|b| - 1];
      var x, y := a[|a| - 1], b[|b| - 1];
      assert a == front + [x] && b == back + [y];
      assert forall c :: c in front ==> c in a;
      assert forall c :: c in back ==> c in b;
      TextOrderIsValueOrder(front, back);
      TextLessByLast(front, back, x, y);
      assert x in a && y in b;
      DigitOrder(x, y);
    }
  }

  lemma DigitOrder(x: char, y: char)
    requires LowerHex([x]) && LowerHex([y])
    ensures IsHexDigit(x) && IsHexDigit(y)
    ensures x < y <==> DigitValue(x) < DigitValue(y)
    ensures x == y <==> DigitValue(x) == DigitValue(y)
  {
    assert x in [x] && y in [y];
  }

  /** Which of two encodings comes first: positive before negative, and negative ones by their magnitude. */
  lemma TextOrder(x: int, y: int)
    requires InRange(x) && InRange(y)
    ensures TextLess(Hex256(x), Hex256(y)) <==>
      if x >= 0 && y >= 0 then x < y else if x < 0 && y < 0 then x > y else x >= 0
  {
    var m, n := if x < 0 then -x else x, if y < 0 then -y else y;
    var a, b := Padded(Digits(m), WIDTH), Padded(Digits(n), WIDTH);
    FixedLength(x);
    FixedLength(y);
    PaddedHasValue(m, WIDTH);
    PaddedHasValue(n, WIDTH);
    TextOrderIsValueOrder(a, b);
    SignDecides(if x < 0 then '-' else '+', if y < 0 then '-' else '+', a, b);
  }

  lemma SignDecides(c: char, d: char, a: string, b: string)
    ensures TextLess([c] + "0x" + a, [d] + "0x" + b) <==> c < d || (c == d && TextLess(a, b))
  {
    TextLessAfterPrefix("0x", a, b);
    assert ([c] + "0x" + a)[1..] == "0x" + a && ([d] + "0x" + b)[1..] == "0x" + b;
  }

  /**
   For magnitudes below 2^256, the order of the encodings is the order of the numbers if and only if both are
   non-negative, or they are equal.
   */
  lemma OrderIsNumericOrder(x: int, y: int)
    requires InRange(x) && InRange(y)
    ensures (TextLess(Hex256(x), Hex256(y)) <==> x < y) <==> (x >= 0 && y >= 0) || x == y
  {
    TextOrder(x, y);
  }

  /** -1 sorts behind 0. */
  lemma NegativeSortsLast()
    ensures !TextLess(Hex256(-1), Hex256(0)) && TextLess(Hex256(0), Hex256(-1))
  {
    TextOrder(-1, 0);
    TextOrder(0, -1);
  }

  lemma DigitsTimes16(n: nat)
    requires n > 0
    ensures Digits(16 * n) == Digits(n) + [HexDigit(0)]
  {
    assert (16 * n) / 16 == n && (16 * n) % 16 == 0;
  }

  /** A digit followed by k zeros. */
  function Shifted(d: nat, k: nat): nat {
    if k == 0 then d else 16 * Shifted(d, k - 1)
  }

  lemma ZerosGrow(d: nat, k: nat)
    requires k > 0 && d < 16
    ensures [HexDigit(d)] + Zeros(k - 1) + [HexDigit(0)] == [HexDigit(d)] + Zeros(k)
  {
    assert Zeros(k) == Zeros(k - 1) + [HexDigit(0)];
  }

  lemma OneDigit(d: nat)
    requires d < 16
    ensures Digits(d) == [HexDigit(d)]
  {
    var none: string := "";
    assert d % 16 == d;
    assert Digits(d) == none + [HexDigit(d)];
  }

  lemma NoZeros(c: char)
    ensures [c] + Zeros(0) == [c]
  {
  }

  lemma {:induction false} ShiftedDigits(d: nat, k: nat)
    requires 0 < d < 16
    ensures Shifted(d, k) > 0 && Digits(Shifted(d, k)) == [HexDigit(d)] + Zeros(k)
  {
    if k == 0 {
      OneDigit(d);
      NoZeros(HexDigit(d));
    } else {
      ShiftedDigits(d, k - 1);
      DigitsTimes16(Shifted(d, k - 1));
      ZerosGrow(d, k);
    }
  }

  lemma {:induction false} ShiftedIsPower(k: nat)
    ensures Shifted(1, k) == Pow16(k) && Shifted(2, k) == 2 * Pow16(k)
  {
    if k > 0 {
      ShiftedIsPower(k - 1);
    }
  }

  lemma FirstCharDecides(a: string, b: string)
    requires a != "" && b != "" && a[0] < b[0]
    ensures TextLess(a, b)
  {
  }

  /** One followed by k zeros sorts before two followed by fewer. */
  lemma LongerSortsFirst(k: nat)
    requires k > 0
    ensures |Digits(Pow16(k))| == k + 1 && |Digits(2 * Pow16(k - 1))| == k
    ensures TextLess(Digits(Pow16(k)), Digits(2 * Pow16(k - 1)))
    ensures 2 * Pow16(k - 1) < Pow16(k)
  {
    ShiftedDigits(1, k);
    ShiftedDigits(2, k - 1);
    ShiftedIsPower(k);
    ShiftedIsPower(k - 1);
    PowPositive(k - 1);
    var a, b := Digits(Pow16(k)), Digits(2 * Pow16(k - 1));
    FirstCharDecides(a, b);
  }

  /** Beyond the width the order is lost among positive numbers, too: 16^64 sorts before 2 * 16^63. */
  lemma OrderEndsAtTheWidth()
    ensures var x, y := Pow16(WIDTH), 2 * Pow16(WIDTH - 1);
            0 < y < x && InRange(y) && !InRange(x) && TextLess(Hex256(x), Hex256(y))
  {
    LongerSortsFirst(WIDTH);
    WidthFitsUint256();
    PowPositive(WIDTH - 1);
    SignDecides('+', '+', Digits(Pow16(WIDTH)), Digits(2 * Pow16(WIDTH - 1)));
  }

  // ---------------------------------------------------------------- numbers of any width

  lemma {:induction false} TextLessThanLonger(a: string, prefix: string, rest: string)
    requires |a| == |prefix|
    ensures TextLess(a, prefix + rest) <==> TextLess(a, prefix) || (a == prefix && rest != "")
  {
    if a == "" {
      assert prefix + rest == rest;
    } else {
      assert (prefix + rest)[1..] == prefix[1..] + rest;
      TextLessThanLonger(a[1..], prefix[1..], rest);
      assert a == [a[0]] + a[1..] && prefix == [prefix[0]] + prefix[1..];
    }
  }

  lemma DividedTwice(v: nat, p: nat)
    requires p > 0
    ensures 16 * p > 0 && (v / 16) / p == v / (16 * p)
  {
    var q, r := v / 16, v % 16;
    var s, t := q / p, q % p;
    assert q == p * s + t;
    assert 16 * (p * s + t) == (16 * p) * s + 16 * t;
    DivisionIsUnique(v, 16 * p, s, 16 * t + r);
  }

  /** Cutting off the last k digits divides by 16^k. */
  lemma {:induction false} PrefixValue(s: string, k: nat)
    requires k <= |s| && LowerHex(s)
    ensures Pow16(k) > 0 && LowerHex(s[..|s| - k]) && Value(s[..|s| - k]) == Value(s) / Pow16(k)
    decreases k
  {
    PowPositive(k);
    assert forall c :: c in s[..|s| - k] ==> c in s;
    if k == 0 {
      assert s[..|s|] == s;
    } else {
      var front := s[..|s| - 1];
      assert forall c :: c in front ==> c in s;
      PrefixValue(front, k - 1);
      assert front[..|front| - (k - 1)] == s[..|s| - k];
      assert Value(s) / 16 == Value(front);
      DividedTwice(Value(s), Pow16(k - 1));
    }
  }

  /** The number of digits in the encoding of a number: 64, or more beyond the width. */
  function DigitCount(n: nat): nat {
    |Padded(Digits(n), WIDTH)|
  }

  lemma SmallerIsNotLonger(x: nat, y: nat)
    requires x <= y
    ensures DigitCount(x) <= DigitCount(y)
  {
    DigitsHaveValue(y);
    DigitsFit(x, |Digits(y)|);
    DigitsFit(y, |Digits(y)|);
  }

  /**
   The exact condition for non-negative numbers of any width: x sorts before a larger y if and only if it is at
   most what y begins with in as many digits. Within one width that always holds.
   */
  lemma OrderOfAnyWidth(x: nat, y: nat)
    requires x < y
    ensures DigitCount(x) <= DigitCount(y) && Pow16(DigitCount(y) - DigitCount(x)) > 0
    ensures TextLess(Hex256(x), Hex256(y)) <==> x <= y / Pow16(DigitCount(y) - DigitCount(x))
  {
    var more := DigitCount(y) - DigitCount(x);
    SmallerIsNotLonger(x, y);
    OrderOfPadded(x, y);
    PowPositive(more);
    if more == 0 {
      assert Pow16(more) == 1 && y / Pow16(more) == y;
    }
  }

  lemma OrderOfPadded(x: nat, y: nat)
    requires DigitCount(x) <= DigitCount(y)
    ensures Pow16(DigitCount(y) - DigitCount(x)) > 0
    ensures var beginning := y / Pow16(DigitCount(y) - DigitCount(x));
            TextLess(Hex256(x), Hex256(y)) <==> x < beginning || (x == beginning && DigitCount(x) < DigitCount(y))
  {
    var a, b := Padded(Digits(x), WIDTH), Padded(Digits(y), WIDTH);
    PaddedHasValue(x, WIDTH);
    PaddedHasValue(y, WIDTH);
    SignDecides('+', '+', a, b);
    OrderOfDigits(a, b);
  }

  lemma OrderOfDigits(a: string, b: string)
    requires |a| <= |b| && LowerHex(a) && LowerHex(b)
    ensures Pow16(|b| - |a|) > 0
    ensures var beginning := Value(b) / Pow16(|b| - |a|);
            TextLess(a, b) <==> Value(a) < beginning || (Value(a) == beginning && |a| < |b|)
  {
    var prefix, rest := b[..|a|], b[|a|..];
    PrefixValue(b, |b| - |a|);
    assert b == prefix + rest && b[..|b| - (|b| - |a|)] == prefix;
    TextLessThanLonger(a, prefix, rest);
    TextOrderIsValueOrder(a, prefix);
  }

  /** A column of non-negative numbers is filtered by a bound and sorted in SQL as the numbers themselves. */
  lemma QueriesAgree(column: seq<int>, bound: int)
    requires InRange(bound) && bound >= 0 && forall i :: 0 <= i < |column| ==> InRange(column[i]) && column[i] >= 0
    ensures forall i :: 0 <= i < |column| ==>
      && (TextLess(Hex256(column[i]), Hex256(bound)) <==> column[i] < bound)
      && (TextLess(Hex256(bound), Hex256(column[i])) <==> bound < column[i])
      && (Hex256(column[i]) == Hex256(bound) <==> column[i] == bound)
    ensures (forall i, j :: 0 <= i < j < |column| ==> !TextLess(Hex256(column[j]), Hex256(column[i])))
            <==> (forall i, j :: 0 <= i < j < |column| ==> column[i] <= column[j])
  {
    forall i | 0 <= i < |column|
      ensures TextLess(Hex256(column[i]), Hex256(bound)) <==> column[i] < bound
      ensures TextLess(Hex256(bound), Hex256(column[i])) <==> bound < column[i]
      ensures Hex256(column[i]) == Hex256(bound) <==> column[i] == bound
    {
      TextOrder(column[i], bound);
      TextOrder(bound, column[i]);
      RoundTrip(column[i]);
      RoundTrip(bound);
    }
    forall i, j | 0 <= i < j < |column|
      ensures !TextLess(Hex256(column[j]), Hex256(column[i])) <==> column[i] <= column[j]
    {
      TextOrder(column[j], column[i]);
    }
  }
}
