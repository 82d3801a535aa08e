/**
 * The parts of the Arduino String class that the expander's message decoder relies on,
 * with their out-of-range behaviour written out: substring swaps reversed bounds and
 * clamps an end past the length, indexOf answers -1 when the character is absent,
 * remove ignores an index past the end, and toInt reads a leading decimal number the
 * way the C library's atol does.
 */
module ArduinoString {

  /** One more than the largest 32-bit unsigned int; String lengths and indices are unsigned int. */
  const UIntLimit: int := 0x1_0000_0000

  /** A String: its length fits the unsigned int that holds it. */
  type Str = s: seq<char> | |s| < UIntLimit

  /** The value a signed int becomes when it is passed where an unsigned int is expected. */
  function AsUnsigned(i: int): (u: nat)
    ensures u < UIntLimit
    ensures 0 <= i < UIntLimit ==> u == i
    ensures -UIntLimit <= i < 0 ==> u == i + UIntLimit
  {
    i % UIntLimit
  }

  /** String::substring(left, right). */
  function Substring(s: Str, left: nat, right: nat): (r: Str)
    ensures left <= right <= |s| ==> r == s[left..right]
    ensures right <= left <= |s| ==> r == s[right..left]
    ensures left <= |s| <= right ==> r == s[left..]
    ensures right <= |s| <= left ==> r == s[right..]
    ensures |s| <= left && |s| <= right ==> r == []
  {
    var lo := if left <= right then left else right;
    var hi := if left <= right then right else left;
    if lo >= |s| then [] else s[lo..if hi > |s| then |s| else hi]
  }

  /** String::substring(from), which reads to the end of the string. */
  function SubstringFrom(s: Str, from: nat): (r: Str)
    ensures from <= |s| ==> r == s[from..]
    ensures |s| <= from ==> r == []
  {
    Substring(s, from, |s|)
  }

  /** True when c occurs at i and nowhere before it. */
  ghost predicate FirstAt(s: seq<char>, c: char, i: int) {
    0 <= i < |s| && s[i] == c && c !in s[..i]
  }

  /** The first position at or after `from` that holds c, or -1. */
  function FindFrom(s: Str, c: char, from: nat): (i: int)
    requires from <= |s|
    ensures i == -1 <==> c !in s[from..]
    ensures i != -1 ==> from <= i < |s| && s[i] == c && c !in s[from..i]
    decreases |s| - from
  {
    if from == |s| then -1
    else if s[from] == c then from
    else
      assert s[from..] == [s[from]] + s[from + 1..];
      var j := FindFrom(s, c, from + 1);
      assert j != -1 ==> s[from..j] == [s[from]] + s[from + 1..j];
      j
  }

  /** A character has one first position. */
  lemma FirstAtUnique(s: seq<char>, c: char)
    ensures forall i, j :: FirstAt(s, c, i) && FirstAt(s, c, j) ==> i == j
  {
  }

  /** String::indexOf for a one-character needle: the first position of c, or -1 when absent. */
  function IndexOf(s: Str, c: char): (i: int)
    ensures i == -1 <==> c !in s
    ensures i != -1 ==> FirstAt(s, c, i)
  {
    assert s[0..] == s;
    FindFrom(s, c, 0)
  }

  /** String::startsWith. */
  function StartsWith(s: Str, prefix: seq<char>): (b: bool)
    ensures b <==> prefix <= s
  {
    |prefix| <= |s| && s[..|prefix|] == prefix
  }

  /** String::remove(index): drop everything from index on; an index past the end changes nothing. */
  function RemoveFrom(s: Str, index: nat): (r: Str)
    ensures r <= s
    ensures |r| == if index < |s| then index else |s|
  {
    if index >= |s| then s else s[..index]
  }

  /** The string without its last character; the empty string stays empty. */
  function DropLast(s: seq<char>): seq<char> {
    if s == [] then [] else s[..|s| - 1]
  }

  /** Removing from length()-1, with the unsigned wrap-around of an empty string's length()-1. */
  lemma RemoveLastChar(s: Str)
    ensures RemoveFrom(s, AsUnsigned(|s| - 1)) == DropLast(s)
  {
  }

  // ---- toInt ------------------------------------------------------------------------

  /** The range of a 32-bit long, to which strtol saturates. */
  const LongMin: int := -0x8000_0000
  const LongMax: int := 0x7FFF_FFFF

  /** isspace in the C locale. */
  predicate IsSpace(c: char) {
    c == ' ' || c == '\t' || c == '\n' || c == '\U{B}' || c == '\U{C}' || c == '\r'
  }

  predicate IsDigit(c: char) {
    '0' <= c <= '9'
  }

  ghost predicate AllDigits(s: seq<char>) {
    forall i :: 0 <= i < |s| ==> IsDigit(s[i])
  }

  function SkipSpaces(s: seq<char>): seq<char> {
    if s != [] && IsSpace(s[0]) then SkipSpaces(s[1..]) else s
  }

  /** The longest prefix of s made of decimal digits. */
  function DigitPrefix(s: seq<char>): (d: seq<char>)
    ensures d <= s
    ensures AllDigits(d)
    ensures |d| < |s| ==> !IsDigit(s[|d|])
  {
    if s != [] && IsDigit(s[0]) then [s[0]] + DigitPrefix(s[1..]) else []
  }

  /** The value of a string of decimal digits, most significant first. */
  function DigitsValue(d: seq<char>): nat
    requires AllDigits(d)
  {
    if d == [] then 0 else 10 * DigitsValue(d[..|d| - 1]) + (d[|d| - 1] - '0') as nat
  }

  function Saturate(n: int): int {
    if n < LongMin then LongMin else if n > LongMax then LongMax else n
  }

  /**
   * String::toInt, that is atol: skip leading white space, read an optional sign and the
   * digits that follow; no digits reads as 0, and a value out of range saturates.
   */
  function ToInt(s: Str): (n: int)
    ensures LongMin <= n <= LongMax
  {
    var t := SkipSpaces(s);
    if t != [] && t[0] == '-' then Saturate(0 - DigitsValue(DigitPrefix(t[1..])))
    else if t != [] && t[0] == '+' then Saturate(DigitsValue(DigitPrefix(t[1..])))
    else Saturate(DigitsValue(DigitPrefix(t)))
  }

  /** The decimal digits of a natural number, with no leading zeros. */
  function NatToDecimal(n: nat): (d: seq<char>)
    ensures d != [] && AllDigits(d)
    ensures |d| <= n + 1
  {
    var last := ['0' + (n % 10) as char];
    if n < 10 then last else NatToDecimal(n / 10) + last
  }

  lemma {:induction false} DigitsValueOfDecimal(n: nat)
    ensures DigitsValue(NatToDecimal(n)) == n
  {
    var d := NatToDecimal(n);
    if n >= 10 {
      DigitsValueOfDecimal(n / 10);
      assert d[..|d| - 1] == NatToDecimal(n / 10);
    }
  }

  lemma {:induction false} DigitPrefixOfDigits(d: seq<char>)
    requires AllDigits(d)
    ensures DigitPrefix(d) == d
  {
    if d != [] {
      DigitPrefixOfDigits(d[1..]);
      assert d == [d[0]] + d[1..];
    }
  }

  /** Reading back the decimal text of a number in range gives the number. */
  lemma DecimalRoundTrip(n: nat)
    requires n <= LongMax
    ensures ToInt(NatToDecimal(n)) == n
  {
    var d := NatToDecimal(n);
    assert IsDigit(d[0]);
    DigitPrefixOfDigits(d);
    DigitsValueOfDecimal(n);
  }

  /** The decimal text of an integer: a minus sign before the digits of a negative one. */
  function IntToDecimal(i: int): (d: seq<char>)
    ensures d != [] && |d| <= (if i < 0 then -i else i) + 2
  {
    if i < 0 then "-" + NatToDecimal(-i) else NatToDecimal(i)
  }

  /** Reading back the decimal text of a long gives the number. */
  lemma IntDecimalRoundTrip(i: int)
    requires LongMin <= i <= LongMax
    ensures ToInt(IntToDecimal(i)) == i
  {
    if i < 0 {
      var d := NatToDecimal(-i);
      assert ("-" + d)[1..] == d;
      DigitPrefixOfDigits(d);
      DigitsValueOfDecimal(-i);
    } else {
      DecimalRoundTrip(i);
    }
  }

  lemma {:induction false} SkipLeadingSpaces(ws: seq<char>, t: seq<char>)
    requires forall i :: 0 <= i < |ws| ==> IsSpace(ws[i])
    ensures SkipSpaces(ws + t) == SkipSpaces(t)
  {
    if ws != [] {
      assert (ws + t)[0] == ws[0] && (ws + t)[1..] == ws[1..] + t;
      SkipLeadingSpaces(ws[1..], t);
    } else {
      assert ws + t == t;
    }
  }

  lemma {:induction false} DigitPrefixStopsAtNonDigit(digits: seq<char>, rest: seq<char>)
    requires AllDigits(digits)
    requires rest == [] || !IsDigit(rest[0])
    ensures DigitPrefix(digits + rest) == digits
  {
    if digits != [] {
      assert (digits + rest)[0] == digits[0] && (digits + rest)[1..] == digits[1..] + rest;
      DigitPrefixStopsAtNonDigit(digits[1..], rest);
      assert digits == [digits[0]] + digits[1..];
    } else {
      assert digits + rest == rest;
    }
  }

  /** Leading white space does not change what toInt reads. */
  lemma ToIntSkipsSpaces(ws: seq<char>, t: seq<char>)
    requires forall i :: 0 <= i < |ws| ==> IsSpace(ws[i])
    requires |ws| + |t| < UIntLimit
    ensures ToInt(ws + t) == ToInt(t)
  {
    SkipLeadingSpaces(ws, t);
  }

  /** toInt of unsigned digits followed by a tail that does not continue them. */
  lemma ToIntOfDigits(digits: seq<char>, rest: seq<char>)
    requires AllDigits(digits)
    requires rest == [] || !IsDigit(rest[0])
    requires digits == [] && rest != [] ==> !IsSpace(rest[0]) && rest[0] != '+' && rest[0] != '-'
    requires |digits| + |rest| < UIntLimit
    ensures ToInt(digits + rest) == Saturate(DigitsValue(digits))
  {
    var t := digits + rest;
    DigitPrefixStopsAtNonDigit(digits, rest);
    assert t == [] || (!IsSpace(t[0]) && t[0] != '+' && t[0] != '-');
    assert SkipSpaces(t) == t;
  }

  /** toInt of text that starts with a sign reads the digits right after the sign. */
  lemma ToIntAfterSign(t: Str, digits: seq<char>)
    requires t != [] && (t[0] == '+' || t[0] == '-')
    requires AllDigits(digits) && DigitPrefix(t[1..]) == digits
    ensures ToInt(t) == Saturate(if t[0] == '-' then 0 - DigitsValue(digits) else DigitsValue(digits))
  {
  }

  /** toInt of a sign character, digits and a tail that does not continue them. */
  lemma ToIntOfSignedDigits(c: char, digits: seq<char>, rest: seq<char>)
    requires c == '+' || c == '-'
    requires AllDigits(digits)
    requires rest == [] || !IsDigit(rest[0])
    requires 1 + |digits| + |rest| < UIntLimit
    ensures ToInt([c] + (digits + rest)) == Saturate(if c == '-' then 0 - DigitsValue(digits) else DigitsValue(digits))
  {
    var t := [c] + (digits + rest);
    assert t[0] == c && t[1..] == digits + rest;
    DigitPrefixStopsAtNonDigit(digits, rest);
    ToIntAfterSign(t, digits);
  }

  /**
   * toInt of any text: leading white space, an optional sign, the digits, and whatever
   * follows the digits, which is ignored. With neither sign nor digits, the text after the
   * white space must not itself start a number.
   */
  lemma ToIntReadsLeadingNumber(ws: seq<char>, sign: seq<char>, digits: seq<char>, rest: seq<char>)
    requires forall i :: 0 <= i < |ws| ==> IsSpace(ws[i])
    requires sign == "" || sign == "+" || sign == "-"
    requires AllDigits(digits)
    requires rest == [] || !IsDigit(rest[0])
    requires sign == [] && digits == [] && rest != [] ==> !IsSpace(rest[0]) && rest[0] != '+' && rest[0] != '-'
    requires |ws| + |sign| + |digits| + |rest| < UIntLimit
    ensures ToInt(ws + (sign + (digits + rest))) == Saturate(if sign == "-" then 0 - DigitsValue(digits) else DigitsValue(digits))
  {
    var t := sign + (digits + rest);
    ToIntSkipsSpaces(ws, t);
    if sign == [] {
      assert t == digits + rest;
      ToIntOfDigits(digits, rest);
    } else {
      assert sign == [sign[0]];
      ToIntOfSignedDigits(sign[0], digits, rest);
    }
  }

  /** Text with no digit where the number should start reads as 0. */
  lemma NoDigitsReadsZero(s: Str)
    requires s == [] || (!IsSpace(s[0]) && !IsDigit(s[0]) && s[0] != '-' && s[0] != '+')
    ensures ToInt(s) == 0
  {
  }
}
