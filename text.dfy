/**
 * The Python string operations the rules core relies on, over `string`
 * (a sequence of Unicode scalar values, as a Python `str` is).
 */
module Text {
  import opened Wrappers

  // ---------------------------------------------------------------- chars

  /**
   * An ASCII decimal digit. Python's `\d`, `isdigit()` and `int()` also accept
   * the other Unicode decimal digits; this model reads only these ten as digits.
   */
  predicate IsDigit(c: char) { '0' <= c <= '9' }

  predicate AllDigits(s: string) { forall i :: 0 <= i < |s| ==> IsDigit(s[i]) }

  /** The characters for which Python's `str.isspace()` holds (also `\s` in a `str` pattern). */
  predicate IsSpace(c: char) {
    c == ' ' || ('\t' <= c <= '\r') || ('\U{1c}' <= c <= '\U{1f}') || c == '\U{85}' || c == '\U{a0}'
    || c == '\U{1680}' || ('\U{2000}' <= c <= '\U{200a}') || c == '\U{2028}' || c == '\U{2029}'
    || c == '\U{202f}' || c == '\U{205f}' || c == '\U{3000}'
  }

  function LowerChar(c: char): (r: char)
    ensures IsDigit(c) <==> IsDigit(r)
    ensures IsSpace(c) <==> IsSpace(r)
    ensures r == 'd' <==> c == 'd' || c == 'D'
  {
    if 'A' <= c <= 'Z' then (c as int + 32) as char else c
  }

  /** `str.lower()` on the ASCII letters. */
  function Lower(s: string): (r: string)
    ensures |r| == |s|
    ensures forall i :: 0 <= i < |s| ==> r[i] == LowerChar(s[i])
  {
    seq(|s|, i requires 0 <= i < |s| => LowerChar(s[i]))
  }

  function LStrip(s: string): (r: string)
    ensures |r| <= |s| && r == s[|s| - |r|..]
    ensures |r| > 0 ==> !IsSpace(r[0])
    ensures forall i :: 0 <= i < |s| - |r| ==> IsSpace(s[i])
  {
    if |s| > 0 && IsSpace(s[0]) then LStrip(s[1..]) else s
  }

  function RStrip(s: string): (r: string)
    ensures |r| <= |s| && r == s[..|r|]
    ensures |r| > 0 ==> !IsSpace(r[|r| - 1])
    ensures forall i :: |r| <= i < |s| ==> IsSpace(s[i])
  {
    if |s| > 0 && IsSpace(s[|s| - 1]) then RStrip(s[..|s| - 1]) else s
  }

  /** `str.strip()`: drops leading and trailing whitespace. */
  function Strip(s: string): string {
    RStrip(LStrip(s))
  }

  lemma {:induction false} StripKeeps(s: string)
    requires |s| > 0 ==> !IsSpace(s[0]) && !IsSpace(s[|s| - 1])
    ensures Strip(s) == s
  {
    assert LStrip(s) == s;
    assert RStrip(s) == s;
  }

  lemma DigitNotSpace(c: char)
    requires IsDigit(c)
    ensures !IsSpace(c)
  {
  }

  // ---------------------------------------------------------------- numbers

  function DigitChar(d: nat): (c: char)
    requires d < 10
    ensures IsDigit(c) && (c as int) - ('0' as int) == d
  {
    ((('0' as int) + d) as char)
  }

  /** The value of a decimal digit string (`int()` of it). */
  function DigitsValue(s: string): nat
    requires AllDigits(s)
  {
    if s == [] then 0
    else DigitsValue(s[..|s| - 1]) * 10 + ((s[|s| - 1] as int) - ('0' as int))
  }

  /** Decimal spelling of a natural number, as `str()` writes it. */
  function NatToDigits(n: nat): (s: string)
    ensures |s| > 0 && AllDigits(s)
  {
    if n < 10 then [DigitChar(n)] else NatToDigits(n / 10) + [DigitChar(n % 10)]
  }

  lemma {:induction false} DigitsRoundTrip(n: nat)
    ensures DigitsValue(NatToDigits(n)) == n
  {
    var s := NatToDigits(n);
    if n >= 10 {
      DigitsRoundTrip(n / 10);
      assert s[..|s| - 1] == NatToDigits(n / 10);
    }
  }

  /** `str(i)` for an `int`. */
  function IntToString(i: int): (s: string)
    ensures |s| > 0
  {
    if i < 0 then "-" + NatToDigits(-i) else NatToDigits(i)
  }

  /** Python's `f"{i:+d}"`: the sign is always written. */
  function SignedString(i: int): (s: string)
    ensures |s| > 1 && (s[0] == '+' <==> i >= 0) && (s[0] == '-' <==> i < 0)
    ensures s[1..] == NatToDigits(if i < 0 then -i else i)
  {
    if i < 0 then "-" + NatToDigits(-i) else "+" + NatToDigits(i)
  }

  /**
   * The digits `int()` accepts after the sign: at least one digit, with
   * single underscores allowed between digits.
   */
  predicate IsNumeral(s: string) {
    && |s| > 0 && IsDigit(s[0]) && IsDigit(s[|s| - 1])
    && (forall i :: 0 <= i < |s| ==> IsDigit(s[i]) || s[i] == '_')
    && (forall i :: 0 <= i < |s| - 1 ==> !DoubleUnderscoreAt(s, i))
  }

  predicate DoubleUnderscoreAt(s: string, i: nat)
    requires i + 1 < |s|
  {
    s[i] == '_' && s[i + 1] == '_'
  }

  /** The digits of a numeral with its underscores removed. */
  function DropUnderscores(s: string): (r: string)
    requires forall i :: 0 <= i < |s| ==> IsDigit(s[i]) || s[i] == '_'
    ensures AllDigits(r) && |r| <= |s|
    ensures AllDigits(s) ==> r == s
  {
    if s == [] then []
    else
      var rest := DropUnderscores(s[1..]);
      if s[0] == '_' then rest else [s[0]] + rest
  }

  /**
   * Python's `int(s)` on text: surrounding whitespace, an optional sign and
   * a numeral; anything else raises ValueError (`None` here).
   */
  function PyInt(s: string): (r: Option<int>) {
    ParseSigned(Strip(s))
  }

  /** An optional sign, then a numeral. */
  function ParseSigned(t: string): (r: Option<int>) {
    var negative := |t| > 0 && t[0] == '-';
    var body := if |t| > 0 && (t[0] == '+' || t[0] == '-') then t[1..] else t;
    if IsNumeral(body) then
      var value := DigitsValue(DropUnderscores(body));
      Some(if negative then -(value as int) else value)
    else None
  }

  /** `int("1_0") == 10`: a single underscore between digits is accepted. */
  lemma PyIntAcceptsUnderscore()
    ensures PyInt("1_0") == Some(10)
  {
    UnderscoreNumeral();
    PyIntOfNumeral("1_0");
  }

  lemma UnderscoreNumeral()
    ensures IsNumeral("1_0") && DigitsValue(DropUnderscores("1_0")) == 10
  {
    var s := "1_0";
    assert DropUnderscores(s) == "10" by {
      assert s[1..] == "_0" && s[1..][1..] == "0" && "0"[1..] == [];
    }
    assert DigitsValue("10") == 10 by { assert "10"[..1] == "1"; }
  }

  /** A doubled or a trailing underscore is refused. */
  lemma PyIntRefusesLooseUnderscore()
    ensures PyInt("1__0") == None && PyInt("1_") == None
  {
    NotNumeral("1__0", 1);
    NotNumeral("1_", 1);
  }

  /** `int()` of a bare numeral is the value of its digits. */
  lemma PyIntOfNumeral(s: string)
    requires IsNumeral(s)
    ensures PyInt(s) == Some(DigitsValue(DropUnderscores(s)) as int)
  {
    DigitNotSpace(s[0]);
    DigitNotSpace(s[|s| - 1]);
    StripKeeps(s);
    assert s[0] != '+' && s[0] != '-';
  }

  /**
   * Text that starts with a digit and has an underscore followed by anything
   * but a digit is no numeral, so `int()` refuses it.
   */
  lemma NotNumeral(s: string, i: nat)
    requires |s| > 0 && IsDigit(s[0]) && !IsSpace(s[|s| - 1])
    requires i < |s| && s[i] == '_' && (i + 1 == |s| || !IsDigit(s[i + 1]))
    ensures PyInt(s) == None
  {
    DigitNotSpace(s[0]);
    StripKeeps(s);
    if i + 1 < |s| && s[i + 1] == '_' {
      assert DoubleUnderscoreAt(s, i);
    }
  }

  lemma PyIntOfDigits(s: string)
    requires |s| > 0 && AllDigits(s)
    ensures PyInt(s) == Some(DigitsValue(s) as int)
  {
    assert IsDigit(s[0]) && IsDigit(s[|s| - 1]);
    PyIntOfNumeral(s);
  }

  /** `int(str(i)) == i`. */
  lemma PyIntRoundTrip(i: int)
    ensures PyInt(IntToString(i)) == Some(i)
  {
    var digits := NatToDigits(if i < 0 then -i else i);
    DigitsRoundTrip(if i < 0 then -i else i);
    if i >= 0 {
      PyIntOfDigits(digits);
    } else {
      var s := "-" + digits;
      assert IsDigit(digits[0]) && IsDigit(digits[|digits| - 1]);
      assert s[|s| - 1] == digits[|digits| - 1];
      DigitNotSpace(digits[|digits| - 1]);
      StripKeeps(s);
      NegativeNumeral(s, digits);
    }
  }

  lemma NegativeNumeral(t: string, digits: string)
    requires |digits| > 0 && AllDigits(digits) && t == "-" + digits
    ensures ParseSigned(t) == Some(-(DigitsValue(digits) as int))
  {
    assert t[1..] == digits;
    DigitsAreNumeral(digits);
    ParseNegative(t);
  }

  lemma ParseNegative(t: string)
    requires |t| > 0 && t[0] == '-' && IsNumeral(t[1..])
    ensures ParseSigned(t) == Some(-(DigitsValue(DropUnderscores(t[1..])) as int))
  {
  }

  lemma DigitsAreNumeral(digits: string)
    requires |digits| > 0 && AllDigits(digits)
    ensures IsNumeral(digits) && DropUnderscores(digits) == digits
  {
    assert IsDigit(digits[0]) && IsDigit(digits[|digits| - 1]);
  }

  // ---------------------------------------------------------------- searching

  predicate StartsWith(s: string, p: string) { |p| <= |s| && s[..|p|] == p }

  predicate EndsWith(s: string, p: string) { |p| <= |s| && s[|s| - |p|..] == p }

  lemma ConcatEnds(a: string, b: string)
    ensures StartsWith(a + b, a) && EndsWith(a + b, b)
  {
    assert (a + b)[..|a|] == a;
    assert (a + b)[|a + b| - |b|..] == b;
  }

  lemma EndsWithExtend(a: string, b: string, p: string)
    requires EndsWith(b, p)
    ensures EndsWith(a + b, p)
  {
    assert (a + b)[|a + b| - |p|..] == b[|b| - |p|..];
  }

  lemma StartsWithInside(a: string, b: string, c: string, p: string)
    requires StartsWith(b, p)
    ensures StartsWith(a + b + c, a + p)
  {
    assert (a + b + c)[..|a| + |p|] == (a + b)[..|a| + |b|][..|a| + |p|];
  }

  /** Python's `p in s`. */
  predicate Contains(s: string, p: string) {
    StartsWith(s, p) || (|s| > 0 && Contains(s[1..], p))
  }

  lemma ContainsAt(s: string, p: string, i: nat)
    requires i + |p| <= |s| && s[i..i + |p|] == p
    ensures Contains(s, p)
  {
    if i > 0 {
      ContainsAt(s[1..], p, i - 1);
    }
  }

  /** Python's `s.count(p)` for a non-empty `p`: non-overlapping, left to right. */
  function Count(s: string, p: string): (n: nat)
    requires |p| > 0
    ensures n > 0 ==> Contains(s, p)
    ensures n * |p| <= |s|
  {
    if |s| < |p| then 0
    else if StartsWith(s, p) then 1 + Count(s[|p|..], p)
    else Count(s[1..], p)
  }

  /** Python's `s.rfind(c)`: the last index of `c`, or -1. */
  function RFind(s: string, c: char): (r: int)
    ensures -1 <= r < |s|
    ensures r >= 0 ==> s[r] == c
    ensures forall k :: r < k < |s| ==> s[k] != c
  {
    if |s| == 0 then -1
    else if s[|s| - 1] == c then |s| - 1
    else RFind(s[..|s| - 1], c)
  }

  /** The first index of `c` in `s`, or `|s|` when there is none. */
  function IndexOf(s: string, c: char): (r: nat)
    ensures r <= |s|
    ensures r < |s| ==> s[r] == c
    ensures forall k :: 0 <= k < r ==> s[k] != c
  {
    if |s| == 0 || s[0] == c then 0 else 1 + IndexOf(s[1..], c)
  }

  /** Python's `s.split(sep)` for a one-character separator. */
  function Split(s: string, sep: char): (parts: seq<string>)
    ensures |parts| > 0
    ensures forall i :: 0 <= i < |parts| ==> sep !in parts[i]
    decreases |s|
  {
    var k := IndexOf(s, sep);
    if k == |s| then [s] else [s[..k]] + Split(s[k + 1..], sep)
  }

  /** Text with exactly one separator splits into the parts before and after it. */
  lemma SplitOnce(s: string, sep: char)
    requires IndexOf(s, sep) < |s|
    requires var k := IndexOf(s, sep); IndexOf(s[k + 1..], sep) == |s| - k - 1
    ensures var k := IndexOf(s, sep); Split(s, sep) == [s[..k], s[k + 1..]]
  {
    var k := IndexOf(s, sep);
    assert Split(s[k + 1..], sep) == [s[k + 1..]];
  }

  /** Python's `sep.join(parts)`. */
  function Join(sep: string, parts: seq<string>): string {
    if |parts| == 0 then ""
    else if |parts| == 1 then parts[0]
    else parts[0] + sep + Join(sep, parts[1..])
  }

  /** `sep.join(parts)` begins with the first part and ends with the last. */
  lemma {:induction false} JoinEnds(sep: string, parts: seq<string>)
    requires |parts| > 0
    ensures StartsWith(Join(sep, parts), parts[0])
    ensures EndsWith(Join(sep, parts), parts[|parts| - 1])
    decreases |parts|
  {
    if |parts| == 1 {
      ConcatEnds(parts[0], "");
      assert parts[0] + "" == parts[0];
    } else {
      JoinEnds(sep, parts[1..]);
      var rest := Join(sep, parts[1..]);
      ConcatEnds(parts[0], sep + rest);
      assert Join(sep, parts) == parts[0] + (sep + rest);
      EndsWithExtend(parts[0] + sep, rest, parts[|parts| - 1]);
      assert Join(sep, parts) == (parts[0] + sep) + rest;
    }
  }

  /** A Python slice bound `a` normalised against a length, as `s[a:]` and `s[:a]` do. */
  function SliceBound(len: nat, a: int): (r: nat)
    ensures r <= len
  {
    if a < 0 then (if len + a < 0 then 0 else len + a)
    else if a > len then len
    else a
  }

  /** Python's `s[:b]`, with a negative `b` counting from the end. */
  function SliceTo<T>(s: seq<T>, b: int): (r: seq<T>)
    ensures |r| <= |s| && r == s[..|r|]
  {
    s[..SliceBound(|s|, b)]
  }

  /** Python's `s[a:]`, with a negative `a` counting from the end. */
  function SliceFrom<T>(s: seq<T>, a: int): (r: seq<T>)
    ensures |r| <= |s| && r == s[|s| - |r|..]
  {
    s[SliceBound(|s|, a)..]
  }
}
