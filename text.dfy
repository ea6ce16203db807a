/**
 * The few string operations the program relies on: `str.lower()`, `str.strip()`,
 * `str.isdigit()`, `int()` of a string, the `in` substring test, `\d` and
 * `re.sub("[^0-9]", ".", s)`. Whitespace and digits follow Python 3.12's Unicode 15.0
 * tables; case folding is modelled on ASCII.
 */
module Text {
  import opened Wrappers

  function LowerChar(c: char): char {
    if 'A' <= c <= 'Z' then (c as int + 32) as char else c
  }

  /** `s.lower()` */
  function Lower(s: string): (r: string)
    ensures |r| == |s|
    ensures forall i :: 0 <= i < |s| ==> r[i] == LowerChar(s[i])
  {
    if s == [] then [] else [LowerChar(s[0])] + Lower(s[1..])
  }

  /** Lower-casing twice is lower-casing once. */
  lemma LowerIdempotent(s: string)
    ensures Lower(Lower(s)) == Lower(s)
  {
  }

  /** The ASCII class `[0-9]`. */
  predicate IsDigit(c: char) {
    '0' <= c <= '9'
  }

  /** Inclusive code-point ranges, in increasing order. */
  datatype Ranges = NoRanges | Range(lo: int, hi: int, rest: Ranges)

  predicate InRanges(n: int, rs: Ranges) {
    rs.Range? && (rs.lo <= n <= rs.hi || InRanges(n, rs.rest))
  }

  /** The first code point of the range that holds `n`. */
  function RangeStart(n: int, rs: Ranges): (lo: int)
    requires InRanges(n, rs)
    ensures lo <= n
  {
    if rs.lo <= n <= rs.hi then rs.lo else RangeStart(n, rs.rest)
  }

  /**
   * The characters of Unicode category Nd, as in Python 3.12 (Unicode 15.0): what `\d`
   * matches in a `str` pattern and the digits `int()` reads. Each range is a whole number of
   * runs of ten consecutive code points, each run going from its script's zero to its nine.
   * The table is cut into lists of at most sixteen ranges.
   */
  const Decimals0: Ranges :=
    Range(0x30, 0x39, Range(0x660, 0x669, Range(0x6F0, 0x6F9, Range(0x7C0, 0x7C9, Range(0x966, 0x96F,
    Range(0x9E6, 0x9EF, Range(0xA66, 0xA6F, Range(0xAE6, 0xAEF, Range(0xB66, 0xB6F, Range(0xBE6, 0xBEF,
    Range(0xC66, 0xC6F, Range(0xCE6, 0xCEF, Range(0xD66, 0xD6F, Range(0xDE6, 0xDEF, Range(0xE50, 0xE59,
    Range(0xED0, 0xED9, NoRanges))))))))))))))))
  const Decimals1: Ranges :=
    Range(0xF20, 0xF29, Range(0x1040, 0x1049, Range(0x1090, 0x1099, Range(0x17E0, 0x17E9,
    Range(0x1810, 0x1819, Range(0x1946, 0x194F, Range(0x19D0, 0x19D9, Range(0x1A80, 0x1A89,
    Range(0x1A90, 0x1A99, Range(0x1B50, 0x1B59, Range(0x1BB0, 0x1BB9, Range(0x1C40, 0x1C49,
    Range(0x1C50, 0x1C59, Range(0xA620, 0xA629, Range(0xA8D0, 0xA8D9, Range(0xA900, 0xA909, NoRanges))))))))))))))))
  const Decimals2: Ranges :=
    Range(0xA9D0, 0xA9D9, Range(0xA9F0, 0xA9F9, Range(0xAA50, 0xAA59, Range(0xABF0, 0xABF9,
    Range(0xFF10, 0xFF19, Range(0x104A0, 0x104A9, Range(0x10D30, 0x10D39, Range(0x11066, 0x1106F,
    Range(0x110F0, 0x110F9, Range(0x11136, 0x1113F, Range(0x111D0, 0x111D9, Range(0x112F0, 0x112F9,
    Range(0x11450, 0x11459, Range(0x114D0, 0x114D9, Range(0x11650, 0x11659, Range(0x116C0, 0x116C9, NoRanges))))))))))))))))
  const Decimals3: Ranges :=
    Range(0x11730, 0x11739, Range(0x118E0, 0x118E9, Range(0x11950, 0x11959, Range(0x11C50, 0x11C59,
    Range(0x11D50, 0x11D59, Range(0x11DA0, 0x11DA9, Range(0x11F50, 0x11F59, Range(0x16A60, 0x16A69,
    Range(0x16AC0, 0x16AC9, Range(0x16B50, 0x16B59, Range(0x1D7CE, 0x1D7FF, Range(0x1E140, 0x1E149,
    Range(0x1E2F0, 0x1E2F9, Range(0x1E4F0, 0x1E4F9, Range(0x1E950, 0x1E959, Range(0x1FBF0, 0x1FBF9, NoRanges))))))))))))))))

  /** The characters for which `str.isdigit()` holds: the decimal digits and the other digits (superscripts, circled digits, ...). */
  const Digits0: Ranges :=
    Range(0x30, 0x39, Range(0xB2, 0xB3, Range(0xB9, 0xB9, Range(0x660, 0x669, Range(0x6F0, 0x6F9,
    Range(0x7C0, 0x7C9, Range(0x966, 0x96F, Range(0x9E6, 0x9EF, Range(0xA66, 0xA6F, Range(0xAE6, 0xAEF,
    Range(0xB66, 0xB6F, Range(0xBE6, 0xBEF, Range(0xC66, 0xC6F, Range(0xCE6, 0xCEF, Range(0xD66, 0xD6F,
    Range(0xDE6, 0xDEF, NoRanges))))))))))))))))
  const Digits1: Ranges :=
    Range(0xE50, 0xE59, Range(0xED0, 0xED9, Range(0xF20, 0xF29, Range(0x1040, 0x1049, Range(0x1090, 0x1099,
    Range(0x1369, 0x1371, Range(0x17E0, 0x17E9, Range(0x1810, 0x1819, Range(0x1946, 0x194F,
    Range(0x19D0, 0x19DA, Range(0x1A80, 0x1A89, Range(0x1A90, 0x1A99, Range(0x1B50, 0x1B59,
    Range(0x1BB0, 0x1BB9, Range(0x1C40, 0x1C49, Range(0x1C50, 0x1C59, NoRanges))))))))))))))))
  const Digits2: Ranges :=
    Range(0x2070, 0x2070, Range(0x2074, 0x2079, Range(0x2080, 0x2089, Range(0x2460, 0x2468,
    Range(0x2474, 0x247C, Range(0x2488, 0x2490, Range(0x24EA, 0x24EA, Range(0x24F5, 0x24FD,
    Range(0x24FF, 0x24FF, Range(0x2776, 0x277E, Range(0x2780, 0x2788, Range(0x278A, 0x2792,
    Range(0xA620, 0xA629, Range(0xA8D0, 0xA8D9, Range(0xA900, 0xA909, Range(0xA9D0, 0xA9D9, NoRanges))))))))))))))))
  const Digits3: Ranges :=
    Range(0xA9F0, 0xA9F9, Range(0xAA50, 0xAA59, Range(0xABF0, 0xABF9, Range(0xFF10, 0xFF19,
    Range(0x104A0, 0x104A9, Range(0x10A40, 0x10A43, Range(0x10D30, 0x10D39, Range(0x10E60, 0x10E68,
    Range(0x11052, 0x1105A, Range(0x11066, 0x1106F, Range(0x110F0, 0x110F9, Range(0x11136, 0x1113F,
    Range(0x111D0, 0x111D9, Range(0x112F0, 0x112F9, Range(0x11450, 0x11459, Range(0x114D0, 0x114D9, NoRanges))))))))))))))))
  const Digits4: Ranges :=
    Range(0x11650, 0x11659, Range(0x116C0, 0x116C9, Range(0x11730, 0x11739, Range(0x118E0, 0x118E9,
    Range(0x11950, 0x11959, Range(0x11C50, 0x11C59, Range(0x11D50, 0x11D59, Range(0x11DA0, 0x11DA9,
    Range(0x11F50, 0x11F59, Range(0x16A60, 0x16A69, Range(0x16AC0, 0x16AC9, Range(0x16B50, 0x16B59,
    Range(0x1D7CE, 0x1D7FF, Range(0x1E140, 0x1E149, Range(0x1E2F0, 0x1E2F9, Range(0x1E4F0, 0x1E4F9, NoRanges))))))))))))))))
  const Digits5: Ranges :=
    Range(0x1E950, 0x1E959, Range(0x1F100, 0x1F10A, Range(0x1FBF0, 0x1FBF9, NoRanges)))

  /** `\d`, and `c.isdecimal()` */
  predicate IsDecimal(c: char) {
    var n := c as int;
    InRanges(n, Decimals0) || InRanges(n, Decimals1) || InRanges(n, Decimals2) || InRanges(n, Decimals3)
  }

  /** The value of a decimal digit: its distance from the zero of its run. */
  function DecimalDigit(c: char): (d: nat)
    requires IsDecimal(c)
    ensures d < 10
  {
    var n := c as int;
    var start :=
      if InRanges(n, Decimals0) then RangeStart(n, Decimals0)
      else if InRanges(n, Decimals1) then RangeStart(n, Decimals1)
      else if InRanges(n, Decimals2) then RangeStart(n, Decimals2)
      else RangeStart(n, Decimals3);
    (n - start) % 10
  }

  /** `c.isdigit()` */
  predicate IsUnicodeDigit(c: char) {
    var n := c as int;
    || InRanges(n, Digits0) || InRanges(n, Digits1) || InRanges(n, Digits2)
    || InRanges(n, Digits3) || InRanges(n, Digits4) || InRanges(n, Digits5)
  }

  /** An ASCII digit is a decimal digit with its usual value, and a digit for `isdigit()`. */
  lemma AsciiDigitIsDecimal(c: char)
    requires IsDigit(c)
    ensures IsDecimal(c) && DecimalDigit(c) == c as int - '0' as int && IsUnicodeDigit(c)
  {
  }

  /** No range of `rs` holds a blank, a sign or an underscore. */
  predicate ClearOfMarks(rs: Ranges) {
    rs.Range? ==>
      && 0x2D < rs.lo && !(rs.lo <= 0x5F <= rs.hi) && !(rs.lo <= 0x85 <= rs.hi) && !(rs.lo <= 0xA0 <= rs.hi)
      && !(rs.lo <= 0x1680 <= rs.hi) && !(rs.lo <= 0x200A && 0x2000 <= rs.hi) && !(rs.lo <= 0x2029 && 0x2028 <= rs.hi)
      && !(rs.lo <= 0x202F <= rs.hi) && !(rs.lo <= 0x205F <= rs.hi) && !(rs.lo <= 0x3000 <= rs.hi)
      && ClearOfMarks(rs.rest)
  }

  lemma {:induction false} ClearOfMarksHolds(c: char, rs: Ranges)
    requires ClearOfMarks(rs) && InRanges(c as int, rs)
    ensures !IsSpace(c) && c != '+' && c != '-' && c != '_'
  {
    if !(rs.lo <= c as int <= rs.hi) {
      ClearOfMarksHolds(c, rs.rest);
    }
  }

  /** A decimal digit is neither whitespace nor a sign nor an underscore. */
  lemma DecimalIsNoMark(c: char)
    requires IsDecimal(c)
    ensures !IsSpace(c) && c != '+' && c != '-' && c != '_'
  {
    var n := c as int;
    if InRanges(n, Decimals0) {
      assert ClearOfMarks(Decimals0);
      ClearOfMarksHolds(c, Decimals0);
    } else if InRanges(n, Decimals1) {
      assert ClearOfMarks(Decimals1);
      ClearOfMarksHolds(c, Decimals1);
    } else if InRanges(n, Decimals2) {
      assert ClearOfMarks(Decimals2);
      ClearOfMarksHolds(c, Decimals2);
    } else {
      assert ClearOfMarks(Decimals3);
      ClearOfMarksHolds(c, Decimals3);
    }
  }

  /** `any(char.isdigit() for char in s)` */
  predicate HasDigit(s: string) {
    exists i | 0 <= i < |s| :: IsUnicodeDigit(s[i])
  }

  /** `re.sub("[^0-9]", ".", s)`: every non-digit becomes a dot. */
  function DotNonDigits(s: string): (r: string)
    ensures |r| == |s|
    ensures forall i :: 0 <= i < |s| ==> (IsDigit(s[i]) ==> r[i] == s[i]) && (!IsDigit(s[i]) ==> r[i] == '.')
  {
    if s == [] then [] else [if IsDigit(s[0]) then s[0] else '.'] + DotNonDigits(s[1..])
  }

  /** `sub in s`, decided by scanning every start position. */
  predicate Contains(s: string, sub: string)
    decreases |s|
  {
    |sub| <= |s| && (s[..|sub|] == sub || Contains(s[1..], sub))
  }

  /** `sub` occurs in `s` starting at position `i`. */
  predicate OccursAt(s: string, sub: string, i: nat) {
    i + |sub| <= |s| && s[i..i + |sub|] == sub
  }

  /** `Contains` holds exactly when `sub` occurs at some position of `s`. */
  lemma {:induction false} ContainsAt(s: string, sub: string)
    ensures Contains(s, sub) <==> exists i: nat :: OccursAt(s, sub, i)
    decreases |s|
  {
    if |sub| <= |s| && s[..|sub|] != sub {
      ContainsAt(s[1..], sub);
      if Contains(s[1..], sub) {
        var i: nat :| OccursAt(s[1..], sub, i);
        assert s[i + 1..i + 1 + |sub|] == s[1..][i..i + |sub|];
        assert OccursAt(s, sub, i + 1);
      }
      if exists i: nat :: OccursAt(s, sub, i) {
        var i: nat :| OccursAt(s, sub, i);
        assert i != 0;
        assert s[1..][i - 1..i - 1 + |sub|] == s[i..i + |sub|];
        assert OccursAt(s[1..], sub, i - 1);
      }
    } else if |sub| <= |s| {
      assert OccursAt(s, sub, 0);
    } else {
      forall i: nat ensures !OccursAt(s, sub, i) { }
    }
  }

  predicate AllDigits(d: string) {
    forall i | 0 <= i < |d| :: IsDigit(d[i])
  }

  /** Lower-casing changes no digit, so a string of digits occurs in `s` exactly when it occurs in `Lower(s)`. */
  lemma {:induction false} ContainsDigitsLower(s: string, d: string)
    requires AllDigits(d)
    ensures Contains(Lower(s), d) <==> Contains(s, d)
    decreases |s|
  {
    if |d| <= |s| && s != [] {
      var l := Lower(s);
      if s[..|d|] == d {
        assert l[..|d|] == d by {
          forall i | 0 <= i < |d| ensures l[i] == d[i] {
            assert s[i] == d[i];
          }
        }
      }
      if l[..|d|] == d {
        assert s[..|d|] == d by {
          forall i | 0 <= i < |d| ensures s[i] == d[i] {
            assert l[i] == d[i];
          }
        }
      }
      assert l[1..] == Lower(s[1..]);
      ContainsDigitsLower(s[1..], d);
    }
  }

  /** `c.isspace()`: what `str.strip()` removes. */
  predicate IsSpace(c: char) {
    var n := c as int;
    || 0x09 <= n <= 0x0D || 0x1C <= n <= 0x20 || n == 0x85 || n == 0xA0 || n == 0x1680
    || 0x2000 <= n <= 0x200A || n == 0x2028 || n == 0x2029 || n == 0x202F || n == 0x205F || n == 0x3000
  }

  /**
   * The whitespace `int()` skips around a number: `isspace()` but for the ASCII separators
   * 0x1C to 0x1F, which it leaves in place and then rejects.
   */
  predicate IsIntSpace(c: char) {
    IsSpace(c) && !(0x1C <= c as int <= 0x1F)
  }

  /** Which whitespace a trim drops: the one `str.strip()` drops, or the one `int()` skips. */
  datatype Blanks = StripBlanks | IntBlanks

  predicate IsBlank(kind: Blanks, c: char) {
    match kind
    case StripBlanks => IsSpace(c)
    case IntBlanks => IsIntSpace(c)
  }

  /** Drop the leading blanks. */
  function TrimLeft(s: string, kind: Blanks): (r: string)
    ensures |r| <= |s| && r == s[|s| - |r|..]
    ensures r != [] ==> !IsBlank(kind, r[0])
    ensures forall i :: 0 <= i < |s| - |r| ==> IsBlank(kind, s[i])
  {
    if s != [] && IsBlank(kind, s[0]) then TrimLeft(s[1..], kind) else s
  }

  /** Drop the trailing blanks. */
  function TrimRight(s: string, kind: Blanks): (r: string)
    ensures |r| <= |s| && r == s[..|r|]
    ensures r != [] ==> !IsBlank(kind, r[|r| - 1])
    ensures forall i :: |r| <= i < |s| ==> IsBlank(kind, s[i])
  {
    if s != [] && IsBlank(kind, s[|s| - 1]) then TrimRight(s[..|s| - 1], kind) else s
  }

  /** A contiguous slice of `s` whose ends are not blanks, obtained by dropping blanks only. */
  function Trim(s: string, kind: Blanks): (r: string)
    ensures exists a, b ::
              && 0 <= a <= b <= |s| && r == s[a..b]
              && (forall i :: 0 <= i < a ==> IsBlank(kind, s[i]))
              && (forall i :: b <= i < |s| ==> IsBlank(kind, s[i]))
    ensures r != [] ==> !IsBlank(kind, r[0]) && !IsBlank(kind, r[|r| - 1])
  {
    var l := TrimLeft(s, kind);
    var r := TrimRight(l, kind);
    assert r == s[|s| - |l|..|s| - |l| + |r|];
    r
  }

  /** Trimming a padded string gives back exactly what was padded, when its ends are not blanks. */
  lemma TrimPadded(w1: string, x: string, w2: string, kind: Blanks)
    requires forall i | 0 <= i < |w1| :: IsBlank(kind, w1[i])
    requires forall i | 0 <= i < |w2| :: IsBlank(kind, w2[i])
    requires x != [] && !IsBlank(kind, x[0]) && !IsBlank(kind, x[|x| - 1])
    ensures Trim(w1 + x + w2, kind) == x
  {
    assert w1 + x + w2 == w1 + (x + w2);
    assert (x + w2)[0] == x[0];
    TrimLeftPadded(w1, x + w2, kind);
    TrimRightPadded(x, w2, kind);
  }

  lemma {:induction false} TrimLeftPadded(w: string, y: string, kind: Blanks)
    requires forall i | 0 <= i < |w| :: IsBlank(kind, w[i])
    requires y != [] && !IsBlank(kind, y[0])
    ensures TrimLeft(w + y, kind) == y
  {
    if w != [] {
      assert (w + y)[1..] == w[1..] + y;
      TrimLeftPadded(w[1..], y, kind);
    } else {
      assert w + y == y;
    }
  }

  lemma {:induction false} TrimRightPadded(x: string, w: string, kind: Blanks)
    requires forall i | 0 <= i < |w| :: IsBlank(kind, w[i])
    requires x != [] && !IsBlank(kind, x[|x| - 1])
    ensures TrimRight(x + w, kind) == x
  {
    if w != [] {
      assert (x + w)[..|x + w| - 1] == x + w[..|w| - 1];
      assert (x + w)[|x + w| - 1] == w[|w| - 1];
      TrimRightPadded(x, w[..|w| - 1], kind);
    } else {
      assert x + w == x;
    }
  }

  /** `s.strip()`: a contiguous slice of `s` whose ends are not whitespace, obtained by dropping whitespace only. */
  function Strip(s: string): (r: string)
    ensures exists a, b ::
              && 0 <= a <= b <= |s| && r == s[a..b]
              && (forall i :: 0 <= i < a ==> IsSpace(s[i]))
              && (forall i :: b <= i < |s| ==> IsSpace(s[i]))
    ensures r != [] ==> !IsSpace(r[0]) && !IsSpace(r[|r| - 1])
  {
    Trim(s, StripBlanks)
  }

  /** The shape `int()` reads after the sign: decimal digits, single underscores between them. */
  predicate IsDigitGroups(d: string) {
    && d != [] && IsDecimal(d[0]) && IsDecimal(d[|d| - 1])
    && (forall i | 0 <= i < |d| :: IsDecimal(d[i]) || d[i] == '_')
    && (forall i | 0 <= i < |d| - 1 :: d[i] == '_' ==> IsDecimal(d[i + 1]))
  }

  /** The value of the digits of `d`, the underscores skipped. */
  function GroupsValue(d: string): nat
    requires forall i | 0 <= i < |d| :: IsDecimal(d[i]) || d[i] == '_'
  {
    if d == [] then 0
    else
      var init := d[..|d| - 1];
      assert forall i | 0 <= i < |init| :: init[i] == d[i];
      if d[|d| - 1] == '_' then GroupsValue(init) else 10 * GroupsValue(init) + DecimalDigit(d[|d| - 1])
  }

  /** The signs `int()` reads before the digits: none, plus or minus. */
  predicate IsSign(sign: string) {
    sign == "" || sign == "+" || sign == "-"
  }

  function SignedValue(sign: string, d: string): int
    requires IsDigitGroups(d)
  {
    if sign == "-" then 0 - GroupsValue(d) else GroupsValue(d)
  }

  /** The sign at the head of `t`, if any. */
  function SignOf(t: string): (sign: string)
    ensures IsSign(sign) && |sign| <= |t| && sign == t[..|sign|]
  {
    if t != [] && (t[0] == '-' || t[0] == '+') then t[..1] else ""
  }

  /** What `int()` reads once the blanks are gone: a sign, then digit groups and nothing else. */
  function ReadSigned(t: string): Option<int> {
    var sign := SignOf(t);
    var body := t[|sign|..];
    if IsDigitGroups(body) then Some(SignedValue(sign, body)) else None
  }

  /**
   * `int(s)` for a string: the blanks it skips at both ends, an optional sign, then decimal
   * digits of any script with single underscores between them; anything else raises, which
   * is None.
   */
  function IntOf(s: string): Option<int> {
    ReadSigned(Trim(s, IntBlanks))
  }

  /** `s` is the blanks `w1`, a sign, the digit groups `d`, then the blanks `w2`. */
  predicate IntLayout(s: string, w1: string, sign: string, d: string, w2: string) {
    && s == w1 + sign + d + w2 && IsSign(sign) && IsDigitGroups(d)
    && (forall i | 0 <= i < |w1| :: IsIntSpace(w1[i]))
    && (forall i | 0 <= i < |w2| :: IsIntSpace(w2[i]))
  }

  /** Every string laid out as `int()` expects converts, to its signed value. */
  lemma IntOfLayout(s: string, w1: string, sign: string, d: string, w2: string)
    requires IntLayout(s, w1, sign, d, w2)
    ensures IntOf(s) == Some(SignedValue(sign, d))
  {
    var x := sign + d;
    DecimalIsNoMark(d[0]);
    DecimalIsNoMark(d[|d| - 1]);
    assert !IsBlank(IntBlanks, x[0]) && !IsBlank(IntBlanks, x[|x| - 1]) by {
      assert x[|x| - 1] == d[|d| - 1];
      assert x[0] == if sign == "" then d[0] else sign[0];
    }
    assert s == w1 + x + w2;
    TrimPadded(w1, x, w2, IntBlanks);
    ReadsSignThenDigits(sign, d);
  }

  /** A sign followed by digit groups reads as the signed value. */
  lemma ReadsSignThenDigits(sign: string, d: string)
    requires IsSign(sign) && IsDigitGroups(d)
    ensures ReadSigned(sign + d) == Some(SignedValue(sign, d))
  {
    DecimalIsNoMark(d[0]);
    var t := sign + d;
    assert t[0] == if sign == "" then d[0] else sign[0];
    assert t[|sign|..] == d;
  }

  /** Only such strings convert: whatever `int()` accepts is blanks, a sign, digit groups and blanks. */
  lemma IntOfOnlyLayouts(s: string, n: int)
    requires IntOf(s) == Some(n)
    ensures exists w1, sign, d, w2 :: IntLayout(s, w1, sign, d, w2) && n == SignedValue(sign, d)
  {
    var t := Trim(s, IntBlanks);
    var a, b :| && 0 <= a <= b <= |s| && t == s[a..b]
                && (forall i :: 0 <= i < a ==> IsBlank(IntBlanks, s[i]))
                && (forall i :: b <= i < |s| ==> IsBlank(IntBlanks, s[i]));
    var sign := SignOf(t);
    LayoutAround(s, a, b, sign, t[|sign|..], n);
  }

  /** A string whose middle slice is a sign and digit groups, between blanks, is laid out as `int()` expects. */
  lemma LayoutAround(s: string, a: nat, b: nat, sign: string, body: string, n: int)
    requires a <= b <= |s| && |sign| <= b - a
    requires sign == s[a..b][..|sign|] && body == s[a..b][|sign|..]
    requires IsSign(sign) && IsDigitGroups(body) && n == SignedValue(sign, body)
    requires forall i :: 0 <= i < a ==> IsBlank(IntBlanks, s[i])
    requires forall i :: b <= i < |s| ==> IsBlank(IntBlanks, s[i])
    ensures exists w1, sign', d, w2 :: IntLayout(s, w1, sign', d, w2) && n == SignedValue(sign', d)
  {
    CutInFour(s, a, b, |sign|);
    var w1, w2 := s[..a], s[b..];
    forall i | 0 <= i < |w1| ensures IsIntSpace(w1[i]) {
      assert w1[i] == s[i];
    }
    forall i | 0 <= i < |w2| ensures IsIntSpace(w2[i]) {
      assert w2[i] == s[b + i];
    }
    assert IntLayout(s, w1, sign, body, w2);
  }

  /** A string is its prefix, the two parts of its middle slice, and its suffix. */
  lemma CutInFour<T>(s: seq<T>, a: nat, b: nat, k: nat)
    requires a <= b <= |s| && k <= b - a
    ensures s == s[..a] + s[a..b][..k] + s[a..b][k..] + s[b..]
  {
    assert s[a..b] == s[a..b][..k] + s[a..b][k..];
    assert s == s[..a] + s[a..b] + s[b..];
  }
}
