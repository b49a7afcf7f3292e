/**
  The JavaScript string built-ins the CLI relies on: `trim`, `split` on one
  character, `Array.prototype.join`, `padEnd`, `substring(0, n)`, `repeat`,
  number-to-string conversion and `parseInt` without a radix argument.
  Strings are sequences of Unicode scalar values; JavaScript counts UTF-16
  code units, which agrees for every character of the Basic Multilingual Plane.
*/
module JsStrings {
  import opened Wrappers

  // ---------------------------------------------------------------------------
  // White space, as `trim` and `parseInt` skip it (WhiteSpace and LineTerminator)
  // ---------------------------------------------------------------------------

  predicate IsWhitespace(c: char) {
    c == ' ' || c == '\t' || c == '\n' || c == '\r' || c == '\U{B}' || c == '\U{C}'
    || c == '\U{A0}' || c == '\U{1680}' || ('\U{2000}' <= c <= '\U{200A}')
    || c == '\U{2028}' || c == '\U{2029}' || c == '\U{202F}' || c == '\U{205F}'
    || c == '\U{3000}' || c == '\U{FEFF}'
  }

  /** Every character of `s` is white space. */
  predicate AllWhitespace(s: string) {
    s == [] || (IsWhitespace(s[0]) && AllWhitespace(s[1..]))
  }

  lemma {:induction false} AllWhitespaceAppend(a: string, b: string)
    requires AllWhitespace(a) && AllWhitespace(b)
    ensures AllWhitespace(a + b)
  {
    if a != [] {
      AllWhitespaceAppend(a[1..], b);
      assert (a + b)[1..] == a[1..] + b;
    } else {
      assert a + b == b;
    }
  }

  /** `s.trimStart()`: a suffix of `s` that does not start with white space. */
  function TrimStart(s: string): (r: string)
    ensures |r| <= |s| && r == s[|s| - |r|..]
    ensures r == [] || !IsWhitespace(r[0])
  {
    if s != [] && IsWhitespace(s[0]) then TrimStart(s[1..]) else s
  }

  /** What `trimStart` drops is white space. */
  lemma {:induction false} TrimStartDropsBlank(s: string)
    ensures AllWhitespace(s[..|s| - |TrimStart(s)|])
  {
    if s != [] && IsWhitespace(s[0]) {
      var r := TrimStart(s[1..]);
      TrimStartDropsBlank(s[1..]);
      var dropped := s[..|s| - |r|];
      assert TrimStart(s) == r && dropped[0] == s[0];
      assert dropped[1..] == s[1..][..|s| - 1 - |r|];
    }
  }

  /** `s.trimEnd()`: a prefix of `s` that does not end with white space. */
  function TrimEnd(s: string): (r: string)
    ensures |r| <= |s| && r == s[..|r|]
    ensures r == [] || !IsWhitespace(r[|r| - 1])
  {
    if s != [] && IsWhitespace(s[|s| - 1]) then TrimEnd(s[..|s| - 1]) else s
  }

  /** What `trimEnd` drops is white space. */
  lemma {:induction false} TrimEndDropsBlank(s: string)
    ensures AllWhitespace(s[|TrimEnd(s)|..])
  {
    if s != [] && IsWhitespace(s[|s| - 1]) {
      var r := TrimEnd(s[..|s| - 1]);
      TrimEndDropsBlank(s[..|s| - 1]);
      AllWhitespaceAppend(s[..|s| - 1][|r|..], [s[|s| - 1]]);
      assert s[|r|..] == s[..|s| - 1][|r|..] + [s[|s| - 1]];
    }
  }

  /** `s.trim()`: `s` without its leading and trailing white space. */
  function Trim(s: string): (r: string)
    ensures r == [] || (!IsWhitespace(r[0]) && !IsWhitespace(r[|r| - 1]))
  {
    TrimEnd(TrimStart(s))
  }

  /** `trim` keeps the infix of `s` that starts behind the leading white space. */
  lemma {:induction false} TrimInfix(s: string)
    ensures var r := Trim(s); var i := |s| - |TrimStart(s)|;
      i + |r| <= |s| && r == s[i..i + |r|]
  {
    var t := TrimStart(s);
    var r := TrimEnd(t);
    var i := |s| - |t|;
    assert t == s[i..] && r == t[..|r|];
    TakeDrop(s, i, |r|);
  }

  lemma TakeDrop(s: string, i: nat, j: nat)
    requires i + j <= |s|
    ensures s[i..][..j] == s[i..i + j]
  {
  }

  /** Trimming twice trims no more than trimming once. */
  lemma {:induction false} TrimIdempotent(s: string)
    ensures Trim(Trim(s)) == Trim(s)
  {
    var r := Trim(s);
    TrimUnchanged(r);
  }

  /** A string without white space at either end is its own trim. */
  lemma {:induction false} TrimUnchanged(s: string)
    requires s == [] || (!IsWhitespace(s[0]) && !IsWhitespace(s[|s| - 1]))
    ensures Trim(s) == s
  {
    assert TrimStart(s) == s;
    assert TrimEnd(s) == s;
  }

  // ---------------------------------------------------------------------------
  // split(c) and join(sep)
  // ---------------------------------------------------------------------------

  /** How many times `c` occurs in `s`. */
  function Count(s: string, c: char): nat {
    if s == [] then 0 else (if s[0] == c then 1 else 0) + Count(s[1..], c)
  }

  /**
    `s.split(sep)` for a one-character separator: the pieces between the
    separators, one more piece than there are separators (`"".split(",")` is `[""]`).
  */
  function Split(s: string, sep: char): (parts: seq<string>)
    ensures |parts| == Count(s, sep) + 1
    ensures forall i :: 0 <= i < |parts| ==> sep !in parts[i]
  {
    if s == [] then [[]]
    else
      var rest := Split(s[1..], sep);
      if s[0] == sep then [[]] + rest
      else [[s[0]] + rest[0]] + rest[1..]
  }

  function Sum(ns: seq<nat>): nat {
    if ns == [] then 0 else ns[0] + Sum(ns[1..])
  }

  function Lengths(parts: seq<string>): (ls: seq<nat>)
    ensures |ls| == |parts| && forall i :: 0 <= i < |parts| ==> ls[i] == |parts[i]|
  {
    seq(|parts|, i requires 0 <= i < |parts| => |parts[i]|)
  }

  /** `parts.join(sep)`: the parts in order, one separator between each two. */
  function JoinWith(parts: seq<string>, sep: string): (r: string)
    ensures parts == [] ==> r == []
    ensures parts != [] ==> |parts[0]| <= |r| && r[..|parts[0]|] == parts[0]
  {
    if parts == [] then []
    else if |parts| == 1 then parts[0]
    else parts[0] + sep + JoinWith(parts[1..], sep)
  }

  /** A join is as long as its parts plus one separator between each two. */
  lemma {:induction false} JoinLength(parts: seq<string>, sep: string)
    requires parts != []
    ensures |JoinWith(parts, sep)| == Sum(Lengths(parts)) + |sep| * (|parts| - 1)
  {
    if |parts| > 1 {
      JoinLength(parts[1..], sep);
      assert Lengths(parts)[1..] == Lengths(parts[1..]);
    } else {
      assert Lengths(parts)[1..] == [];
    }
  }

  /** A character that occurs in no part and not in the separator does not occur in the join. */
  lemma {:induction false} JoinAvoids(parts: seq<string>, sep: string, c: char)
    requires forall i :: 0 <= i < |parts| ==> c !in parts[i]
    requires c !in sep
    ensures c !in JoinWith(parts, sep)
  {
    if |parts| > 1 {
      JoinAvoids(parts[1..], sep, c);
    }
  }

  /** Joining the pieces of a split with the separator gives the string back. */
  lemma {:induction false} JoinSplit(s: string, sep: char)
    ensures JoinWith(Split(s, sep), [sep]) == s
  {
    if s != [] {
      var rest := Split(s[1..], sep);
      JoinSplit(s[1..], sep);
      if s[0] == sep {
        assert Split(s, sep) == [[]] + rest;
      } else {
        JoinConsHead([s[0]], rest, [sep]);
        assert [s[0]] + s[1..] == s;
      }
    }
  }

  lemma {:induction false} JoinConsHead(a: string, parts: seq<string>, sep: string)
    requires parts != []
    ensures JoinWith([a + parts[0]] + parts[1..], sep) == a + JoinWith(parts, sep)
  {
    var ps := [a + parts[0]] + parts[1..];
    assert ps[1..] == parts[1..];
  }

  /** Splitting a join of separator-free pieces gives the pieces back. */
  lemma {:induction false} SplitJoin(parts: seq<string>, sep: char)
    requires parts != []
    requires forall i :: 0 <= i < |parts| ==> sep !in parts[i]
    ensures Split(JoinWith(parts, [sep]), sep) == parts
  {
    if |parts| == 1 {
      SplitNoSeparator(parts[0], sep);
    } else {
      var tail := JoinWith(parts[1..], [sep]);
      SplitJoin(parts[1..], sep);
      assert JoinWith(parts, [sep]) == parts[0] + ([sep] + tail);
      SplitAfterPiece(parts[0], sep, tail);
      assert [parts[0]] + parts[1..] == parts;
    }
  }

  lemma {:induction false} SplitNoSeparator(x: string, sep: char)
    requires sep !in x
    ensures Split(x, sep) == [x]
  {
    if x != [] {
      SplitNoSeparator(x[1..], sep);
      assert [x[0]] + x[1..] == x;
    }
  }

  lemma {:induction false} SplitAfterPiece(x: string, sep: char, y: string)
    requires sep !in x
    ensures Split(x + ([sep] + y), sep) == [x] + Split(y, sep)
  {
    var s := x + ([sep] + y);
    if x == [] {
      assert s == [sep] + y && s[1..] == y;
    } else {
      assert s[1..] == x[1..] + ([sep] + y);
      SplitAfterPiece(x[1..], sep, y);
      assert [x[0]] + x[1..] == x;
    }
  }

  // ---------------------------------------------------------------------------
  // padEnd, substring, repeat
  // ---------------------------------------------------------------------------

  function Repeat(c: char, n: nat): (r: string)
    ensures |r| == n && forall i :: 0 <= i < n ==> r[i] == c
  {
    seq(n, _ => c)
  }

  /** `s.padEnd(n)`: `s` followed by spaces up to length `n`; a longer `s` is left as it is. */
  function PadEnd(s: string, n: nat): (r: string)
    ensures |r| == if |s| >= n then |s| else n
    ensures r[..|s|] == s
    ensures forall i :: |s| <= i < |r| ==> r[i] == ' '
  {
    if |s| >= n then s else s + Repeat(' ', n - |s|)
  }

  /** `s.substring(0, n)` for `n >= 0`: the first `n` characters, or all of a shorter `s`. */
  function Prefix(s: string, n: nat): (r: string)
    ensures |r| == if |s| <= n then |s| else n
    ensures r == s[..|r|]
  {
    if |s| <= n then s else s[..n]
  }

  // ---------------------------------------------------------------------------
  // Numbers to text and back
  // ---------------------------------------------------------------------------

  predicate IsDecimalDigit(c: char) {
    '0' <= c <= '9'
  }

  function DigitChar(d: nat): (c: char)
    requires d < 10
    ensures IsDecimalDigit(c) && DigitVal(c) == d
  {
    ['0', '1', '2', '3', '4', '5', '6', '7', '8', '9'][d]
  }

  /** The value of `c` as a digit of radix up to 36, and 36 for a character that is no digit. */
  function DigitVal(c: char): nat {
    if '0' <= c <= '9' then c as nat - '0' as nat
    else if 'a' <= c <= 'z' then c as nat - 'a' as nat + 10
    else if 'A' <= c <= 'Z' then c as nat - 'A' as nat + 10
    else 36
  }

  /** Decimal notation of a natural number, without leading zeros. */
  function NatToString(n: nat): (s: string)
    ensures |s| >= 1
    ensures forall i :: 0 <= i < |s| ==> IsDecimalDigit(s[i])
    ensures s[0] == '0' ==> s == "0"
  {
    if n < 10 then [DigitChar(n)] else NatToString(n / 10) + [DigitChar(n % 10)]
  }

  /** `String(n)` for an integer-valued number. */
  function IntToString(n: int): (s: string)
    ensures |s| >= 1
  {
    if n < 0 then "-" + NatToString(-n) else NatToString(n)
  }

  /** Length of the longest prefix of `s` made of digits of `radix`. */
  function DigitRun(s: string, radix: nat): (k: nat)
    ensures k <= |s|
  {
    if s != [] && DigitVal(s[0]) < radix then 1 + DigitRun(s[1..], radix) else 0
  }

  /** The value of a string of digits in `radix`, most significant first. */
  function DigitsValue(s: string, radix: nat): nat {
    if s == [] then 0 else DigitsValue(s[..|s| - 1], radix) * radix + DigitVal(s[|s| - 1])
  }

  /**
    `parseInt(s)` with no radix: skip white space, take an optional sign, read
    hexadecimal after a `0x`/`0X` prefix and decimal otherwise, stop at the first
    character that is no digit. `None` is `NaN` (no digit at all).
  */
  function ParseInt(s: string): (r: Option<int>)
    ensures r.Some? ==> var t := TrimStart(s);
      t != [] && (IsDecimalDigit(t[0]) || ((t[0] == '-' || t[0] == '+') && |t| >= 2 && IsDecimalDigit(t[1])))
    ensures r.Some? && r.value < 0 ==> TrimStart(s)[0] == '-'
  {
    ParseSigned(TrimStart(s))
  }

  /** An optional sign, then the digits. */
  function ParseSigned(t: string): (r: Option<int>)
    ensures r.Some? ==> t != [] && (IsDecimalDigit(t[0]) || ((t[0] == '-' || t[0] == '+') && |t| >= 2 && IsDecimalDigit(t[1])))
    ensures r.Some? && r.value < 0 ==> t[0] == '-'
  {
    var unsigned := if t != [] && (t[0] == '-' || t[0] == '+') then t[1..] else t;
    var magnitude := ParseUnsigned(unsigned);
    if magnitude.None? then None
    else
      var v: int := magnitude.value;
      Some(if t != [] && t[0] == '-' then -v else v)
  }

  /** The digits after the sign: hexadecimal behind `0x`/`0X`, decimal otherwise. */
  function ParseUnsigned(u: string): (r: Option<nat>)
    ensures r.Some? ==> u != [] && IsDecimalDigit(u[0])
  {
    var hex := |u| >= 2 && u[0] == '0' && (u[1] == 'x' || u[1] == 'X');
    var radix := if hex then 16 else 10;
    var body := if hex then u[2..] else u;
    var k := DigitRun(body, radix);
    if k == 0 then None else Some(DigitsValue(body[..k], radix))
  }

  lemma {:induction false} NatToStringValue(n: nat)
    ensures DigitsValue(NatToString(n), 10) == n
  {
    if n >= 10 {
      var s := NatToString(n);
      NatToStringValue(n / 10);
      assert s[..|s| - 1] == NatToString(n / 10);
    }
  }

  lemma {:induction false} TrimStartOfNonBlank(lead: string, x: string)
    requires AllWhitespace(lead)
    requires x != [] && !IsWhitespace(x[0])
    ensures TrimStart(lead + x) == x
    decreases |lead|
  {
    if lead != [] {
      assert (lead + x)[1..] == lead[1..] + x;
      TrimStartOfNonBlank(lead[1..], x);
    }
  }

  lemma {:induction false} DigitRunOfDigits(digits: string, tail: string)
    requires forall i :: 0 <= i < |digits| ==> IsDecimalDigit(digits[i])
    requires tail == [] || !IsDecimalDigit(tail[0])
    ensures DigitRun(digits + tail, 10) == |digits|
    decreases |digits|
  {
    var u := digits + tail;
    if digits == [] {
      assert u == tail;
      if tail != [] {
        NonDigitValue(tail[0]);
      }
    } else {
      assert u[0] == digits[0] && DigitVal(u[0]) < 10;
      assert u[1..] == digits[1..] + tail;
      DigitRunOfDigits(digits[1..], tail);
    }
  }

  lemma {:induction false} NonDigitValue(c: char)
    requires !IsDecimalDigit(c)
    ensures DigitVal(c) >= 10
  {
  }

  /**
    `parseInt` reads back what `String(n)` writes, also behind white space and
    before any trailing text that does not continue the number.
  */
  lemma {:induction false} ParseIntOfDecimal(lead: string, n: int, tail: string)
    requires AllWhitespace(lead)
    requires tail == [] || !(IsDecimalDigit(tail[0]) || tail[0] == 'x' || tail[0] == 'X')
    ensures ParseInt(lead + IntToString(n) + tail) == Some(n)
  {
    var x := IntToString(n) + tail;
    assert lead + IntToString(n) + tail == lead + x;
    TrimStartOfNonBlank(lead, x);
    ParseSignedOfDecimal(n, tail);
  }

  lemma {:induction false} ParseSignedOfDecimal(n: int, tail: string)
    requires tail == [] || !(IsDecimalDigit(tail[0]) || tail[0] == 'x' || tail[0] == 'X')
    ensures ParseSigned(IntToString(n) + tail) == Some(n)
  {
    if n < 0 {
      ParseSignedOfNegative(n, tail);
    } else {
      ParseSignedOfNatural(n, tail);
    }
  }

  lemma {:induction false} ParseSignedOfNatural(n: int, tail: string)
    requires n >= 0
    requires tail == [] || !(IsDecimalDigit(tail[0]) || tail[0] == 'x' || tail[0] == 'X')
    ensures ParseSigned(IntToString(n) + tail) == Some(n)
  {
    var u := NatToString(n) + tail;
    assert IntToString(n) + tail == u;
    assert u[0] == NatToString(n)[0];
    ParseUnsignedOfDecimal(n, tail);
    ParseSignedPlain(u, n);
  }

  lemma {:induction false} ParseSignedOfNegative(n: int, tail: string)
    requires n < 0
    requires tail == [] || !(IsDecimalDigit(tail[0]) || tail[0] == 'x' || tail[0] == 'X')
    ensures ParseSigned(IntToString(n) + tail) == Some(n)
  {
    var m: nat := -n;
    var u := NatToString(m) + tail;
    var x := ['-'] + u;
    assert IntToString(n) + tail == x;
    ParseUnsignedOfDecimal(m, tail);
    assert ParseUnsigned(u) == Some(m);
    ParseSignedMinus(x, u, m);
  }

  lemma {:induction false} ParseSignedPlain(u: string, m: nat)
    requires u != [] && IsDecimalDigit(u[0])
    requires ParseUnsigned(u) == Some(m)
    ensures ParseSigned(u) == Some(m as int)
  {
  }

  lemma {:induction false} ParseSignedMinus(x: string, u: string, m: nat)
    requires x == ['-'] + u
    requires ParseUnsigned(u) == Some(m)
    ensures ParseSigned(x) == Some(-(m as int))
  {
    assert x[0] == '-' && x[1..] == u;
  }

  lemma {:induction false} ParseUnsignedOfDecimal(m: nat, tail: string)
    requires tail == [] || !(IsDecimalDigit(tail[0]) || tail[0] == 'x' || tail[0] == 'X')
    ensures ParseUnsigned(NatToString(m) + tail) == Some(m)
  {
    var digits := NatToString(m);
    var u := digits + tail;
    assert !(|u| >= 2 && u[0] == '0' && (u[1] == 'x' || u[1] == 'X')) by {
      if |u| >= 2 && u[0] == '0' {
        assert digits == "0";
        assert u[1] == tail[0];
      }
    }
    DigitRunOfDigits(digits, tail);
    assert u[..|digits|] == digits;
    NatToStringValue(m);
  }

  /** Text whose first non-blank character is neither a sign nor a digit parses to `NaN`. */
  lemma {:induction false} ParseIntNaN(s: string)
    requires var t := TrimStart(s); t == [] || (t[0] != '-' && t[0] != '+' && !IsDecimalDigit(t[0]))
    ensures ParseInt(s) == None
  {
    var t := TrimStart(s);
    if t != [] {
      NonDigitValue(t[0]);
    }
    assert DigitRun(t, 10) == 0;
    assert ParseUnsigned(t) == None;
  }
}
