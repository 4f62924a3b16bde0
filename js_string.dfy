/** The JavaScript string primitives the application's logic is built from:
    String.prototype.trim, split and Array.prototype.join, parseInt, the
    decimal rendering of an integer, toLowerCase on ASCII labels and
    encodeURIComponent, each as ECMA-262 defines it for the inputs that
    reach it here. */
module JsString {
  import opened Types

  /** The WhiteSpace and LineTerminator code points of ECMA-262 (sections
      12.2 and 12.3): what trim removes and what parseInt skips. */
  predicate IsWhiteSpace(c: char) {
    c == '\t' || c == '\n' || c == '\U{B}' || c == '\U{C}' || c == '\r' || c == ' '
    || c == '\U{A0}' || c == '\U{1680}' || ('\U{2000}' <= c <= '\U{200A}')
    || c == '\U{2028}' || c == '\U{2029}' || c == '\U{202F}' || c == '\U{205F}'
    || c == '\U{3000}' || c == '\U{FEFF}'
  }

  /** No white space at either end. */
  predicate IsTrimmed(s: string) {
    s == [] || (!IsWhiteSpace(s[0]) && !IsWhiteSpace(s[|s| - 1]))
  }

  /** The number of white-space characters `s` starts with. */
  function LeadingWhiteSpace(s: string): (n: nat)
    ensures n <= |s|
    ensures forall i :: 0 <= i < n ==> IsWhiteSpace(s[i])
    ensures n == |s| || !IsWhiteSpace(s[n])
  {
    if |s| > 0 && IsWhiteSpace(s[0]) then 1 + LeadingWhiteSpace(s[1..]) else 0
  }

  /** The number of white-space characters `s` ends with. */
  function TrailingWhiteSpace(s: string): (n: nat)
    ensures n <= |s|
    ensures forall i :: |s| - n <= i < |s| ==> IsWhiteSpace(s[i])
    ensures n == |s| || !IsWhiteSpace(s[|s| - n - 1])
  {
    if |s| > 0 && IsWhiteSpace(s[|s| - 1]) then 1 + TrailingWhiteSpace(s[..|s| - 1]) else 0
  }

  /** `s` with its leading white space removed. */
  function TrimStart(s: string): string {
    s[LeadingWhiteSpace(s)..]
  }

  /** `s` with its trailing white space removed. */
  function TrimEnd(s: string): string {
    s[..|s| - TrailingWhiteSpace(s)]
  }

  /** String.prototype.trim: the result has no white space at either end
      and leaves a trimmed string alone. It is the part of `s` behind the
      leading white space, and what follows it in `s` is white space too,
      so only white space is removed. */
  function Trim(s: string): (r: string)
    ensures IsTrimmed(r)
    ensures |r| <= |s|
    ensures IsTrimmed(s) ==> r == s
    ensures LeadingWhiteSpace(s) + |r| <= |s|
    ensures forall i :: 0 <= i < |r| ==> r[i] == s[LeadingWhiteSpace(s) + i]
    ensures forall i :: LeadingWhiteSpace(s) + |r| <= i < |s| ==> IsWhiteSpace(s[i])
  {
    TrimEndsTrimmed(s);
    TrimOfTrimmed(s);
    TrimEndsSlice(s);
    TrimEnd(TrimStart(s))
  }

  /** Trimming both ends keeps the characters behind the leading white
      space, up to trailing white space. */
  lemma TrimEndsSlice(s: string)
    ensures var k := LeadingWhiteSpace(s); var r := TrimEnd(TrimStart(s));
      && k + |r| <= |s|
      && (forall i :: 0 <= i < |r| ==> r[i] == s[k + i])
      && (forall i :: k + |r| <= i < |s| ==> IsWhiteSpace(s[i]))
  {
    var k := LeadingWhiteSpace(s);
    var t := TrimStart(s);
    var r := TrimEnd(t);
    var m := TrailingWhiteSpace(t);
    assert |r| == |t| - m;
    forall i | 0 <= i < |r| ensures r[i] == s[k + i] {
      assert r[i] == t[i];
    }
    forall i | k + |r| <= i < |s| ensures IsWhiteSpace(s[i]) {
      assert s[i] == t[i - k];
    }
  }

  lemma TrimEndsTrimmed(s: string)
    ensures var r := TrimEnd(TrimStart(s)); IsTrimmed(r) && |r| <= |s|
  {
    var t := TrimStart(s);
    var r := TrimEnd(t);
    if r != [] {
      assert r[0] == t[0];
    }
  }

  lemma TrimOfTrimmed(s: string)
    ensures IsTrimmed(s) ==> TrimEnd(TrimStart(s)) == s
  {
    if IsTrimmed(s) && s != [] {
      assert !IsWhiteSpace(s[0]);
      assert TrimStart(s) == s;
      assert !IsWhiteSpace(s[|s| - 1]);
    }
  }

  /** The trimmed string is the slice of `s` behind its leading white space. */
  lemma TrimSlice(s: string)
    ensures forall i :: 0 <= i < |Trim(s)| ==> Trim(s)[i] == s[|s| - |TrimStart(s)| + i]
  {
    var t := TrimStart(s);
    var r := Trim(s);
    assert r == TrimEnd(t);
    forall i | 0 <= i < |r| ensures r[i] == s[|s| - |t| + i] {
      assert r[i] == t[i];
    }
  }

  /** Every character of the trimmed string has a property that every
      character of `s` has. */
  lemma TrimKeepsCharacters(s: string, p: char -> bool)
    requires forall i :: 0 <= i < |s| ==> p(s[i])
    ensures forall i :: 0 <= i < |Trim(s)| ==> p(Trim(s)[i])
  {
    TrimSlice(s);
  }

  /** Trimming leaves nothing exactly when `s` is all white space. */
  lemma TrimBlank(s: string)
    ensures Trim(s) == [] <==> forall i :: 0 <= i < |s| ==> IsWhiteSpace(s[i])
  {
    var t := TrimStart(s);
    var r := Trim(s);
    assert r == TrimEnd(t);
    if r != [] {
      assert r[0] == t[0] == s[|s| - |t|];
    }
  }

  /** Array.prototype.join. */
  function Join(parts: seq<string>, sep: string): string {
    if |parts| == 0 then ""
    else if |parts| == 1 then parts[0]
    else parts[0] + sep + Join(parts[1..], sep)
  }

  /** String.prototype.split on a one-character separator: one piece more
      than there are separators, and no piece contains the separator. */
  function Split(s: string, sep: char): (parts: seq<string>)
    ensures |parts| == multiset(s)[sep] + 1
    ensures forall i :: 0 <= i < |parts| ==> sep !in parts[i]
  {
    if s == [] then [[]]
    else
      assert s == [s[0]] + s[1..];
      var rest := Split(s[1..], sep);
      if s[0] == sep then [[]] + rest
      else [[s[0]] + rest[0]] + rest[1..]
  }

  /** Joining a list of at least two strings puts the separator after the first. */
  lemma JoinCons(head: string, tail: seq<string>, sep: string)
    requires |tail| >= 1
    ensures Join([head] + tail, sep) == head + sep + Join(tail, sep)
  {
    assert ([head] + tail)[1..] == tail;
  }

  /** The position of the first separator. */
  function SeparatorIndex(s: string, sep: char): (k: nat)
    requires sep in s
    ensures k < |s| && s[k] == sep
    ensures forall i :: 0 <= i < k ==> s[i] != sep
  {
    if s[0] == sep then 0 else 1 + SeparatorIndex(s[1..], sep)
  }

  /** Splitting at a first separator peels off the text before it. */
  lemma {:induction false} SplitAtFirstSeparator(a: string, sep: char, b: string)
    requires sep !in a
    ensures Split(a + [sep] + b, sep) == [a] + Split(b, sep)
  {
    var s := a + [sep] + b;
    if a == [] {
      assert s[1..] == b;
    } else {
      assert s[1..] == a[1..] + [sep] + b;
      SplitAtFirstSeparator(a[1..], sep, b);
      assert [a[0]] + a[1..] == a;
    }
  }

  /** A string without the separator splits into itself alone. */
  lemma {:induction false} SplitWithoutSeparator(s: string, sep: char)
    requires sep !in s
    ensures Split(s, sep) == [s]
  {
    if s != [] {
      SplitWithoutSeparator(s[1..], sep);
      assert s == [s[0]] + s[1..];
    }
  }

  /** Joining the pieces of a split with the separator gives back the string. */
  lemma {:induction false} JoinSplit(s: string, sep: char)
    ensures Join(Split(s, sep), [sep]) == s
    decreases |s|
  {
    if sep !in s {
      SplitWithoutSeparator(s, sep);
    } else {
      var k := SeparatorIndex(s, sep);
      var a := s[..k];
      var b := s[k + 1..];
      assert forall i :: 0 <= i < |a| ==> a[i] == s[i];
      assert s == a + [sep] + b;
      SplitAtFirstSeparator(a, sep, b);
      JoinSplit(b, sep);
      JoinCons(a, Split(b, sep), [sep]);
    }
  }

  /** Two pieces around one separator. */
  lemma SplitInTwo(a: string, sep: char, b: string)
    requires sep !in a && sep !in b
    ensures Split(a + [sep] + b, sep) == [a, b]
  {
    SplitAtFirstSeparator(a, sep, b);
    SplitWithoutSeparator(b, sep);
  }

  /** Three pieces around two separators. */
  lemma SplitInThree(a: string, sep: char, b: string, c: string)
    requires sep !in a && sep !in b && sep !in c
    ensures Split(a + [sep] + (b + [sep] + c), sep) == [a, b, c]
  {
    SplitInTwo(b, sep, c);
    SplitAtFirstSeparator(a, sep, b + [sep] + c);
  }

  predicate IsDecimalDigit(c: char) {
    '0' <= c <= '9'
  }

  /** A digit of radix 10 or 16 (either case), as parseInt reads them. */
  predicate IsDigitIn(c: char, radix: nat) {
    IsDecimalDigit(c) || (radix == 16 && ('a' <= c <= 'f' || 'A' <= c <= 'F'))
  }

  function DigitValue(c: char, radix: nat): (v: nat)
    requires IsDigitIn(c, radix)
    ensures v < radix || (radix < 10 && IsDecimalDigit(c))
  {
    if IsDecimalDigit(c) then c as int - '0' as int
    else if 'a' <= c <= 'f' then c as int - 'a' as int + 10
    else c as int - 'A' as int + 10
  }

  /** The longest prefix of `s` made of digits of `radix`. */
  function DigitRun(s: string, radix: nat): (r: string)
    ensures |r| <= |s|
    ensures forall i :: 0 <= i < |r| ==> r[i] == s[i]
    ensures forall i :: 0 <= i < |r| ==> IsDigitIn(r[i], radix)
    ensures |r| == |s| || !IsDigitIn(s[|r|], radix)
  {
    if s == [] || !IsDigitIn(s[0], radix) then []
    else [s[0]] + DigitRun(s[1..], radix)
  }

  /** The value of a string of digits, most significant first. */
  function DigitsValue(d: string, radix: nat): int
    requires forall i :: 0 <= i < |d| ==> IsDigitIn(d[i], radix)
  {
    if d == [] then 0
    else DigitsValue(d[..|d| - 1], radix) * radix + DigitValue(d[|d| - 1], radix)
  }

  /** parseInt(s) with no radix argument; None stands for NaN. Leading white
      space is skipped, one sign is read, a "0x"/"0X" prefix selects radix
      16, and the longest run of digits that follows is the value. */
  function ParseInt(s: string): Option<int> {
    var t := TrimStart(s);
    if |t| > 0 && t[0] == '-' then
      match ParseMagnitude(t[1..])
      case None => None
      case Some(m) => Some(-m)
    else if |t| > 0 && t[0] == '+' then ParseMagnitude(t[1..])
    else ParseMagnitude(t)
  }

  /** The unsigned part of parseInt: a "0x"/"0X" prefix selects radix 16,
      and the longest run of digits that follows is the value. */
  function ParseMagnitude(unsigned: string): Option<int> {
    var hex := |unsigned| >= 2 && unsigned[0] == '0' && (unsigned[1] == 'x' || unsigned[1] == 'X');
    var radix := if hex then 16 else 10;
    var digits := DigitRun(if hex then unsigned[2..] else unsigned, radix);
    if digits == [] then None else Some(DigitsValue(digits, radix))
  }

  /** What parseInt reads digits from: `s` behind its leading white space
      and one optional sign. */
  function UnsignedPart(s: string): string {
    var t := TrimStart(s);
    if |t| > 0 && (t[0] == '-' || t[0] == '+') then t[1..] else t
  }

  /** `s` has no leading integer: behind white space and sign there is no
      decimal digit, or a "0x"/"0X" prefix with no hexadecimal digit after it. */
  predicate NoLeadingInteger(s: string) {
    var u := UnsignedPart(s);
    || u == []
    || !IsDecimalDigit(u[0])
    || (|u| >= 2 && u[0] == '0' && (u[1] == 'x' || u[1] == 'X') && (|u| == 2 || !IsDigitIn(u[2], 16)))
  }

  /** parseInt gives NaN exactly for strings with no leading integer. */
  lemma ParseIntNaNExactly(s: string)
    ensures ParseInt(s) == None <==> NoLeadingInteger(s)
  {
    var u := UnsignedPart(s);
    assert ParseInt(s).None? <==> ParseMagnitude(u).None?;
    var hex := |u| >= 2 && u[0] == '0' && (u[1] == 'x' || u[1] == 'X');
    if hex {
      var run := DigitRun(u[2..], 16);
      assert |u| > 2 ==> u[2..][0] == u[2];
      assert run == [] <==> |u| == 2 || !IsDigitIn(u[2], 16);
    } else {
      var run := DigitRun(u, 10);
      assert run == [] <==> u == [] || !IsDecimalDigit(u[0]);
    }
  }

  /** A string in which no decimal digit occurs has no leading integer. */
  lemma NoDigitsParsesToNaN(s: string)
    requires forall i :: 0 <= i < |s| ==> !IsDecimalDigit(s[i])
    ensures ParseInt(s) == None
  {
    var k := LeadingWhiteSpace(s);
    var t := TrimStart(s);
    if |t| > 0 {
      assert t[0] == s[k];
      if |t| > 1 {
        assert t[1] == s[k + 1];
      }
    }
    var unsigned := if |t| > 0 && (t[0] == '-' || t[0] == '+') then t[1..] else t;
    assert unsigned == [] || !IsDecimalDigit(unsigned[0]);
    assert DigitRun(unsigned, 10) == [];
  }

  function DecimalDigit(n: nat): (c: char)
    requires n < 10
    ensures IsDecimalDigit(c) && DigitValue(c, 10) == n
  {
    ('0' as int + n) as char
  }

  /** The decimal numeral of a natural number, without leading zeros: it
      starts with '0' only for zero itself. */
  function NatToDecimal(n: nat): (s: string)
    ensures |s| >= 1
    ensures s[0] == '0' <==> n == 0
    ensures |s| > 1 ==> s[0] != '0'
    ensures forall i :: 0 <= i < |s| ==> IsDecimalDigit(s[i])
    ensures DigitsValue(s, 10) == n
  {
    if n < 10 then [DecimalDigit(n)]
    else
      var s := NatToDecimal(n / 10) + [DecimalDigit(n % 10)];
      assert s[..|s| - 1] == NatToDecimal(n / 10);
      s
  }

  /** String(n) for an integer n. */
  function IntToDecimal(n: int): string {
    if n < 0 then "-" + NatToDecimal(-n) else NatToDecimal(n)
  }

  /** A string of digits is its own longest digit prefix. */
  lemma DigitRunOfDigits(s: string, radix: nat)
    requires forall i :: 0 <= i < |s| ==> IsDigitIn(s[i], radix)
    ensures DigitRun(s, radix) == s
  {
    var r := DigitRun(s, radix);
    assert |r| == |s|;
    assert r == s[..|r|];
  }

  /** A digit string is read as its decimal value. */
  lemma ParseMagnitudeOfDigits(digits: string)
    requires |digits| >= 1 && forall i :: 0 <= i < |digits| ==> IsDecimalDigit(digits[i])
    ensures ParseMagnitude(digits) == Some(DigitsValue(digits, 10))
  {
    var hex := |digits| >= 2 && digits[0] == '0' && (digits[1] == 'x' || digits[1] == 'X');
    assert !hex by {
      if |digits| >= 2 {
        assert IsDecimalDigit(digits[1]);
      }
    }
    DigitRunOfDigits(digits, 10);
  }

  /** parseInt reads back the decimal rendering of every integer. */
  lemma ParseIntOfDecimal(n: int)
    ensures ParseInt(IntToDecimal(n)) == Some(n)
  {
    var s := IntToDecimal(n);
    var digits := NatToDecimal(if n < 0 then -n else n);
    ParseMagnitudeOfDigits(digits);
    assert s[0] == '-' || IsDecimalDigit(s[0]);
    assert LeadingWhiteSpace(s) == 0;
    assert TrimStart(s) == s;
    if n < 0 {
      assert s[1..] == digits;
    }
  }

  /** The lower-case form of an ASCII letter; other characters unchanged. */
  function LowerAscii(c: char): char {
    if 'A' <= c <= 'Z' then (c as int + 32) as char else c
  }

  /** String.prototype.toLowerCase for strings whose letters are ASCII. */
  function ToLowerAscii(s: string): (r: string)
    ensures |r| == |s|
    ensures forall i :: 0 <= i < |s| ==> r[i] == LowerAscii(s[i])
  {
    if s == [] then [] else [LowerAscii(s[0])] + ToLowerAscii(s[1..])
  }

  /** The characters encodeURIComponent leaves as they are. */
  predicate IsUriUnreserved(c: char) {
    'A' <= c <= 'Z' || 'a' <= c <= 'z' || IsDecimalDigit(c)
    || c == '-' || c == '_' || c == '.' || c == '!' || c == '~' || c == '*'
    || c == '\'' || c == '(' || c == ')'
  }

  /** The upper-case hexadecimal digit of value n. */
  function HexDigitUpper(n: nat): (c: char)
    requires n < 16
    ensures IsUriUnreserved(c)
    ensures IsDigitIn(c, 16) && DigitValue(c, 16) == n
    ensures !('a' <= c <= 'z')
  {
    if n < 10 then ('0' as int + n) as char else ('A' as int + n - 10) as char
  }

  /** The UTF-8 encoding of one Unicode scalar value. */
  function Utf8Bytes(c: char): (bytes: seq<nat>)
    ensures 1 <= |bytes| <= 4
    ensures forall i :: 0 <= i < |bytes| ==> bytes[i] < 256
  {
    var cp := c as int;
    if cp < 0x80 then [cp]
    else if cp < 0x800 then [0xC0 + cp / 0x40, 0x80 + cp % 0x40]
    else if cp < 0x1_0000 then [0xE0 + cp / 0x1000, 0x80 + (cp / 0x40) % 0x40, 0x80 + cp % 0x40]
    else [0xF0 + cp / 0x4_0000, 0x80 + (cp / 0x1000) % 0x40, 0x80 + (cp / 0x40) % 0x40, 0x80 + cp % 0x40]
  }

  /** Each byte as "%" and two upper-case hexadecimal digits. */
  function PercentEncode(bytes: seq<nat>): (r: string)
    requires forall i :: 0 <= i < |bytes| ==> bytes[i] < 256
    ensures |r| == 3 * |bytes|
    ensures forall i :: 0 <= i < |r| ==> IsUriUnreserved(r[i]) || r[i] == '%'
  {
    if bytes == [] then []
    else ['%', HexDigitUpper(bytes[0] / 16), HexDigitUpper(bytes[0] % 16)] + PercentEncode(bytes[1..])
  }

  /** The k-th byte is written at position 3k as '%' and its two
      upper-case hexadecimal digits, high digit first. */
  lemma {:induction false} PercentEncodeEscapes(bytes: seq<nat>)
    requires forall i :: 0 <= i < |bytes| ==> bytes[i] < 256
    ensures forall k :: 0 <= k < |bytes| ==>
      && PercentEncode(bytes)[3 * k] == '%'
      && PercentEncode(bytes)[3 * k + 1] == HexDigitUpper(bytes[k] / 16)
      && PercentEncode(bytes)[3 * k + 2] == HexDigitUpper(bytes[k] % 16)
  {
    if bytes != [] {
      PercentEncodeEscapes(bytes[1..]);
      var rest := PercentEncode(bytes[1..]);
      var r := PercentEncode(bytes);
      assert r == ['%', HexDigitUpper(bytes[0] / 16), HexDigitUpper(bytes[0] % 16)] + rest;
      forall k | 1 <= k < |bytes|
        ensures r[3 * k] == '%'
        ensures r[3 * k + 1] == HexDigitUpper(bytes[k] / 16)
        ensures r[3 * k + 2] == HexDigitUpper(bytes[k] % 16)
      {
        var j := k - 1;
        assert bytes[1..][j] == bytes[k];
        assert r[3 * k] == rest[3 * j];
        assert r[3 * k + 1] == rest[3 * j + 1];
        assert r[3 * k + 2] == rest[3 * j + 2];
      }
    }
  }

  /** encodeURIComponent: unreserved characters stay, every other character
      becomes the percent-escapes of its UTF-8 bytes, so the result holds
      only unreserved characters and '%'. */
  function EncodeUriComponent(s: string): string {
    if s == [] then []
    else
      var head := if IsUriUnreserved(s[0]) then [s[0]] else PercentEncode(Utf8Bytes(s[0]));
      head + EncodeUriComponent(s[1..])
  }

  /** The encoded string holds only unreserved characters and '%'. */
  lemma {:induction false} EncodedCharacters(s: string)
    ensures forall i :: 0 <= i < |EncodeUriComponent(s)| ==>
      IsUriUnreserved(EncodeUriComponent(s)[i]) || EncodeUriComponent(s)[i] == '%'
  {
    if s != [] {
      EncodedCharacters(s[1..]);
      var head := if IsUriUnreserved(s[0]) then [s[0]] else PercentEncode(Utf8Bytes(s[0]));
      var tail := EncodeUriComponent(s[1..]);
      var r := head + tail;
      assert EncodeUriComponent(s) == r;
      forall i | 0 <= i < |r| ensures IsUriUnreserved(r[i]) || r[i] == '%' {
        if i < |head| {
          assert r[i] == head[i];
          if IsUriUnreserved(s[0]) {
            assert head[i] == s[0];
          }
        } else {
          assert r[i] == tail[i - |head|];
        }
      }
    }
  }

  /** A string of unreserved characters is left as it is. */
  lemma {:induction false} EncodeUnreserved(s: string)
    requires forall i :: 0 <= i < |s| ==> IsUriUnreserved(s[i])
    ensures EncodeUriComponent(s) == s
  {
    if s != [] {
      EncodeUnreserved(s[1..]);
      assert s == [s[0]] + s[1..];
    }
  }
}
