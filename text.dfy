/**
 * Text handling used by the control-message tokenizer, the command
 * arguments and the output file names: a byte string seen as text,
 * splitting on a separator byte, and decimal rendering and parsing of
 * integers (Python's `%d`, `int()` and the integer part of `float()`).
 */
module Text {
  import opened Bytes
  import opened Wrappers

  /** Each byte read as the character with that code (bytes.decode() on ASCII input). */
  function Latin1(b: seq<byte>): (s: string)
    ensures |s| == |b|
    ensures forall k :: 0 <= k < |b| ==> s[k] as int == b[k]
  {
    if b == [] then [] else [b[0] as char] + Latin1(b[1..])
  }

  /** The bytes of an ASCII string literal (b'RIFF', b'data', ...). */
  function AsciiBytes(s: string): (b: seq<byte>)
    requires forall k :: 0 <= k < |s| ==> s[k] as int < 0x100
    ensures |b| == |s|
    ensures forall k :: 0 <= k < |s| ==> b[k] == s[k] as int
  {
    if s == [] then [] else [s[0] as int] + AsciiBytes(s[1..])
  }

  /** Reading the bytes of an ASCII literal as text gives the literal back. */
  lemma {:induction false} Latin1OfAscii(s: string)
    requires forall k :: 0 <= k < |s| ==> s[k] as int < 0x100
    ensures Latin1(AsciiBytes(s)) == s
  {
    if s != [] {
      Latin1OfAscii(s[1..]);
      assert AsciiBytes(s)[1..] == AsciiBytes(s[1..]);
    }
  }

  lemma {:induction false} AsciiAppend(a: string, b: string)
    requires forall k :: 0 <= k < |a| ==> a[k] as int < 0x100
    requires forall k :: 0 <= k < |b| ==> b[k] as int < 0x100
    ensures AsciiBytes(a + b) == AsciiBytes(a) + AsciiBytes(b)
  {
    if a != [] {
      assert (a + b)[1..] == a[1..] + b;
      AsciiAppend(a[1..], b);
    } else {
      assert a + b == b;
    }
  }

  /** Position of the first occurrence of x in s. */
  function IndexOf(s: seq<byte>, x: byte): (i: nat)
    requires x in s
    ensures i < |s| && s[i] == x && x !in s[..i]
  {
    if s[0] == x then 0 else 1 + IndexOf(s[1..], x)
  }

  /** bytes.split(sep): the pieces between occurrences of sep, empty pieces included. */
  function Split(s: seq<byte>, sep: byte): (pieces: seq<seq<byte>>)
    ensures |pieces| >= 1
    ensures forall k :: 0 <= k < |pieces| ==> sep !in pieces[k]
    decreases |s|
  {
    if sep !in s then [s]
    else
      var i := IndexOf(s, sep);
      [s[..i]] + Split(s[i + 1..], sep)
  }

  /** The inverse of Split: the pieces rejoined with sep between them. */
  function Join(pieces: seq<seq<byte>>, sep: byte): seq<byte>
    requires |pieces| >= 1
  {
    if |pieces| == 1 then pieces[0] else pieces[0] + [sep] + Join(pieces[1..], sep)
  }

  /** Splitting loses nothing: joining the pieces gives back the input. */
  lemma {:induction false} JoinSplit(s: seq<byte>, sep: byte)
    ensures Join(Split(s, sep), sep) == s
    decreases |s|
  {
    if sep in s {
      var i := IndexOf(s, sep);
      var rest := Split(s[i + 1..], sep);
      var pieces := Split(s, sep);
      assert pieces == [s[..i]] + rest;
      assert pieces[0] == s[..i] && pieces[1..] == rest;
      JoinSplit(s[i + 1..], sep);
      assert Join(pieces, sep) == s[..i] + [sep] + Join(rest, sep);
      assert s == s[..i] + [sep] + s[i + 1..];
    }
  }

  /** Splitting rejoined pieces that are free of sep gives back those pieces. */
  lemma {:induction false} SplitJoin(pieces: seq<seq<byte>>, sep: byte)
    requires |pieces| >= 1
    requires forall k :: 0 <= k < |pieces| ==> sep !in pieces[k]
    ensures Split(Join(pieces, sep), sep) == pieces
    decreases |pieces|
  {
    if |pieces| > 1 {
      var s := Join(pieces, sep);
      var p := pieces[0];
      assert s == p + [sep] + Join(pieces[1..], sep);
      assert s[|p|] == sep;
      assert s[..|p|] == p;
      assert IndexOf(s, sep) == |p|;
      assert s[|p| + 1..] == Join(pieces[1..], sep);
      SplitJoin(pieces[1..], sep);
    }
  }

  /** bytes.split(sep, 1) on a piece that contains sep: the part before the first sep and the rest. */
  function SplitFirst(s: seq<byte>, sep: byte): (r: (seq<byte>, seq<byte>))
    requires sep in s
    ensures sep !in r.0
    ensures s == r.0 + [sep] + r.1
  {
    var i := IndexOf(s, sep);
    assert s == s[..i] + [sep] + s[i + 1..];
    (s[..i], s[i + 1..])
  }

  predicate IsDigit(c: char)
  {
    '0' <= c <= '9'
  }

  predicate AllDigits(s: string)
  {
    forall k :: 0 <= k < |s| ==> IsDigit(s[k])
  }

  /** The value of a string of decimal digits (0 for the empty string). */
  function DigitsValue(s: string): (n: nat)
    requires AllDigits(s)
  {
    if s == [] then 0 else 10 * DigitsValue(s[..|s| - 1]) + (s[|s| - 1] as int - '0' as int)
  }

  /** The decimal digits of n, without leading zeros. */
  function NatToDecimal(n: nat): (s: string)
    ensures |s| >= 1 && AllDigits(s)
    ensures |s| > 1 ==> s[0] != '0'
  {
    if n < 10 then [(n + '0' as int) as char]
    else NatToDecimal(n / 10) + [(n % 10 + '0' as int) as char]
  }

  /** Python's '%d' of an integer. */
  function IntToDecimal(i: int): (s: string)
    ensures |s| >= 1
  {
    if i < 0 then "-" + NatToDecimal(-i) else NatToDecimal(i)
  }

  lemma {:induction false} DigitsValueOfDecimal(n: nat)
    ensures DigitsValue(NatToDecimal(n)) == n
  {
    if n >= 10 {
      DigitsValueOfDecimal(n / 10);
      var s := NatToDecimal(n);
      assert s[..|s| - 1] == NatToDecimal(n / 10);
    }
  }

  /** An optional leading sign: whether it is '-', and the rest. */
  function SignedDigits(s: string): (r: (bool, string))
  {
    if |s| > 0 && (s[0] == '-' || s[0] == '+') then (s[0] == '-', s[1..]) else (false, s)
  }

  /** A magnitude with the sign applied. */
  function ApplySign(negative: bool, v: int): int
  {
    if negative then -v else v
  }

  /** int(v) for decimal input: an optional sign and one or more digits; anything else is a ValueError. */
  function ParseInt(s: string): (r: Option<int>)
    ensures r.Some? ==> |s| >= 1
  {
    var (negative, digits) := SignedDigits(s);
    if |digits| >= 1 && AllDigits(digits) then Some(ApplySign(negative, DigitsValue(digits))) else None
  }

  /** ParseInt reads back what IntToDecimal writes. */
  lemma ParseIntOfDecimal(i: int)
    ensures ParseInt(IntToDecimal(i)) == Some(i)
  {
    var prefix, negative, digits := DecimalParts(i);
    SignedBody(prefix, digits);
  }

  /** Position of the first '.' in s, or |s| when there is none. */
  function DotIndex(s: string): (i: nat)
    ensures i <= |s| && (forall k :: 0 <= k < i ==> s[k] != '.')
    ensures i < |s| ==> s[i] == '.'
  {
    if s == [] then 0 else if s[0] == '.' then 0 else 1 + DotIndex(s[1..])
  }

  /**
   * int(float(v)) for plain decimal input: an optional sign, digits, and an
   * optional '.' followed by digits, with at least one digit in all; the
   * result is the integer part with its sign (truncation toward zero).
   */
  function ParseDecimalTruncated(s: string): (r: Option<int>)
  {
    var (negative, body) := SignedDigits(s);
    var d := DotIndex(body);
    var whole := body[..d];
    var frac := if d < |body| then body[d + 1..] else [];
    if AllDigits(whole) && AllDigits(frac) && |whole| + |frac| >= 1
    then Some(ApplySign(negative, DigitsValue(whole)))
    else None
  }

  /** "12000.000" and the like: a rendered integer followed by a fraction parses to that integer. */
  lemma ParseDecimalOfDecimal(i: int, frac: string)
    requires AllDigits(frac)
    ensures ParseDecimalTruncated(IntToDecimal(i) + "." + frac) == Some(i)
    ensures ParseDecimalTruncated(IntToDecimal(i)) == Some(i)
  {
    var prefix, negative, digits := DecimalParts(i);
    var body := digits + ("." + frac);
    assert IntToDecimal(i) + "." + frac == prefix + body;
    assert IntToDecimal(i) == prefix + (digits + []);
    SignedBody(prefix, body);
    SignedBody(prefix, digits + []);
    ParseBody(IntToDecimal(i) + "." + frac, negative, digits, "." + frac, frac);
    ParseBody(IntToDecimal(i), negative, digits, [], []);
  }

  /** '%d' of i is an optional '-' and the digits of |i|, whose value times the sign is i. */
  lemma DecimalParts(i: int) returns (prefix: string, negative: bool, digits: string)
    ensures IntToDecimal(i) == prefix + digits
    ensures negative == (i < 0) && prefix == (if negative then "-" else "")
    ensures |digits| >= 1 && AllDigits(digits) && ApplySign(negative, DigitsValue(digits)) == i
  {
    var n: nat := if i < 0 then -i else i;
    digits := NatToDecimal(n);
    DigitsValueOfDecimal(n);
    negative := i < 0;
    if negative {
      prefix := "-";
    } else {
      prefix := "";
      assert prefix + digits == digits;
    }
  }


  /** A '-' or no prefix before a body that starts with a digit is read as that sign. */
  lemma SignedBody(prefix: string, body: string)
    requires prefix == "-" || prefix == ""
    requires |body| >= 1 && IsDigit(body[0])
    ensures SignedDigits(prefix + body) == (prefix == "-", body)
  {
    if prefix == "-" {
      assert (prefix + body)[1..] == body;
    } else {
      assert prefix + body == body;
    }
  }

  /** Digits, optionally followed by '.' and more digits, parse to the value of the digits. */
  lemma ParseBody(s: string, negative: bool, digits: string, rest: string, frac: string)
    requires SignedDigits(s) == (negative, digits + rest)
    requires |digits| >= 1 && AllDigits(digits) && AllDigits(frac)
    requires (rest == [] && frac == []) || rest == "." + frac
    ensures ParseDecimalTruncated(s) == Some(ApplySign(negative, DigitsValue(digits)))
  {
    var body := digits + rest;
    DotOfDigits(digits, rest);
    assert body[..|digits|] == digits;
    if rest != [] {
      assert body[|digits| + 1..] == frac;
    }
  }


  lemma {:induction false} DotOfDigits(digits: string, rest: string)
    requires AllDigits(digits)
    requires rest == [] || rest[0] == '.'
    ensures DotIndex(digits + rest) == |digits|
  {
    if digits != [] {
      assert (digits + rest)[1..] == digits[1..] + rest;
      DotOfDigits(digits[1..], rest);
    }
  }

  /** str.lower() restricted to ASCII letters. */
  function Lower(s: string): (r: string)
    ensures |r| == |s|
    ensures forall k :: 0 <= k < |s| ==> ('A' <= s[k] <= 'Z' ==> r[k] as int == s[k] as int + 32)
    ensures forall k :: 0 <= k < |s| ==> (!('A' <= s[k] <= 'Z') ==> r[k] == s[k])
  {
    if s == [] then []
    else [if 'A' <= s[0] <= 'Z' then (s[0] as int + 32) as char else s[0]] + Lower(s[1..])
  }
}
