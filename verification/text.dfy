/**
 * The string primitives the middleware and the REST service rely on:
 * `char.IsWhiteSpace`, `string.IsNullOrWhiteSpace`, `string.Split(",")`, and the decimal
 * rendering of integers used by string interpolation.
 */
module Text {
  import opened Wrappers

  /** `char.IsWhiteSpace`: the Unicode space separators, the line and paragraph separators,
      and the control characters U+0009..U+000D and U+0085. */
  predicate IsWhiteSpace(c: char): (white: bool)
    // among the ASCII control characters only tab, line feed, vertical tab, form feed and
    // carriage return count; no other ASCII character but the space does, DEL included
    ensures c < ' ' ==> (white <==> '\t' <= c <= '\r')
    ensures ' ' < c <= '\U{007F}' ==> !white
    // zero-width space and the byte-order mark are not white space
    ensures c == '\U{200B}' || c == '\U{FEFF}' ==> !white
    ensures white ==> c <= '\U{3000}'
  {
    || c == ' '
    || ('\t' <= c <= '\r')
    || c == '\U{0085}' || c == '\U{00A0}' || c == '\U{1680}'
    || ('\U{2000}' <= c <= '\U{200A}')
    || c == '\U{2028}' || c == '\U{2029}' || c == '\U{202F}' || c == '\U{205F}' || c == '\U{3000}'
  }

  /** `string.IsNullOrWhiteSpace`: null, empty, or whitespace only. */
  predicate IsNullOrWhiteSpace(s: Option<string>): (blank: bool)
    ensures s.None? || s == Some("") ==> blank
  {
    s.None? || forall i :: 0 <= i < |s.value| ==> IsWhiteSpace(s.value[i])
  }

  /** A string that begins or ends with a character other than white space is not blank. */
  lemma NotBlankAtEnds(s: string)
    requires |s| > 0
    ensures !IsWhiteSpace(s[0]) ==> !IsNullOrWhiteSpace(Some(s))
    ensures !IsWhiteSpace(s[|s| - 1]) ==> !IsNullOrWhiteSpace(Some(s))
  {
  }

  /** A blank string stays blank when more white space or another blank string is appended,
      and a string is blank only when both of its parts are. */
  lemma {:induction false} BlankConcat(s: string, t: string)
    ensures IsNullOrWhiteSpace(Some(s + t)) <==> IsNullOrWhiteSpace(Some(s)) && IsNullOrWhiteSpace(Some(t))
  {
    var u := s + t;
    assert forall i :: 0 <= i < |s| ==> u[i] == s[i];
    assert forall i :: 0 <= i < |t| ==> u[|s| + i] == t[i];
    if IsNullOrWhiteSpace(Some(s)) && IsNullOrWhiteSpace(Some(t)) {
      forall i | 0 <= i < |u|
        ensures IsWhiteSpace(u[i])
      {
        if i >= |s| {
          assert u[i] == t[i - |s|];
        }
      }
    }
  }

  /** The length .NET reports for a string: its UTF-16 code units. A character outside the
      Basic Multilingual Plane is a surrogate pair and counts twice. */
  function Utf16Length(s: string): (units: nat)
    ensures |s| <= units <= 2 * |s|
    ensures (forall i :: 0 <= i < |s| ==> s[i] <= '\U{FFFF}') ==> units == |s|
    ensures (exists i :: 0 <= i < |s| && s[i] > '\U{FFFF}') ==> units > |s|
  {
    if s == [] then 0
    else (if s[0] > '\U{FFFF}' then 2 else 1) + Utf16Length(s[1..])
  }

  /** String interpolation renders a null string as the empty string. */
  function Render(s: Option<string>): string {
    s.GetOr("")
  }

  // ---------------------------------------------------------------- Split / Join

  /** `s.Split(sep)` with no options: every piece, empty ones included, in order. */
  function Split(s: string, sep: char): (pieces: seq<string>)
    ensures |pieces| >= 1
    ensures forall i :: 0 <= i < |pieces| ==> sep !in pieces[i]
    ensures |pieces| == Occurrences(s, sep) + 1
  {
    if s == [] then [""]
    else
      var rest := Split(s[1..], sep);
      if s[0] == sep then [""] + rest
      else [[s[0]] + rest[0]] + rest[1..]
  }

  /** Number of occurrences of `c` in `s`. */
  function Occurrences(s: string, c: char): nat {
    if s == [] then 0 else (if s[0] == c then 1 else 0) + Occurrences(s[1..], c)
  }

  /** `string.Join(sep, pieces)` for a non-empty list of pieces. */
  function Join(pieces: seq<string>, sep: char): string
    requires |pieces| >= 1
  {
    if |pieces| == 1 then pieces[0] else pieces[0] + [sep] + Join(pieces[1..], sep)
  }

  /** Splitting loses nothing: joining the pieces with the separator gives the input back. */
  lemma {:induction false} JoinSplit(s: string, sep: char)
    ensures Join(Split(s, sep), sep) == s
  {
    if s != [] {
      var rest := Split(s[1..], sep);
      JoinSplit(s[1..], sep);
      if s[0] == sep {
        assert ([""] + rest)[1..] == rest;
      } else if |rest| > 1 {
        var pieces := [[s[0]] + rest[0]] + rest[1..];
        assert pieces[1..] == rest[1..];
        assert Join(rest, sep) == rest[0] + [sep] + Join(rest[1..], sep);
      }
    }
  }

  /** Splitting a join of separator-free pieces recovers exactly those pieces. */
  lemma {:induction false} SplitJoin(pieces: seq<string>, sep: char)
    requires |pieces| >= 1
    requires forall i :: 0 <= i < |pieces| ==> sep !in pieces[i]
    ensures Split(Join(pieces, sep), sep) == pieces
  {
    if |pieces| == 1 {
      SplitFree(pieces[0], sep);
    } else {
      SplitJoin(pieces[1..], sep);
      SplitPrefix(pieces[0], Join(pieces[1..], sep), sep);
      assert Join(pieces, sep) == pieces[0] + [sep] + Join(pieces[1..], sep);
      assert [pieces[0]] + pieces[1..] == pieces;
    }
  }

  /** A string without the separator splits into itself. */
  lemma {:induction false} SplitFree(s: string, sep: char)
    requires sep !in s
    ensures Split(s, sep) == [s]
  {
    if s != [] {
      assert sep !in s[1..];
      SplitFree(s[1..], sep);
      assert [s[0]] + s[1..] == s;
    }
  }

  /** A separator-free prefix followed by the separator becomes one piece of its own. */
  lemma {:induction false} SplitPrefix(p: string, t: string, sep: char)
    requires sep !in p
    ensures Split(p + [sep] + t, sep) == [p] + Split(t, sep)
  {
    if p == [] {
      assert p + [sep] + t == [sep] + t;
      assert ([sep] + t)[1..] == t;
    } else {
      assert (p + [sep] + t)[1..] == p[1..] + [sep] + t;
      assert sep !in p[1..];
      SplitPrefix(p[1..], t, sep);
      assert [p[0]] + p[1..] == p;
    }
  }

  // ---------------------------------------------------------------- decimal digits

  predicate IsDigit(c: char) {
    '0' <= c <= '9'
  }

  predicate AllDigits(s: string) {
    forall i :: 0 <= i < |s| ==> IsDigit(s[i])
  }

  function DigitChar(d: nat): (c: char)
    requires d < 10
    ensures IsDigit(c) && DigitValue(c) == d
  {
    (('0' as int) + d) as char
  }

  function DigitValue(c: char): nat
    requires IsDigit(c)
  {
    (c as int) - ('0' as int)
  }

  /** Decimal rendering of a natural number, as `int.ToString()` prints it. */
  function NatToString(n: nat): (s: string)
    ensures |s| >= 1 && AllDigits(s)
    ensures |s| > 1 ==> s[0] != '0'
  {
    if n < 10 then [DigitChar(n)] else NatToString(n / 10) + [DigitChar(n % 10)]
  }

  /** Decimal rendering of an integer: a leading `-` for negative values. */
  function IntToString(i: int): (s: string)
    ensures |s| >= 1
    ensures s[0] == '-' <==> i < 0
  {
    if i < 0 then "-" + NatToString(-i) else NatToString(i)
  }

  /** The value of a string of decimal digits. */
  function ParseNat(s: string): nat
    requires AllDigits(s)
  {
    if s == [] then 0 else ParseNat(s[..|s| - 1]) * 10 + DigitValue(s[|s| - 1])
  }

  /** Reading the rendering of `n` gives `n` back. */
  lemma {:induction false} ParseNatToString(n: nat)
    ensures ParseNat(NatToString(n)) == n
  {
    if n >= 10 {
      var s := NatToString(n);
      assert s[..|s| - 1] == NatToString(n / 10);
      ParseNatToString(n / 10);
    }
  }

  /** Distinct integers render differently: the rendering can be read back. */
  lemma IntToStringInjective(i: int, j: int)
    ensures i != j ==> IntToString(i) != IntToString(j)
  {
    if IntToString(i) == IntToString(j) {
      var s := IntToString(i);
      var m: nat := if i < 0 then -i else i;
      var k: nat := if j < 0 then -j else j;
      assert (i < 0) == (j < 0);
      var a := NatToString(m);
      var b := NatToString(k);
      if i < 0 {
        assert s == "-" + a && s == "-" + b;
        assert a == s[1..] == b;
      } else {
        assert a == s == b;
      }
      ParseNatToString(m);
      ParseNatToString(k);
      assert m == ParseNat(a) == ParseNat(b) == k;
    }
  }

  function Pow10(k: nat): (p: nat)
    ensures p >= 1
  {
    if k == 0 then 1 else 10 * Pow10(k - 1)
  }

  /** The last `width` decimal digits of `n`, zero-padded on the left (a custom format field). */
  function PadDigits(n: nat, width: nat): (s: string)
    ensures |s| == width && AllDigits(s)
  {
    if width == 0 then [] else PadDigits(n / 10, width - 1) + [DigitChar(n % 10)]
  }

  /** A number that fits the width is rendered without loss. */
  lemma {:induction false} ParsePadDigits(n: nat, width: nat)
    requires n < Pow10(width)
    ensures ParseNat(PadDigits(n, width)) == n
  {
    if width > 0 {
      var s := PadDigits(n, width);
      assert s[..|s| - 1] == PadDigits(n / 10, width - 1);
      assert s[|s| - 1] == DigitChar(n % 10);
      assert n / 10 < Pow10(width - 1) by {
        assert Pow10(width) == 10 * Pow10(width - 1);
      }
      ParsePadDigits(n / 10, width - 1);
      assert ParseNat(s) == ParseNat(s[..|s| - 1]) * 10 + n % 10;
    }
  }
}
