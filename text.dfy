/** String helpers shared by the generate route model: JavaScript's
    UTF-16 length, ASCII case folding, decimal rendering of numbers as a
    template literal does it, and `Array.prototype.join`. */
module Text {

  /** Number of UTF-16 code units JavaScript's `length` reports for `s`:
      a code point above U+FFFF takes a surrogate pair. */
  function Utf16Length(s: string): (n: nat)
    ensures |s| <= n <= 2 * |s|
    ensures n == 0 <==> s == []
  {
    if s == [] then 0
    else (if s[0] as int > 0xFFFF then 2 else 1) + Utf16Length(s[1..])
  }

  /** Code units add up over concatenation. */
  lemma {:induction false} Utf16Concat(a: string, b: string)
    ensures Utf16Length(a + b) == Utf16Length(a) + Utf16Length(b)
    decreases |a|
  {
    if a == [] {
      assert a + b == b;
    } else {
      assert (a + b)[0] == a[0];
      assert (a + b)[1..] == a[1..] + b;
      Utf16Concat(a[1..], b);
    }
  }

  /** ASCII case folding. Without the `u` flag, a case-insensitive regular
      expression never canonicalises a character outside ASCII to an ASCII
      letter, so against ASCII keywords only ASCII letters match
      case-insensitively. `Lower` is that folding, not the full non-`u`
      canonicalisation, which also pairs letters such as é and É. */
  function Lower(c: char): (d: char)
    ensures 'A' <= c <= 'Z' ==> 'a' <= d <= 'z' && d as int == c as int + 32
    ensures !('A' <= c <= 'Z') ==> d == c
  {
    if 'A' <= c <= 'Z' then (c as int + 32) as char else c
  }

  function LowerAll(s: string): (r: string)
    ensures |r| == |s|
    ensures forall i :: 0 <= i < |s| ==> r[i] == Lower(s[i])
  {
    if s == [] then [] else [Lower(s[0])] + LowerAll(s[1..])
  }

  predicate IsDigit(c: char) {
    '0' <= c <= '9'
  }

  function DigitChar(d: nat): (c: char)
    requires d < 10
    ensures IsDigit(c) && c as int - '0' as int == d
  {
    (d + '0' as int) as char
  }

  /** Decimal rendering of a natural number, as `${n}` gives it. */
  function NatToString(n: nat): (s: string)
    ensures |s| >= 1
    ensures forall i :: 0 <= i < |s| ==> IsDigit(s[i])
    ensures n > 0 ==> s[0] != '0'
    decreases n
  {
    if n < 10 then [DigitChar(n)] else NatToString(n / 10) + [DigitChar(n % 10)]
  }

  /** The value a string of decimal digits denotes. */
  function DigitsValue(s: string): int
    decreases |s|
  {
    if s == [] then 0 else 10 * DigitsValue(s[..|s| - 1]) + (s[|s| - 1] as int - '0' as int)
  }

  /** Reading the rendered digits back gives the number: the rendering is
      faithful, and two different numbers never render alike. */
  lemma {:induction false} NatToStringRoundTrip(n: nat)
    ensures DigitsValue(NatToString(n)) == n
    decreases n
  {
    var s := NatToString(n);
    if n < 10 {
      assert s[..|s| - 1] == [];
    } else {
      NatToStringRoundTrip(n / 10);
      assert s[..|s| - 1] == NatToString(n / 10);
    }
  }

  lemma NatToStringInjective(m: nat, n: nat)
    requires NatToString(m) == NatToString(n)
    ensures m == n
  {
    NatToStringRoundTrip(m);
    NatToStringRoundTrip(n);
  }

  /** Decimal rendering of an integer, with a leading minus sign when
      it is negative. */
  function IntToString(i: int): (s: string)
    ensures |s| >= 1
    ensures i < 0 <==> s[0] == '-'
  {
    if i < 0 then "-" + NatToString(-i) else NatToString(i)
  }

  /** The rendering is the integer's decimal numeral: its digits denote the
      value, after a minus sign when it is negative. */
  lemma IntToStringDigits(i: int)
    ensures var s := IntToString(i);
      && (i >= 0 ==> DigitsValue(s) == i && forall k :: 0 <= k < |s| ==> IsDigit(s[k]))
      && (i < 0 ==> DigitsValue(s[1..]) == -i && forall k :: 1 <= k < |s| ==> IsDigit(s[k]))
      && (i > 0 ==> s[0] != '0')
      && (i < 0 ==> |s| >= 2 && s[1] != '0')
  {
    if i < 0 {
      NatToStringRoundTrip(-i);
      assert IntToString(i)[1..] == NatToString(-i);
    } else {
      NatToStringRoundTrip(i);
    }
  }

  /** `parts.join(sep)`: the parts in order, with `sep` between neighbours.
      It is empty for no parts, and otherwise opens with the first part. */
  function Join(parts: seq<string>, sep: string): (r: string)
    ensures |parts| == 0 ==> r == ""
    ensures |parts| >= 1 ==> OccursAt(parts[0], r, 0)
    decreases |parts|
  {
    if |parts| == 0 then ""
    else if |parts| == 1 then parts[0]
    else parts[0] + sep + Join(parts[1..], sep)
  }

  /** Joining one more part appends the separator and that part. */
  lemma {:induction false} JoinSnoc(parts: seq<string>, p: string, sep: string)
    requires |parts| >= 1
    ensures Join(parts + [p], sep) == Join(parts, sep) + sep + p
    decreases |parts|
  {
    if |parts| == 1 {
      assert (parts + [p])[1..] == [p];
    } else {
      assert (parts + [p])[1..] == parts[1..] + [p];
      JoinSnoc(parts[1..], p, sep);
    }
  }

  function TotalLength(parts: seq<string>): nat
  {
    if parts == [] then 0 else |parts[0]| + TotalLength(parts[1..])
  }

  /** The joined string is as long as its parts together with one
      separator between each pair of neighbours. */
  lemma {:induction false} JoinLength(parts: seq<string>, sep: string)
    requires |parts| >= 1
    ensures |Join(parts, sep)| == TotalLength(parts) + (|parts| - 1) * |sep|
    decreases |parts|
  {
    if |parts| > 1 {
      JoinLength(parts[1..], sep);
    }
  }

  /** Where part `i` starts in the joined string: after the parts before
      it and one separator for each of them. */
  function PartOffset(parts: seq<string>, sep: string, i: nat): nat
    requires i <= |parts|
  {
    TotalLength(parts[..i]) + i * |sep|
  }

  /** The joined string holds part `i` at its offset, and a separator
      right after it unless it is the last part; with `JoinLength` this
      leaves no room for anything else. */
  lemma {:induction false} JoinPlacesPart(parts: seq<string>, sep: string, i: nat)
    requires i < |parts|
    ensures OccursAt(parts[i], Join(parts, sep), PartOffset(parts, sep, i))
    ensures i < |parts| - 1 ==> OccursAt(sep, Join(parts, sep), PartOffset(parts, sep, i) + |parts[i]|)
    decreases i
  {
    var r := Join(parts, sep);
    if i == 0 {
      assert parts[..0] == [];
      if |parts| > 1 {
        assert r == parts[0] + sep + Join(parts[1..], sep);
        assert r[|parts[0]|..|parts[0]| + |sep|] == sep;
      }
    } else {
      var rest := parts[1..];
      var head := parts[0] + sep;
      assert r == head + Join(rest, sep);
      JoinPlacesPart(rest, sep, i - 1);
      assert parts[..i][1..] == rest[..i - 1];
      assert PartOffset(parts, sep, i) == |head| + PartOffset(rest, sep, i - 1);
      assert rest[i - 1] == parts[i];
      OccursAfter(parts[i], head, Join(rest, sep), PartOffset(rest, sep, i - 1));
      if i < |parts| - 1 {
        OccursAfter(sep, head, Join(rest, sep), PartOffset(rest, sep, i - 1) + |parts[i]|);
      }
    }
  }

  /** An occurrence stays one, shifted, when text is put in front. */
  lemma OccursAfter(needle: string, front: string, s: string, at: int)
    requires OccursAt(needle, s, at)
    ensures OccursAt(needle, front + s, |front| + at)
  {
    assert (front + s)[|front| + at..|front| + at + |needle|] == s[at..at + |needle|];
  }

  /** `needle` occurs in `s` starting at index `at`. */
  predicate OccursAt(needle: string, s: string, at: int)
  {
    0 <= at && at + |needle| <= |s| && s[at..at + |needle|] == needle
  }
}
