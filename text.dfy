/** The small pieces of JDK, Guava and commons-lang text handling that the
    registration path and its parser rely on: Java's 32- and 64-bit integer
    ranges, `String.valueOf(int)`, `Integer.valueOf(String)`,
    `Splitter.on(':').split` and `StringUtils.substringAfterLast`. */
module Text {
  import opened Wrappers

  const IntMin: int := -0x8000_0000
  const IntMax: int := 0x7fff_ffff

  /** A Java `int`. */
  type Int32 = x: int | IntMin <= x <= IntMax

  /** A Java `long`. */
  type Int64 = x: int | -0x8000_0000_0000_0000 <= x <= 0x7fff_ffff_ffff_ffff

  predicate IsDigit(c: char)
  {
    '0' <= c <= '9'
  }

  predicate AllDigits(s: string)
  {
    forall i | 0 <= i < |s| :: IsDigit(s[i])
  }

  function DigitValue(c: char): (d: nat)
    requires IsDigit(c)
    ensures d < 10
  {
    (c as int) - ('0' as int)
  }

  function DigitChar(d: nat): (c: char)
    requires d < 10
    ensures IsDigit(c) && DigitValue(c) == d
  {
    (('0' as int) + d) as char
  }

  /** The number a string of decimal digits denotes (leading zeros allowed). */
  function DigitsValue(s: string): nat
    requires AllDigits(s)
  {
    if s == [] then 0 else DigitsValue(s[..|s| - 1]) * 10 + DigitValue(s[|s| - 1])
  }

  /** Decimal rendering of a natural number without leading zeros. */
  function NatToString(n: nat): (s: string)
    ensures |s| >= 1 && AllDigits(s) && DigitsValue(s) == n
  {
    if n < 10 then [DigitChar(n)]
    else
      var prefix := NatToString(n / 10);
      var s := prefix + [DigitChar(n % 10)];
      assert s[..|s| - 1] == prefix;
      s
  }

  /** `String.valueOf(int)`: a minus sign for negative values, then the digits. */
  function IntToString(i: int): (s: string)
    ensures forall k | 0 <= k < |s| :: IsDigit(s[k]) || s[k] == '-'
    ensures ':' !in s && '/' !in s
  {
    if i < 0 then "-" + NatToString(-i) else NatToString(i)
  }

  /** How `String.format("%s", s)` renders a string reference: a null one prints as "null". */
  function FormatArg(s: Option<string>): string
  {
    if s.Some? then s.value else "null"
  }

  /** `Integer.valueOf(String)` (radix 10): an optional leading `-` or `+`,
      at least one digit, nothing else, and a value inside the `int` range;
      anything else is a `NumberFormatException`, here `None`. */
  function ParseInt(s: string): (r: Option<Int32>)
  {
    if s == [] then None
    else
      var digits := if s[0] == '-' || s[0] == '+' then s[1..] else s;
      if digits == [] || !AllDigits(digits) then None
      else
        var v: int := if s[0] == '-' then -(DigitsValue(digits) as int) else DigitsValue(digits);
        if IntMin <= v <= IntMax then Some(v) else None
  }

  /** Only an optional sign followed by decimal digits parses, a negative
      value needs the minus sign, and a plain digit string inside the `int`
      range parses to the number it denotes. */
  lemma ParseIntAccepts(s: string)
    ensures ParseInt(s).Some? ==> s != [] && forall k | 1 <= k < |s| :: IsDigit(s[k])
    ensures ParseInt(s).Some? && ParseInt(s).value < 0 ==> s[0] == '-'
    ensures s != [] && AllDigits(s) && DigitsValue(s) <= IntMax ==> ParseInt(s) == Some(DigitsValue(s))
  {
    if ParseInt(s).Some? {
      var digits := if s[0] == '-' || s[0] == '+' then s[1..] else s;
      assert forall k | 1 <= k < |s| :: s[k] == digits[k - (|s| - |digits|)];
    }
  }

  /** Parsing what `String.valueOf` printed gives back the same `int`. */
  lemma ParseIntRoundTrip(i: Int32)
    ensures ParseInt(IntToString(i)) == Some(i)
  {
    if i < 0 {
      var n: nat := -(i as int);
      assert ("-" + NatToString(n))[1..] == NatToString(n);
    }
  }

  /** `Splitter.on(sep).split(s)`: the pieces of `s` between separators, in
      order, empty pieces kept; the empty string gives one empty piece. */
  function Split(s: string, sep: char): (parts: seq<string>)
    ensures |parts| >= 1
    ensures (|parts| == 1) == (sep !in s)
    ensures forall k | 0 <= k < |parts| :: sep !in parts[k]
  {
    if s == [] then [""]
    else
      var rest := Split(s[1..], sep);
      assert sep in s <==> s[0] == sep || sep in s[1..];
      if s[0] == sep then [""] + rest
      else [[s[0]] + rest[0]] + rest[1..]
  }

  /** A piece free of the separator, then the separator, then the rest:
      the piece comes out whole and the rest is split on its own. */
  lemma {:induction false} SplitAfterPiece(a: string, sep: char, b: string)
    requires sep !in a
    ensures Split(a + [sep] + b, sep) == [a] + Split(b, sep)
  {
    if a == [] {
      assert ([] + [sep] + b)[1..] == b;
    } else {
      assert (a + [sep] + b)[1..] == a[1..] + [sep] + b;
      SplitAfterPiece(a[1..], sep, b);
      assert [a[0]] + a[1..] == a;
    }
  }

  /** The first piece is everything up to the first separator. */
  lemma {:induction false} SplitFirstPiece(a: string, sep: char, b: string)
    requires sep !in a
    requires b == [] || b[0] == sep
    ensures Split(a + b, sep)[0] == a
  {
    if a != [] {
      assert (a + b)[1..] == a[1..] + b;
      SplitFirstPiece(a[1..], sep, b);
      assert [a[0]] + a[1..] == a;
    } else {
      assert a + b == b;
    }
  }

  /** `StringUtils.substringAfterLast(s, sep)` for a one-character separator:
      the text after the last `sep`, and the empty string when `s` holds no
      `sep` (or is empty). */
  function SubstringAfterLast(s: string, sep: char): (r: string)
    ensures sep !in r
    ensures |r| <= |s| && r == s[|s| - |r|..]
    ensures sep in s ==> |r| < |s| && s[|s| - |r| - 1] == sep
    ensures sep !in s ==> r == ""
  {
    if sep !in s then ""
    else if s[|s| - 1] == sep then ""
    else
      var init := s[..|s| - 1];
      assert sep in init by {
        var k :| 0 <= k < |s| && s[k] == sep;
        assert init[k] == sep;
      }
      SubstringAfterLast(init, sep) + [s[|s| - 1]]
  }

  /** Whatever precedes it, the text after a final separator-free piece is
      exactly that piece. */
  lemma {:induction false} SubstringAfterLastOfSuffix(a: string, sep: char, b: string)
    requires sep !in b
    ensures SubstringAfterLast(a + [sep] + b, sep) == b
  {
    var s := a + [sep] + b;
    assert s[|a|] == sep;
    if b != [] {
      var init := b[..|b| - 1];
      assert s[..|s| - 1] == a + [sep] + init;
      SubstringAfterLastOfSuffix(a, sep, init);
      assert init + [b[|b| - 1]] == b;
    }
  }
}
