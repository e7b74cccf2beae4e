/**
 * String operations the handler relies on: the decimal rendering of a
 * timestamp inside a template literal, and `String.prototype.split` on a
 * single separator character.
 */
module Text {
  import opened Wrappers

  predicate IsDigit(c: char) {
    '0' <= c <= '9'
  }

  predicate AllDigits(s: string) {
    forall i :: 0 <= i < |s| ==> IsDigit(s[i])
  }

  function DigitChar(d: nat): (c: char)
    requires d < 10
    ensures IsDigit(c)
  {
    (48 + d) as char
  }

  function DigitValue(c: char): (d: nat)
    requires IsDigit(c)
    ensures d < 10
  {
    c as int - 48
  }

  /** `${n}` for a non-negative integer: base ten, no leading zeros. */
  function Decimal(n: nat): (s: string)
    ensures |s| >= 1
    ensures AllDigits(s)
    ensures n > 0 ==> s[0] != '0'
    decreases n
  {
    if n < 10 then [DigitChar(n)] else Decimal(n / 10) + [DigitChar(n % 10)]
  }

  /** Reads a run of decimal digits back as a number: the partner of Decimal. */
  function ParseDecimal(s: string): nat
    requires AllDigits(s)
    decreases |s|
  {
    if |s| == 0 then 0 else ParseDecimal(s[..|s| - 1]) * 10 + DigitValue(s[|s| - 1])
  }

  lemma {:induction false} ParseDecimalOfDecimal(n: nat)
    ensures ParseDecimal(Decimal(n)) == n
    decreases n
  {
    if n >= 10 {
      var s := Decimal(n);
      assert s[..|s| - 1] == Decimal(n / 10);
      ParseDecimalOfDecimal(n / 10);
    }
  }

  /** Leading digits never weigh less than the first digit's value. */
  lemma {:induction false} ParseDecimalAtLeastFirst(s: string)
    requires |s| >= 1 && AllDigits(s)
    ensures ParseDecimal(s) >= DigitValue(s[0])
    decreases |s|
  {
    if |s| > 1 {
      ParseDecimalAtLeastFirst(s[..|s| - 1]);
    }
  }

  /** A digit string without leading zeros (or the single digit `0`) is the rendering
      of its value: Decimal reaches every such string, so it is onto the canonical forms. */
  lemma {:induction false} DecimalOfParseDecimal(s: string)
    requires |s| >= 1 && AllDigits(s)
    requires s[0] != '0' || |s| == 1
    ensures Decimal(ParseDecimal(s)) == s
    decreases |s|
  {
    var last := s[|s| - 1];
    assert DigitChar(DigitValue(last)) == last;
    if |s| > 1 {
      var p := s[..|s| - 1];
      DecimalOfParseDecimal(p);
      ParseDecimalAtLeastFirst(p);
      var n := ParseDecimal(s);
      assert n == ParseDecimal(p) * 10 + DigitValue(last);
      assert n / 10 == ParseDecimal(p) && n % 10 == DigitValue(last);
      assert s == p + [last];
    }
  }

  /** Different numbers render to different strings. */
  lemma DecimalInjective(a: nat, b: nat)
    ensures Decimal(a) == Decimal(b) ==> a == b
  {
    ParseDecimalOfDecimal(a);
    ParseDecimalOfDecimal(b);
  }

  /** The separator-joined concatenation of `parts` (`parts.join(sep)`). */
  function Join(parts: seq<string>, sep: char): string
    requires |parts| >= 1
    decreases |parts|
  {
    if |parts| == 1 then parts[0] else parts[0] + [sep] + Join(parts[1..], sep)
  }

  /** `s.split(sep)`: the maximal separator-free pieces of `s`, in order. */
  function Split(s: string, sep: char): (parts: seq<string>)
    ensures |parts| >= 1
    ensures forall i :: 0 <= i < |parts| ==> sep !in parts[i]
    ensures Join(parts, sep) == s
    decreases |s|
  {
    if |s| == 0 then [""]
    else
      var rest := Split(s[1..], sep);
      if s[0] == sep then
        [""] + rest
      else
        var parts := [[s[0]] + rest[0]] + rest[1..];
        assert parts[1..] == rest[1..];
        assert s == [s[0]] + s[1..];
        parts
  }

  /** A separator-free prefix sticks to the first piece of whatever follows it. */
  lemma {:induction false} SplitAfterPrefix(w: string, s: string, sep: char)
    requires sep !in w
    ensures Split(w + s, sep) == [w + Split(s, sep)[0]] + Split(s, sep)[1..]
    decreases |w|
  {
    if |w| == 0 {
      assert w + s == s;
      var parts := Split(s, sep);
      assert w + parts[0] == parts[0];
      assert parts == [parts[0]] + parts[1..];
    } else {
      var w' := w[1..];
      assert (w + s)[1..] == w' + s;
      assert (w + s)[0] == w[0];
      SplitAfterPrefix(w', s, sep);
      assert [w[0]] + (w' + Split(s, sep)[0]) == w + Split(s, sep)[0];
    }
  }

  /** Splitting the join of separator-free pieces gives the pieces back. */
  lemma {:induction false} SplitJoin(parts: seq<string>, sep: char)
    requires |parts| >= 1
    requires forall i :: 0 <= i < |parts| ==> sep !in parts[i]
    ensures Split(Join(parts, sep), sep) == parts
    decreases |parts|
  {
    if |parts| == 1 {
      SplitAfterPrefix(parts[0], "", sep);
      assert parts[0] + "" == parts[0];
    } else {
      var tail := Join(parts[1..], sep);
      SplitJoin(parts[1..], sep);
      var after := [sep] + tail;
      assert after[1..] == tail;
      assert Split(after, sep) == [""] + parts[1..];
      assert Join(parts, sep) == parts[0] + after;
      SplitAfterPrefix(parts[0], after, sep);
      assert parts[0] + "" == parts[0];
      assert parts == [parts[0]] + parts[1..];
    }
  }

  /** `s.split(sep)[1]`: the text between the first and the second separator, or
      to the end when there is no second one; absent when `s` has no separator. */
  function SecondField(s: string, sep: char): (r: Option<string>)
    ensures r.None? <==> sep !in s
    ensures r.Some? ==> sep !in r.value
  {
    var parts := Split(s, sep);
    if |parts| >= 2 then Some(parts[1])
    else
      assert s == parts[0];
      None
  }

  /** With separator-free `a` and `b`, the second field of `a,b` is `b`, and so is
      the second field of `a,b,c` whatever `c` holds. */
  lemma SecondFieldOfFields(a: string, b: string, c: Option<string>, sep: char)
    requires sep !in a && sep !in b
    ensures c.None? ==> SecondField(a + [sep] + b, sep) == Some(b)
    ensures c.Some? ==> SecondField(a + [sep] + b + [sep] + c.value, sep) == Some(b)
  {
    if c.None? {
      SplitJoin([a, b], sep);
      assert Join([a, b], sep) == a + [sep] + b;
    } else {
      var tail := [sep] + c.value;
      assert tail[1..] == c.value;
      assert Split(tail, sep) == [""] + Split(c.value, sep);
      SplitAfterPrefix(b, tail, sep);
      assert b + "" == b;
      var rest := [sep] + (b + tail);
      assert rest[1..] == b + tail;
      assert Split(rest, sep)[1] == b;
      SplitAfterPrefix(a, rest, sep);
      assert a + [sep] + b + [sep] + c.value == a + rest;
    }
  }
}
