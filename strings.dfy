/**
 * The JavaScript string operations the bot relies on, written out over `seq<char>`:
 * `startsWith`, `split(" ")` with array destructuring, global `replace`, and the
 * decimal rendering a template literal gives an integer number.
 */
module Strings {
  import opened Common

  /** `s.startsWith(prefix)` */
  predicate StartsWith(s: string, prefix: string) {
    prefix <= s
  }

  // ---------------------------------------------------------------------------
  // split / join

  /**
   * `s.split(sep)` for a one-character separator: the maximal runs between
   * separators, so there is always one more piece than separators.
   */
  function Split(s: string, sep: char): (parts: seq<string>)
    ensures |parts| >= 1
    ensures forall i :: 0 <= i < |parts| ==> sep !in parts[i]
    decreases |s|
  {
    if |s| == 0 then [""]
    else if s[0] == sep then [""] + Split(s[1..], sep)
    else
      var rest := Split(s[1..], sep);
      [[s[0]] + rest[0]] + rest[1..]
  }

  /** `parts.join(sep)`, the inverse of `Split`. */
  function Join(parts: seq<string>, sep: char): string
    requires |parts| >= 1
    decreases |parts|
  {
    if |parts| == 1 then parts[0] else parts[0] + [sep] + Join(parts[1..], sep)
  }

  /** Joining the pieces of a split gives back the original string. */
  lemma {:induction false} JoinOfSplit(s: string, sep: char)
    ensures Join(Split(s, sep), sep) == s
    decreases |s|
  {
    if |s| == 0 {
    } else if s[0] == sep {
      JoinOfSplit(s[1..], sep);
      var parts := Split(s, sep);
      assert parts[1..] == Split(s[1..], sep);
      assert s == [sep] + s[1..];
    } else {
      JoinOfSplit(s[1..], sep);
      var rest := Split(s[1..], sep);
      var parts := Split(s, sep);
      assert parts[1..] == rest[1..];
      assert s == [s[0]] + s[1..];
      if |rest| == 1 {
        assert Join(parts, sep) == [s[0]] + rest[0];
      } else {
        assert Join(parts, sep) == [s[0]] + rest[0] + [sep] + Join(rest[1..], sep);
      }
    }
  }

  /** A separator-free prefix glues onto the first piece of whatever follows it. */
  lemma {:induction false} SplitWithPlainPrefix(p: string, t: string, sep: char)
    requires sep !in p
    ensures Split(p + t, sep) == [p + Split(t, sep)[0]] + Split(t, sep)[1..]
    decreases |p|
  {
    if |p| == 0 {
      var r := Split(t, sep);
      assert p + t == t && p + r[0] == r[0];
      assert r == [r[0]] + r[1..];
    } else {
      SplitWithPlainPrefix(p[1..], t, sep);
      assert (p + t)[0] == p[0];
      assert (p + t)[1..] == p[1..] + t;
      assert [p[0]] + (p[1..] + Split(t, sep)[0]) == p + Split(t, sep)[0];
    }
  }

  /** Splitting a join of separator-free pieces gives back the pieces. */
  lemma {:induction false} SplitOfJoin(parts: seq<string>, sep: char)
    requires |parts| >= 1
    requires forall i :: 0 <= i < |parts| ==> sep !in parts[i]
    ensures Split(Join(parts, sep), sep) == parts
    decreases |parts|
  {
    if |parts| == 1 {
      SplitWithPlainPrefix(parts[0], "", sep);
      assert parts[0] + "" == parts[0];
    } else {
      var t := [sep] + Join(parts[1..], sep);
      SplitOfJoin(parts[1..], sep);
      assert t[0] == sep && t[1..] == Join(parts[1..], sep);
      assert Split(t, sep) == [""] + parts[1..];
      SplitWithPlainPrefix(parts[0], t, sep);
      assert Join(parts, sep) == parts[0] + t;
      assert parts[0] + "" == parts[0];
      assert parts == [parts[0]] + parts[1..];
    }
  }

  /** Three separator-free pieces joined by the separator split back into themselves. */
  lemma SplitOfThree(a: string, b: string, c: string, sep: char)
    requires sep !in a && sep !in b && sep !in c
    ensures Split(a + [sep] + b + [sep] + c, sep) == [a, b, c]
  {
    var parts := [a, b, c];
    var tail := [b, c];
    assert parts[1..] == tail && tail[1..] == [c];
    assert Join(tail, sep) == b + [sep] + c;
    assert Join(parts, sep) == a + [sep] + Join(tail, sep);
    assert a + [sep] + (b + [sep] + c) == a + [sep] + b + [sep] + c;
    SplitOfJoin(parts, sep);
  }

  /** The element a destructuring pattern `[_, a, b] = parts` binds at position `i`. */
  function Nth(parts: seq<string>, i: nat): (r: Option<string>)
    ensures r.Some? <==> i < |parts|
    ensures r.Some? ==> r.value == parts[i]
  {
    if i < |parts| then Some(parts[i]) else None
  }

  // ---------------------------------------------------------------------------
  // global replace

  /**
   * `s.replace(pattern, replacement)` with a global pattern: scan left to
   * right, replacing every non-overlapping occurrence.
   */
  function ReplaceAll(s: string, pattern: string, replacement: string): string
    requires |pattern| > 0
    decreases |s|
  {
    if |s| == 0 then ""
    else if pattern <= s then replacement + ReplaceAll(s[|pattern|..], pattern, replacement)
    else [s[0]] + ReplaceAll(s[1..], pattern, replacement)
  }

  /** With a one-character pattern, replacing distributes over concatenation. */
  lemma {:induction false} ReplaceAllCharAppend(a: string, b: string, pattern: string, replacement: string)
    requires |pattern| == 1
    ensures ReplaceAll(a + b, pattern, replacement)
         == ReplaceAll(a, pattern, replacement) + ReplaceAll(b, pattern, replacement)
    decreases |a|
  {
    if |a| == 0 {
      assert a + b == b;
    } else {
      ReplaceAllCharAppend(a[1..], b, pattern, replacement);
      var s := a + b;
      assert s[0] == a[0] && s[1..] == a[1..] + b;
      if pattern[0] == a[0] {
        assert pattern == [a[0]];
        assert pattern <= s && pattern <= a;
      } else {
        assert !(pattern <= s) && !(pattern <= a);
      }
    }
  }

  /** A stretch that holds no copy of the pattern's first character is left as it is. */
  lemma {:induction false} ReplaceAllSkips(x: string, rest: string, pattern: string, replacement: string)
    requires |pattern| > 0 && pattern[0] !in x
    ensures ReplaceAll(x + rest, pattern, replacement) == x + ReplaceAll(rest, pattern, replacement)
    decreases |x|
  {
    if |x| == 0 {
      assert x + rest == rest;
    } else {
      ReplaceAllSkips(x[1..], rest, pattern, replacement);
      assert (x + rest)[0] == x[0];
      assert (x + rest)[1..] == x[1..] + rest;
    }
  }

  /** An occurrence at the front is replaced and the scan resumes after it. */
  lemma ReplaceAllHit(rest: string, pattern: string, replacement: string)
    requires |pattern| > 0
    ensures ReplaceAll(pattern + rest, pattern, replacement) == replacement + ReplaceAll(rest, pattern, replacement)
  {
    assert (pattern + rest)[|pattern|..] == rest;
  }

  // ---------------------------------------------------------------------------
  // decimal rendering of integers

  predicate IsDigit(c: char) {
    '0' <= c <= '9'
  }

  predicate AllDigits(s: string) {
    forall i :: 0 <= i < |s| ==> IsDigit(s[i])
  }

  function DigitChar(d: int): (c: char)
    requires 0 <= d < 10
    ensures IsDigit(c) && c as int - '0' as int == d
  {
    ('0' as int + d) as char
  }

  /** The decimal digits of a natural number, most significant first, no leading zeros. */
  function NatToDecimal(n: nat): (s: string)
    ensures |s| >= 1 && AllDigits(s)
    decreases n
  {
    if n < 10 then [DigitChar(n)] else NatToDecimal(n / 10) + [DigitChar(n % 10)]
  }

  /** The value of a string of decimal digits. */
  function DecimalToNat(s: string): nat
    requires AllDigits(s)
    decreases |s|
  {
    if |s| == 0 then 0
    else 10 * DecimalToNat(s[..|s| - 1]) + (s[|s| - 1] as int - '0' as int)
  }

  lemma {:induction false} DecimalRoundTrip(n: nat)
    ensures DecimalToNat(NatToDecimal(n)) == n
    decreases n
  {
    if n >= 10 {
      DecimalRoundTrip(n / 10);
      var s := NatToDecimal(n);
      assert s[..|s| - 1] == NatToDecimal(n / 10);
    }
  }

  /** `${i}` for an integer number `i`: a minus sign for negatives, then the digits. */
  function IntToDecimal(i: int): string {
    if i < 0 then "-" + NatToDecimal(-i) else NatToDecimal(i)
  }

  /** Reads back what `IntToDecimal` writes; `None` for anything else. */
  function ParseInt(s: string): Option<int> {
    if |s| >= 2 && s[0] == '-' && AllDigits(s[1..]) then Some(0 - DecimalToNat(s[1..]) as int)
    else if |s| >= 1 && AllDigits(s) then Some(DecimalToNat(s))
    else None
  }

  lemma IntDecimalRoundTrip(i: int)
    ensures ParseInt(IntToDecimal(i)) == Some(i)
  {
    if i < 0 {
      var s := IntToDecimal(i);
      assert s[1..] == NatToDecimal(-i);
      DecimalRoundTrip(-i);
    } else {
      DecimalRoundTrip(i);
      assert !IsDigit('-');
    }
  }

  /** Distinct integers render as distinct strings. */
  lemma IntToDecimalInjective(a: int, b: int)
    ensures IntToDecimal(a) == IntToDecimal(b) ==> a == b
  {
    IntDecimalRoundTrip(a);
    IntDecimalRoundTrip(b);
  }
}
