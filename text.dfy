/**
 * The string operations the orchestrator relies on, with Python's meaning:
 * `f"{n:03d}"`, `int(s)`, `s.split(c)` and negative indexing of its result.
 */
module Text {
  import opened Common

  predicate IsDigit(c: char) {
    '0' <= c <= '9'
  }

  predicate AllDigits(s: string) {
    forall i :: 0 <= i < |s| ==> IsDigit(s[i])
  }

  function DigitChar(d: nat): (c: char)
    requires d < 10
    ensures IsDigit(c)
  {
    ['0', '1', '2', '3', '4', '5', '6', '7', '8', '9'][d]
  }

  function DigitValue(c: char): (d: nat)
    requires IsDigit(c)
    ensures d < 10
  {
    (c as int - '0' as int) as nat
  }

  /** The decimal numeral of `n`, without leading zeros. */
  function Decimal(n: nat): (s: string)
    ensures |s| >= 1 && AllDigits(s)
  {
    if n < 10 then [DigitChar(n)] else Decimal(n / 10) + [DigitChar(n % 10)]
  }

  /** The value of a string of decimal digits (leading zeros allowed). */
  function DigitsValue(s: string): nat
    requires AllDigits(s)
  {
    if s == [] then 0 else DigitsValue(s[..|s| - 1]) * 10 + DigitValue(s[|s| - 1])
  }

  function Zeros(k: nat): (s: string)
    ensures |s| == k && AllDigits(s)
  {
    if k == 0 then [] else Zeros(k - 1) + ['0']
  }

  /** Python's `f"{n:03d}"` for a non-negative `n`. */
  function ZeroPad3(n: nat): string {
    var d := Decimal(n);
    if |d| < 3 then Zeros(3 - |d|) + d else d
  }

  const InvalidLiteral := "invalid literal for int() with base 10: '"

  /**
   * Python's `int(s)` on the strings this code feeds it: a non-empty run of
   * ASCII digits parses, anything else raises ValueError.
   */
  function ParseInt(s: string): (r: Result<nat>)
    ensures r.Ok? <==> s != [] && AllDigits(s)
  {
    if s != [] && AllDigits(s) then Ok(DigitsValue(s))
    else Err(ValueError(InvalidLiteral + s + "'"))
  }

  lemma {:induction false} DecimalValue(n: nat)
    ensures DigitsValue(Decimal(n)) == n
  {
    if n >= 10 {
      var d := Decimal(n);
      assert d[..|d| - 1] == Decimal(n / 10);
      DecimalValue(n / 10);
    }
  }

  lemma {:induction false} LeadingZerosValue(k: nat, s: string)
    requires AllDigits(s)
    ensures AllDigits(Zeros(k) + s)
    ensures DigitsValue(Zeros(k) + s) == DigitsValue(s)
    decreases |s|
  {
    var z := Zeros(k) + s;
    if s == [] {
      assert z == Zeros(k);
      ZerosValue(k);
    } else {
      assert z[..|z| - 1] == Zeros(k) + s[..|s| - 1];
      LeadingZerosValue(k, s[..|s| - 1]);
    }
  }

  lemma {:induction false} ZerosValue(k: nat)
    ensures DigitsValue(Zeros(k)) == 0
  {
    if k > 0 {
      assert Zeros(k)[..k - 1] == Zeros(k - 1);
      ZerosValue(k - 1);
    }
  }

  /**
   * A padded ordinal has at least three digits, exactly three below 1000,
   * and `int()` reads the ordinal back from it.
   */
  lemma ZeroPad3Parses(n: nat)
    ensures AllDigits(ZeroPad3(n)) && |ZeroPad3(n)| >= 3
    ensures n < 1000 ==> |ZeroPad3(n)| == 3
    ensures ParseInt(ZeroPad3(n)) == Ok(n)
  {
    var d := Decimal(n);
    DecimalValue(n);
    DecimalLength(n);
    if |d| < 3 {
      LeadingZerosValue(3 - |d|, d);
    }
  }

  lemma {:induction false} DecimalLength(n: nat)
    ensures n < 10 ==> |Decimal(n)| == 1
    ensures 10 <= n < 100 ==> |Decimal(n)| == 2
    ensures 100 <= n < 1000 ==> |Decimal(n)| == 3
    ensures n >= 100 ==> |Decimal(n)| >= 3
  {
    if n >= 10 {
      DecimalLength(n / 10);
    }
  }

  /** Python's `s.split(c)`: every occurrence of `c` separates two parts. */
  function Split(s: string, c: char): (parts: seq<string>)
    ensures |parts| >= 1
  {
    if s == [] then [""]
    else if s[0] == c then [""] + Split(s[1..], c)
    else
      var rest := Split(s[1..], c);
      [[s[0]] + rest[0]] + rest[1..]
  }

  /** Python's `c.join(parts)`. */
  function Join(parts: seq<string>, c: char): string
    requires |parts| >= 1
  {
    if |parts| == 1 then parts[0] else parts[0] + [c] + Join(parts[1..], c)
  }

  /** Splitting never leaves a separator inside a part, and joining undoes it. */
  lemma {:induction false} SplitJoin(s: string, c: char)
    ensures forall i :: 0 <= i < |Split(s, c)| ==> c !in Split(s, c)[i]
    ensures Join(Split(s, c), c) == s
  {
    if s != [] {
      SplitJoin(s[1..], c);
      var rest := Split(s[1..], c);
      if s[0] == c {
        assert ([""] + rest)[1..] == rest;
      } else {
        var parts := [[s[0]] + rest[0]] + rest[1..];
        assert parts[1..] == rest[1..];
        if |rest| == 1 {
          assert Join(parts, c) == [s[0]] + rest[0] == s;
        } else {
          assert Join(parts, c) == [s[0]] + rest[0] + [c] + Join(rest[1..], c);
          assert Join(rest, c) == rest[0] + [c] + Join(rest[1..], c);
        }
      }
    }
  }

  lemma {:induction false} SplitNoSeparator(s: string, c: char)
    requires c !in s
    ensures Split(s, c) == [s]
  {
    if s != [] {
      assert s[0] in s;
      assert forall x :: x in s[1..] ==> x in s;
      SplitNoSeparator(s[1..], c);
      assert [s[0]] + s[1..] == s;
    }
  }

  /** A separator followed by a separator-free tail adds exactly that tail as the last part. */
  lemma {:induction false} SplitAppend(a: string, c: char, b: string)
    requires c !in b
    ensures Split(a + [c] + b, c) == Split(a, c) + [b]
  {
    if a == [] {
      assert a + [c] + b == [c] + b;
      assert ([c] + b)[1..] == b;
      SplitNoSeparator(b, c);
    } else {
      var s := a + [c] + b;
      assert s[1..] == a[1..] + [c] + b;
      SplitAppend(a[1..], c, b);
    }
  }

  /** A separator-free head followed by a separator is the first part. */
  lemma {:induction false} SplitFirst(a: string, c: char, b: string)
    requires c !in a
    ensures Split(a + [c] + b, c)[0] == a
  {
    if a != [] {
      var s := a + [c] + b;
      assert s[1..] == a[1..] + [c] + b;
      assert a[0] in a;
      assert forall x :: x in a[1..] ==> x in a;
      SplitFirst(a[1..], c, b);
      assert [a[0]] + a[1..] == a;
    }
  }

  /** Python's `parts[-k]`: IndexError when there are fewer than `k` parts. */
  function FromEnd(parts: seq<string>, k: nat): (r: Result<string>)
    requires k >= 1
    ensures r.Ok? <==> k <= |parts|
    ensures r.Ok? ==> r.value == parts[|parts| - k]
  {
    if k <= |parts| then Ok(parts[|parts| - k]) else Err(IndexError("list index out of range"))
  }

  function Last(parts: seq<string>): string
    requires |parts| >= 1
  {
    parts[|parts| - 1]
  }
}
