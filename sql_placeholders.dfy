/** Positional placeholders in SQL text (`$1`, `$2`, ...): how a template
    literal writes a placeholder number into the text, and a scanner that reads
    the placeholder numbers back out of a whole query, in text order. */
module SqlPlaceholders {

  predicate IsDigit(c: char) {
    '0' <= c <= '9'
  }

  function DigitChar(d: nat): (c: char)
    requires d < 10
    ensures IsDigit(c) && c as int - '0' as int == d
  {
    (d + '0' as int) as char
  }

  /** The decimal digits of `n`, as `${n}` interpolates a non-negative integer. */
  function Decimal(n: nat): (r: string)
    ensures 1 <= |r|
    ensures forall i :: 0 <= i < |r| ==> IsDigit(r[i])
    ensures r[0] == '0' ==> n == 0
    decreases n
  {
    if n < 10 then [DigitChar(n)] else Decimal(n / 10) + [DigitChar(n % 10)]
  }

  function DigitValue(c: char): (d: nat)
    requires IsDigit(c)
    ensures d < 10
  {
    c as int - '0' as int
  }

  /** The number a string of decimal digits denotes. */
  function ValueOf(s: string): nat
    requires forall i :: 0 <= i < |s| ==> IsDigit(s[i])
  {
    if s == [] then 0 else 10 * ValueOf(s[..|s| - 1]) + DigitValue(s[|s| - 1])
  }

  /** Reading the digits back gives the number that was written. */
  lemma {:induction false} ValueOfDecimal(n: nat)
    ensures ValueOf(Decimal(n)) == n
  {
    if n >= 10 {
      var s := Decimal(n);
      assert s[..|s| - 1] == Decimal(n / 10);
      ValueOfDecimal(n / 10);
    }
  }

  /** The run of digits that `s` starts with. */
  function Digits(s: string): (d: string)
    ensures d <= s
    ensures forall i :: 0 <= i < |d| ==> IsDigit(d[i])
    ensures |d| < |s| ==> !IsDigit(s[|d|])
  {
    if s == [] || !IsDigit(s[0]) then [] else [s[0]] + Digits(s[1..])
  }

  /** The placeholder numbers of `s` in text order: every `$` followed by a
      maximal run of digits. */
  function Scan(s: string): seq<nat>
    decreases |s|
  {
    if |s| < 2 then []
    else if s[0] == '$' && IsDigit(s[1]) then
      var d := Digits(s[1..]);
      [ValueOf(d)] + Scan(s[1 + |d|..])
    else Scan(s[1..])
  }

  /** Placeholder text for parameter `n`. */
  function Ref(n: nat): string {
    "$" + Decimal(n)
  }

  /** A digit run is not extended by text that does not start with a digit. */
  lemma {:induction false} DigitsAppend(a: string, b: string)
    requires b == [] || !IsDigit(b[0])
    ensures Digits(a + b) == Digits(a)
  {
    if a == [] {
      assert a + b == b;
    } else if IsDigit(a[0]) {
      assert (a + b)[1..] == a[1..] + b;
      DigitsAppend(a[1..], b);
    }
  }

  /** The scanner reading a placeholder at the front of `s`. */
  lemma ScanUnfoldRef(s: string)
    requires |s| >= 2 && s[0] == '$' && IsDigit(s[1])
    ensures Scan(s) == [ValueOf(Digits(s[1..]))] + Scan(s[1 + |Digits(s[1..])|..])
  {
  }

  /** Where `a` meets `b`, the digit run after a leading `$` of `a` is `a`'s. */
  lemma DigitsAtSeam(a: string, b: string)
    requires |a| >= 2
    requires b == [] || !IsDigit(b[0])
    ensures (a + b)[1..] == a[1..] + b
    ensures Digits((a + b)[1..]) == Digits(a[1..])
    ensures (a + b)[1 + |Digits(a[1..])|..] == a[1 + |Digits(a[1..])|..] + b
  {
    assert (a + b)[1..] == a[1..] + b;
    DigitsAppend(a[1..], b);
  }

  /** One step of the scanner over `a + b` when `a` starts with a placeholder:
      the placeholder is read from `a` alone. */
  lemma ScanRefStep(a: string, b: string)
    requires |a| >= 2 && a[0] == '$' && IsDigit(a[1])
    requires b == [] || !IsDigit(b[0])
    ensures var d := Digits(a[1..]);
      && Scan(a) == [ValueOf(d)] + Scan(a[1 + |d|..])
      && Scan(a + b) == [ValueOf(d)] + Scan(a[1 + |d|..] + b)
  {
    ScanUnfoldRef(a);
    ScanUnfoldRef(a + b);
    DigitsAtSeam(a, b);
  }

  /** One step of the scanner over `a + b` when `a` does not start with a
      placeholder. */
  lemma ScanPlainStep(a: string, b: string)
    requires |a| >= 2 && !(a[0] == '$' && IsDigit(a[1]))
    ensures Scan(a) == Scan(a[1..])
    ensures Scan(a + b) == Scan(a[1..] + b)
  {
    assert (a + b)[1..] == a[1..] + b;
  }

  /** Scanning distributes over a concatenation whose right part does not
      start with a digit: no placeholder straddles the seam. */
  lemma {:induction false} ScanAppend(a: string, b: string)
    requires b == [] || !IsDigit(b[0])
    ensures Scan(a + b) == Scan(a) + Scan(b)
    decreases |a|
  {
    if a == [] {
      assert a + b == b;
    } else if |a| == 1 {
      if b != [] {
        assert (a + b)[1..] == b;
      } else {
        assert a + b == a;
      }
    } else if a[0] == '$' && IsDigit(a[1]) {
      ScanRefStep(a, b);
      ScanAppend(a[1 + |Digits(a[1..])|..], b);
    } else {
      ScanPlainStep(a, b);
      ScanAppend(a[1..], b);
    }
  }

  /** Text without a `$` holds no placeholder. */
  lemma {:induction false} ScanPlain(s: string)
    requires '$' !in s
    ensures Scan(s) == []
    decreases |s|
  {
    if |s| >= 2 {
      assert s[0] in s;
      assert forall c :: c in s[1..] ==> c in s;
      ScanPlain(s[1..]);
    }
  }

  /** The placeholder text for `n` scans back to exactly `[n]`. */
  lemma ScanRef(n: nat)
    ensures Scan(Ref(n)) == [n]
  {
    var s := Ref(n);
    var d := Decimal(n);
    assert s[1..] == d;
    assert Digits(d) == d;
    assert s[1 + |d|..] == [];
    ValueOfDecimal(n);
  }

  /** Plain text followed by a placeholder scans to that placeholder alone. */
  lemma ScanLiteralRef(lit: string, n: nat)
    requires '$' !in lit
    ensures Scan(lit + Ref(n)) == [n]
  {
    ScanAppend(lit, Ref(n));
    ScanPlain(lit);
    ScanRef(n);
  }

  /** The first two placeholders as text. */
  lemma FirstRefs()
    ensures Ref(1) == "$1" && Ref(2) == "$2"
  {
    assert Decimal(1) == "1" && Decimal(2) == "2";
  }

  /** The placeholder numbers `1, 2, ..., n`. */
  function OneTo(n: nat): seq<nat> {
    if n == 0 then [] else OneTo(n - 1) + [n]
  }

  /** `OneTo(n)` lists exactly the numbers 1 to n, in increasing order. */
  lemma {:induction false} OneToCounts(n: nat)
    ensures |OneTo(n)| == n
    ensures forall i :: 0 <= i < n ==> OneTo(n)[i] == i + 1
  {
    if n > 0 {
      OneToCounts(n - 1);
    }
  }
}
