/**
 * The pieces of Go's `strings`, `strconv`, `fmt` and `path/filepath` packages that the catalog
 * relies on. Go strings are byte strings; here a string holds one char per byte, so char order
 * is byte order.
 */
module Text {
  import opened Wrappers

  predicate HasPrefix(s: string, prefix: string) {
    |prefix| <= |s| && s[..|prefix|] == prefix
  }

  predicate HasSuffix(s: string, suffix: string) {
    |suffix| <= |s| && s[|s| - |suffix|..] == suffix
  }

  /** strings.Contains */
  predicate Contains(s: string, sub: string) {
    exists i :: 0 <= i <= |s| && HasPrefix(s[i..], sub)
  }

  /** strings.TrimPrefix: drops one leading occurrence of `prefix`, if there is one. */
  function TrimPrefix(s: string, prefix: string): (r: string)
    ensures HasPrefix(s, prefix) ==> s == prefix + r
    ensures !HasPrefix(s, prefix) ==> r == s
  {
    if HasPrefix(s, prefix) then s[|prefix|..] else s
  }

  /** strings.TrimSuffix: drops one trailing occurrence of `suffix`, if there is one. */
  function TrimSuffix(s: string, suffix: string): (r: string)
    ensures HasSuffix(s, suffix) ==> s == r + suffix
    ensures !HasSuffix(s, suffix) ==> r == s
  {
    if HasSuffix(s, suffix) then s[..|s| - |suffix|] else s
  }

  /** Go's `<` on strings: byte-wise lexicographic order, a proper prefix first. */
  predicate Less(a: string, b: string)
    decreases |a|
  {
    if |a| == 0 then |b| > 0
    else if |b| == 0 then false
    else if a[0] != b[0] then a[0] < b[0]
    else Less(a[1..], b[1..])
  }

  lemma {:induction false} LessIrreflexive(a: string)
    ensures !Less(a, a)
    decreases |a|
  {
    if |a| > 0 {
      LessIrreflexive(a[1..]);
    }
  }

  lemma {:induction false} LessTransitive(a: string, b: string, c: string)
    requires Less(a, b) && Less(b, c)
    ensures Less(a, c)
    decreases |a|
  {
    if |a| > 0 && a[0] == b[0] && b[0] == c[0] {
      LessTransitive(a[1..], b[1..], c[1..]);
    }
  }

  /** Any two distinct strings are ordered one way or the other. */
  lemma {:induction false} LessTotal(a: string, b: string)
    ensures a == b || Less(a, b) || Less(b, a)
    decreases |a|
  {
    if |a| > 0 && |b| > 0 && a[0] == b[0] {
      LessTotal(a[1..], b[1..]);
      if a[1..] == b[1..] {
        assert a == [a[0]] + a[1..] && b == [b[0]] + b[1..];
      }
    }
  }

  lemma {:induction false} LessAsymmetric(a: string, b: string)
    requires Less(a, b)
    ensures !Less(b, a)
    decreases |a|
  {
    if |a| > 0 && a[0] == b[0] {
      LessAsymmetric(a[1..], b[1..]);
    }
  }

  predicate IsDigit(c: char) {
    '0' <= c <= '9'
  }

  predicate AllDigits(s: string) {
    forall i :: 0 <= i < |s| ==> IsDigit(s[i])
  }

  function DigitChar(d: nat): (c: char)
    requires d < 10
    ensures IsDigit(c)
  {
    ('0' as int + d) as char
  }

  /** The decimal digits of `n`, most significant first, without leading zeros. */
  function NaturalDigits(n: nat): string
    decreases n
  {
    if n < 10 then [DigitChar(n)] else NaturalDigits(n / 10) + [DigitChar(n % 10)]
  }

  /** fmt's `%d` (and strconv.Itoa) on an int. */
  function Itoa(n: int): string {
    if n < 0 then "-" + NaturalDigits(-n) else NaturalDigits(n)
  }

  /** The value of a string of decimal digits, read left to right as Go's Atoi loop does. */
  function DigitsValue(s: string): nat
    requires AllDigits(s)
    decreases |s|
  {
    if |s| == 0 then 0
    else DigitsValue(s[..|s| - 1]) * 10 + (s[|s| - 1] as int - '0' as int)
  }

  /**
   * strconv.Atoi: an optional sign followed by at least one decimal digit; None is Go's syntax
   * error, for which Atoi returns 0. (Go's range error needs 19 or more bytes of input.)
   */
  function Atoi(s: string): Option<int> {
    if |s| == 0 then None
    else
      var digits := if s[0] == '-' || s[0] == '+' then s[1..] else s;
      if |digits| == 0 || !AllDigits(digits) then None
      else
        var value: int := DigitsValue(digits);
        Some(if s[0] == '-' then -value else value)
  }

  lemma {:induction false} NaturalDigitsValue(n: nat)
    ensures |NaturalDigits(n)| > 0 && AllDigits(NaturalDigits(n))
    ensures DigitsValue(NaturalDigits(n)) == n
    decreases n
  {
    if n >= 10 {
      NaturalDigitsValue(n / 10);
      var d := NaturalDigits(n / 10);
      var s := d + [DigitChar(n % 10)];
      assert s[..|s| - 1] == d;
    }
  }

  /** Reading back what `%d` printed gives the number again. */
  lemma AtoiItoa(n: int)
    ensures Atoi(Itoa(n)) == Some(n)
  {
    var magnitude := if n < 0 then -n else n;
    var d := NaturalDigits(magnitude);
    NaturalDigitsValue(magnitude);
    assert IsDigit(d[0]);
    if n < 0 {
      var s := "-" + d;
      assert Itoa(n) == s;
      assert s[0] == '-' && s[1..] == d;
    } else {
      assert Itoa(n) == d;
    }
  }

  lemma ItoaInjective(a: int, b: int)
    requires Itoa(a) == Itoa(b)
    ensures a == b
  {
    AtoiItoa(a);
    AtoiItoa(b);
  }

  /** `%d` prints only digits and a minus sign. */
  lemma ItoaChars(n: int)
    ensures |Itoa(n)| > 0
    ensures forall i :: 0 <= i < |Itoa(n)| ==> IsDigit(Itoa(n)[i]) || Itoa(n)[i] == '-'
  {
    if n < 0 {
      NaturalDigitsValue(-n);
    } else {
      NaturalDigitsValue(n);
    }
  }

  /** filepath.Ext on a base name: the suffix from the last '.', or "" when there is none. */
  function Ext(name: string): (r: string)
    ensures HasSuffix(name, r)
    decreases |name|
  {
    if |name| == 0 then ""
    else if name[|name| - 1] == '.' then "."
    else
      var e := Ext(name[..|name| - 1]);
      if e == "" then "" else e + [name[|name| - 1]]
  }

  /** A name has extension ".m4v" exactly when it ends in ".m4v". */
  lemma ExtM4v(name: string)
    ensures Ext(name) == ".m4v" <==> HasSuffix(name, ".m4v")
  {
    if HasSuffix(name, ".m4v") {
      var n := |name|;
      assert name[n - 4..] == ".m4v";
      assert name[n - 1] == 'v' && name[n - 2] == '4' && name[n - 3] == 'm' && name[n - 4] == '.';
      var p1, p2, p3 := name[..n - 1], name[..n - 2], name[..n - 3];
      assert p3[|p3| - 1] == '.';
      assert Ext(p3) == ".";
      assert p2[..|p2| - 1] == p3 && p2[|p2| - 1] == 'm';
      assert Ext(p2) == ".m";
      assert p1[..|p1| - 1] == p2 && p1[|p1| - 1] == '4';
      assert Ext(p1) == ".m4";
      assert name[..n - 1] == p1;
    }
  }
}
