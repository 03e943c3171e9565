/**
 * The few functions of Go's strings and strconv packages that the version gate
 * relies on, written out with the edge cases Go gives them.
 */
module GoText {
  import opened Wrappers

  /** strings.TrimPrefix: s without its leading prefix, or s unchanged. */
  function TrimPrefix(s: string, prefix: string): (r: string)
    ensures prefix <= s ==> s == prefix + r
    ensures !(prefix <= s) ==> r == s
  {
    if prefix <= s then s[|prefix|..] else s
  }

  /**
   * strings.Split with a one-character separator: the pieces between the
   * separators, so "" splits into [""] and "a." into ["a", ""].
   */
  function Split(s: string, sep: char): (parts: seq<string>)
    ensures |parts| >= 1
    ensures forall i :: 0 <= i < |parts| ==> sep !in parts[i]
    decreases |s|
  {
    if s == [] then [""]
    else
      var rest := Split(s[1..], sep);
      if s[0] == sep then [""] + rest
      else [[s[0]] + rest[0]] + rest[1..]
  }

  /** strings.Join. */
  function Join(parts: seq<string>, sep: string): (r: string)
    ensures |parts| >= 1 ==> parts[0] <= r
  {
    if parts == [] then ""
    else if |parts| == 1 then parts[0]
    else parts[0] + sep + Join(parts[1..], sep)
  }

  lemma JoinPair(a: string, b: string, sep: string)
    ensures Join([a, b], sep) == a + sep + b
  {
    assert [a, b][1..] == [b];
  }

  /** Joining the pieces of a split with the separator gives back the string. */
  lemma {:induction false} JoinSplit(s: string, sep: char)
    ensures Join(Split(s, sep), [sep]) == s
    decreases |s|
  {
    if s != [] {
      var rest := Split(s[1..], sep);
      JoinSplit(s[1..], sep);
      if s[0] == sep {
        assert Split(s, sep) == [""] + rest;
        assert s == [s[0]] + s[1..];
      } else {
        var parts := Split(s, sep);
        assert parts == [[s[0]] + rest[0]] + rest[1..];
        if |rest| == 1 {
          assert s == [s[0]] + s[1..];
        } else {
          assert parts[1..] == rest[1..];
          assert Join(rest, [sep]) == rest[0] + [sep] + Join(rest[1..], [sep]);
          assert s == [s[0]] + s[1..];
        }
      }
    }
  }

  /** A string without the separator is a single piece. */
  lemma {:induction false} SplitWithoutSep(s: string, sep: char)
    requires sep !in s
    ensures Split(s, sep) == [s]
    decreases |s|
  {
    if s != [] {
      assert sep !in s[1..] by {
        forall i | 0 <= i < |s[1..]| ensures s[1..][i] != sep { assert s[1..][i] == s[i + 1]; }
      }
      SplitWithoutSep(s[1..], sep);
      assert [s[0]] + s[1..] == s;
    }
  }

  /** The first separator ends the first piece. */
  lemma {:induction false} SplitAtFirst(a: string, b: string, sep: char)
    requires sep !in a
    ensures Split(a + [sep] + b, sep) == [a] + Split(b, sep)
    decreases |a|
  {
    if a == [] {
      assert a + [sep] + b == [sep] + b;
      assert ([sep] + b)[1..] == b;
    } else {
      assert sep !in a[1..] by {
        forall i | 0 <= i < |a[1..]| ensures a[1..][i] != sep { assert a[1..][i] == a[i + 1]; }
      }
      SplitAtFirst(a[1..], b, sep);
      assert (a + [sep] + b)[1..] == a[1..] + [sep] + b;
      assert [a[0]] + a[1..] == a;
    }
  }

  predicate IsDigit(c: char) {
    '0' <= c <= '9'
  }

  predicate AllDigits(s: string) {
    forall i :: 0 <= i < |s| ==> IsDigit(s[i])
  }

  /** The value of a decimal digit; 0 for any other character. */
  function DigitValue(c: char): (v: nat)
    ensures v < 10
  {
    if IsDigit(c) then c as int - '0' as int else 0
  }

  /** The value of a string of decimal digits, most significant first. */
  function DigitsValue(s: string): nat
    decreases |s|
  {
    if s == [] then 0
    else DigitsValue(s[..|s| - 1]) * 10 + DigitValue(s[|s| - 1])
  }

  function Pow10(k: nat): (p: nat)
    ensures p >= 1
  {
    if k == 0 then 1 else 10 * Pow10(k - 1)
  }

  const MinInt64: int := -0x8000_0000_0000_0000
  const MaxInt64: int := 0x7FFF_FFFF_FFFF_FFFF

  /**
   * strconv.Atoi on a 64-bit platform: an optional sign followed by at least
   * one decimal digit, whose value fits in an int; anything else is an error (None).
   */
  function Atoi(s: string): (r: Option<int>)
    ensures r.Some? ==> MinInt64 <= r.value <= MaxInt64
    ensures r.Some? ==> |s| > 0 && (IsDigit(s[0]) || s[0] == '+' || s[0] == '-')
  {
    var signed := |s| > 0 && (s[0] == '+' || s[0] == '-');
    var digits := if signed then s[1..] else s;
    if digits == [] || !AllDigits(digits) then None
    else
      var v: int := if signed && s[0] == '-' then 0 - DigitsValue(digits) else DigitsValue(digits);
      if MinInt64 <= v <= MaxInt64 then Some(v) else None
  }

  /** A character other than a digit after the first position always makes Atoi fail. */
  lemma AtoiRejectsNonDigit(s: string, i: nat)
    requires 0 < i < |s| && !IsDigit(s[i])
    ensures Atoi(s) == None
  {
    var signed := s[0] == '+' || s[0] == '-';
    if signed {
      assert s[1..][i - 1] == s[i];
    }
  }

  /** The decimal digit for 0 <= d < 10. */
  function Digit(d: nat): (c: char)
    requires d < 10
    ensures IsDigit(c) && c as int - '0' as int == d
  {
    ('0' as int + d) as char
  }

  /** strconv.Itoa on a natural number: its shortest decimal spelling. */
  function Decimal(n: nat): (s: string)
    ensures |s| >= 1 && AllDigits(s)
    ensures '.' !in s
    ensures n < 10 <==> |s| == 1
    ensures n >= 100 ==> |s| >= 3
    ensures n < 100 ==> |s| <= 2
  {
    if n < 10 then [Digit(n)] else Decimal(n / 10) + [Digit(n % 10)]
  }

  lemma {:induction false} DecimalValue(n: nat)
    ensures DigitsValue(Decimal(n)) == n
  {
    if n >= 10 {
      DecimalValue(n / 10);
      var s := Decimal(n);
      assert s[..|s| - 1] == Decimal(n / 10);
    }
  }

  /** A plain digit string whose value fits in an int reads as that value. */
  lemma AtoiDigits(s: string)
    requires |s| > 0 && AllDigits(s) && DigitsValue(s) <= MaxInt64
    ensures Atoi(s) == Some(DigitsValue(s))
  {
    assert IsDigit(s[0]);
  }

  /** Decimal and Atoi are inverse on the values an int can hold. */
  lemma AtoiDecimal(n: nat)
    requires n <= MaxInt64
    ensures Atoi(Decimal(n)) == Some(n)
  {
    DecimalValue(n);
    AtoiDigits(Decimal(n));
  }

  lemma AllDigitsConcat(a: string, b: string)
    requires AllDigits(a) && AllDigits(b)
    ensures AllDigits(a + b)
  {
    forall i | 0 <= i < |a + b| ensures IsDigit((a + b)[i]) {
      if i < |a| { assert (a + b)[i] == a[i]; } else { assert (a + b)[i] == b[i - |a|]; }
    }
  }

  /** The value of a + b for non-empty b: the value of a and b's prefix, times ten, plus b's last digit. */
  lemma LastDigitOfConcat(a: string, b: string)
    requires b != []
    ensures DigitsValue(a + b) == DigitsValue(a + b[..|b| - 1]) * 10 + DigitValue(b[|b| - 1])
  {
    var ab := a + b;
    assert ab[..|ab| - 1] == a + b[..|b| - 1];
    assert ab[|ab| - 1] == b[|b| - 1];
  }

  /** Appending digits shifts the value of the prefix left. */
  lemma {:induction false} DigitsValueAppend(a: string, b: string)
    requires AllDigits(a) && AllDigits(b)
    ensures AllDigits(a + b)
    ensures DigitsValue(a + b) == DigitsValue(a) * Pow10(|b|) + DigitsValue(b)
    decreases |b|
  {
    AllDigitsConcat(a, b);
    if b == [] {
      assert a + b == a;
    } else {
      var b' := b[..|b| - 1];
      assert AllDigits(b');
      DigitsValueAppend(a, b');
      LastDigitOfConcat(a, b);
      var x, y, p := DigitsValue(a), DigitsValue(b'), Pow10(|b'|);
      var c := DigitValue(b[|b| - 1]);
      assert DigitsValue(b) == y * 10 + c;
      assert Pow10(|b|) == 10 * p;
      MulShift(x, p, y, c);
    }
  }

  lemma MulShift(x: int, p: int, y: int, c: int)
    ensures (x * p + y) * 10 + c == x * (10 * p) + (y * 10 + c)
  {
  }

  /** The number read from "1" followed by at most nine digits. */
  lemma LeadingOneValue(d: string)
    requires AllDigits(d) && |d| <= 9
    ensures Atoi("1" + d) == Some(Pow10(|d|) + DigitsValue(d))
  {
    var s := "1" + d;
    var v := Pow10(|d|) + DigitsValue(d);
    OneThenDigits(d);
    assert AllDigits(s) && DigitsValue(s) == v;
    NineDigitsSmall(d);
    assert v <= MaxInt64;
    AtoiDigits(s);
    assert Atoi(s) == Some(v);
  }

  /** "1" followed by nineteen or more digits is worth more than an int holds, so Atoi fails. */
  lemma LeadingOneOverflows(d: string)
    requires AllDigits(d) && |d| >= 19
    ensures Atoi("1" + d) == None
  {
    var s := "1" + d;
    OneThenDigits(d);
    Pow10Monotone(19, |d|);
    Pow10Add(10, 9);
    assert Pow10(10) == 10_000_000_000 && Pow10(9) == 1_000_000_000;
    assert s[0] == '1';
    assert DigitsValue(s) > MaxInt64;
  }

  lemma NineDigitsSmall(d: string)
    requires AllDigits(d) && |d| <= 9
    ensures Pow10(|d|) <= 1_000_000_000 && DigitsValue(d) < 1_000_000_000
  {
    DigitsBelow(d);
    Pow10Monotone(|d|, 9);
    assert Pow10(9) == 1_000_000_000;
  }

  /** k digits are worth less than 10^k. */
  lemma {:induction false} DigitsBelow(d: string)
    requires AllDigits(d)
    ensures DigitsValue(d) < Pow10(|d|)
    decreases |d|
  {
    if d != [] {
      var d' := d[..|d| - 1];
      assert AllDigits(d');
      DigitsBelow(d');
    }
  }

  lemma OneThenDigits(d: string)
    requires AllDigits(d)
    ensures AllDigits("1" + d) && DigitsValue("1" + d) == Pow10(|d|) + DigitsValue(d)
  {
    var one := "1";
    assert AllDigits(one);
    assert DigitsValue(one) == 1 by { assert one[..0] == ""; }
    DigitsValueAppend(one, d);
    var p := Pow10(|d|);
    assert DigitsValue(one + d) == DigitsValue(one) * p + DigitsValue(d);
    assert DigitsValue(one) * p == p;
  }

  /** The spelling of a number below 10^9 has at most nine digits. */
  lemma SmallSpelling(n: nat)
    requires n < 1_000_000_000
    ensures |Decimal(n)| <= 9
  {
    assert Pow10(9) == 1_000_000_000;
    DecimalFits(n, 9);
  }

  /** A number below 10^k is spelled with at most k digits. */
  lemma {:induction false} DecimalFits(n: nat, k: nat)
    requires 1 <= k && n < Pow10(k)
    ensures |Decimal(n)| <= k
  {
    if n >= 10 {
      assert k >= 2;
      assert n / 10 < Pow10(k - 1);
      DecimalFits(n / 10, k - 1);
    }
  }

  lemma {:induction false} Pow10Add(j: nat, k: nat)
    ensures Pow10(j + k) == Pow10(j) * Pow10(k)
    decreases j
  {
    if j > 0 {
      Pow10Add(j - 1, k);
      assert Pow10(j + k) == 10 * Pow10(j - 1 + k);
    }
  }

  lemma {:induction false} Pow10Monotone(j: nat, k: nat)
    requires j <= k
    ensures Pow10(j) <= Pow10(k)
  {
    if j < k { Pow10Monotone(j, k - 1); }
  }
}
