/**
 * Thousands separators: pb.numberWithCommas of the client, which writes an
 * integer in decimal and puts a comma before every group of three digits
 * counted from the right.
 */
module Thousands {
  import opened Delimited

  predicate IsDigit(c: char)
  {
    '0' <= c <= '9'
  }

  predicate AllDigits(s: string)
  {
    forall i :: 0 <= i < |s| ==> IsDigit(s[i])
  }

  function DigitChar(d: nat): (c: char)
    requires d < 10
    ensures IsDigit(c) && c as int - '0' as int == d
  {
    (d + '0' as int) as char
  }

  /** The decimal form of a natural number, as Number.prototype.toString gives it. */
  function Decimal(n: nat): (s: string)
    ensures |s| >= 1 && AllDigits(s)
    ensures |s| > 1 ==> s[0] != '0'
  {
    if n < 10 then [DigitChar(n)] else Decimal(n / 10) + [DigitChar(n % 10)]
  }

  /** The number a string of decimal digits denotes. */
  function DigitsValue(s: string): nat
    requires AllDigits(s)
  {
    if s == [] then 0 else 10 * DigitsValue(s[..|s| - 1]) + (s[|s| - 1] as int - '0' as int)
  }

  /** The digits with a comma before every complete group of three from the right. */
  function Group(s: string): string
  {
    if |s| <= 3 then s else Group(s[..|s| - 3]) + "," + s[|s| - 3..]
  }

  /** The string with its commas taken out. */
  function StripCommas(s: string): string
  {
    if s == [] then "" else StripCommas(s[..|s| - 1]) + (if s[|s| - 1] == ',' then "" else [s[|s| - 1]])
  }

  /** pb.numberWithCommas on an integer. */
  function NumberWithCommas(n: int): string
  {
    if n < 0 then "-" + Group(Decimal(-n)) else Group(Decimal(n))
  }

  /** Reads back a number written by NumberWithCommas. */
  function ParseGrouped(s: string): int
  {
    if s != [] && s[0] == '-' then
      var d := StripCommas(s[1..]);
      if AllDigits(d) then -(DigitsValue(d) as int) else 0
    else
      var d := StripCommas(s);
      if AllDigits(d) then DigitsValue(d) else 0
  }

  lemma {:induction false} DecimalValue(n: nat)
    ensures DigitsValue(Decimal(n)) == n
  {
    if n >= 10 {
      DecimalValue(n / 10);
      var s := Decimal(n / 10) + [DigitChar(n % 10)];
      assert s[..|s| - 1] == Decimal(n / 10);
    }
  }

  lemma {:induction false} StripCommasAppend(a: string, b: string)
    ensures StripCommas(a + b) == StripCommas(a) + StripCommas(b)
    decreases |b|
  {
    if b == [] {
      assert a + b == a;
    } else {
      var b', last := b[..|b| - 1], b[|b| - 1];
      StripCommasAppend(a, b');
      assert (a + b)[..|a + b| - 1] == a + b';
      assert (a + b)[|a + b| - 1] == last;
      var tail := if last == ',' then "" else [last];
      assert StripCommas(b) == StripCommas(b') + tail;
      assert StripCommas(a + b) == (StripCommas(a) + StripCommas(b')) + tail;
    }
  }

  lemma {:induction false} StripCommasFree(s: string)
    requires ',' !in s
    ensures StripCommas(s) == s
  {
    if s != [] {
      var t := s[..|s| - 1];
      assert ',' !in t by {
        forall i | 0 <= i < |t| ensures t[i] != ',' { assert t[i] == s[i]; }
      }
      StripCommasFree(t);
    }
  }

  /** Taking the commas out of a grouped string gives the digits back. */
  lemma {:induction false} StripGroup(s: string)
    requires ',' !in s
    ensures StripCommas(Group(s)) == s
    decreases |s|
  {
    if |s| <= 3 {
      StripCommasFree(s);
    } else {
      var hi, lo := s[..|s| - 3], s[|s| - 3..];
      assert ',' !in hi by {
        forall i | 0 <= i < |hi| ensures hi[i] != ',' { assert hi[i] == s[i]; }
      }
      assert ',' !in lo by {
        forall i | 0 <= i < |lo| ensures lo[i] != ',' { assert lo[i] == s[|s| - 3 + i]; }
      }
      StripGroup(hi);
      StripCommasFree(lo);
      assert StripCommas(",") == "" by {
        assert ","[..0] == "";
      }
      calc {
        StripCommas(Group(s));
        { assert Group(s) == (Group(hi) + ",") + lo; }
        StripCommas((Group(hi) + ",") + lo);
        { StripCommasAppend(Group(hi) + ",", lo); }
        StripCommas(Group(hi) + ",") + StripCommas(lo);
        { StripCommasAppend(Group(hi), ","); }
        hi + lo;
      }
      assert hi + lo == s;
    }
  }

  /**
   * The groups a grouped string consists of: the leading one holds one to
   * three digits, every later one exactly three, and together they are the
   * digits.
   */
  lemma {:induction false} GroupShape(s: string)
    requires |s| >= 1 && ',' !in s
    ensures var parts := Split(Group(s), ',');
      && 1 <= |parts[0]| <= 3
      && (forall i :: 1 <= i < |parts| ==> |parts[i]| == 3)
      && |parts| == (|s| + 2) / 3
    decreases |s|
  {
    if |s| <= 3 {
      SplitFree(s, ',');
    } else {
      var hi, lo := s[..|s| - 3], s[|s| - 3..];
      assert ',' !in hi by {
        forall i | 0 <= i < |hi| ensures hi[i] != ',' { assert hi[i] == s[i]; }
      }
      assert ',' !in lo by {
        forall i | 0 <= i < |lo| ensures lo[i] != ',' { assert lo[i] == s[|s| - 3 + i]; }
      }
      GroupShape(hi);
      SplitAround(Group(hi), lo, ',');
      SplitFree(lo, ',');
      assert Group(hi) + "," + lo == Group(hi) + [','] + lo;
    }
  }

  lemma DecimalHasNoComma(n: nat)
    ensures ',' !in Decimal(n)
  {
  }

  /** Reading a formatted number back gives the number: no digit is lost or invented. */
  lemma NumberWithCommasRoundTrip(n: int)
    ensures ParseGrouped(NumberWithCommas(n)) == n
  {
    var m: nat := if n < 0 then -n else n;
    DecimalHasNoComma(m);
    StripGroup(Decimal(m));
    DecimalValue(m);
    if n < 0 {
      var s := "-" + Group(Decimal(m));
      assert s[1..] == Group(Decimal(m));
    } else {
      var g := Group(Decimal(m));
      assert g[0] != '-' by {
        GroupShape(Decimal(m));
        var parts := Split(g, ',');
        if g[0] == '-' {
          JoinSplit(g, ',');
          assert StripCommas(g) == Decimal(m);
          FirstNonComma(g);
        }
      }
    }
  }

  /** A grouped string of digits starts with a digit. */
  lemma FirstNonComma(g: string)
    requires g != [] && g[0] == '-'
    ensures StripCommas(g) == [] || StripCommas(g)[0] == '-'
  {
    StripCommasAppend([g[0]], g[1..]);
    assert [g[0]] + g[1..] == g;
    assert StripCommas([g[0]]) == "-" by {
      assert [g[0]][..0] == "";
    }
  }

  /** Different numbers are written differently. */
  lemma NumberWithCommasInjective(a: int, b: int)
    requires NumberWithCommas(a) == NumberWithCommas(b)
    ensures a == b
  {
    NumberWithCommasRoundTrip(a);
    NumberWithCommasRoundTrip(b);
  }

  /** The outputs the server's tests expect of the population total. */
  lemma TestedFormats()
    ensures NumberWithCommas(1863) == "1,863"
    ensures NumberWithCommas(18755) == "18,755"
    ensures NumberWithCommas(909) == "909"
  {
    assert Decimal(1863) == "1863";
    assert Decimal(18755) == "18755";
    assert Decimal(909) == "909";
  }
}
