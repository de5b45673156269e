/** The bounds-parsing part of `update`: a range setting such as "5" or
    "-1 1" is split on single spaces, its numbers are read with parseInt,
    and the result becomes a [lo, hi] interval around the entity's current
    coordinate on that axis. */
module RangeParsing {
  import opened Wrappers
  import opened Numerics

  predicate IsDigit(c: char)
  {
    '0' <= c <= '9'
  }

  predicate AllDigits(s: string)
  {
    forall i :: 0 <= i < |s| ==> IsDigit(s[i])
  }

  function DigitValue(c: char): (n: nat)
    requires IsDigit(c)
    ensures n < 10
  {
    (c as int) - ('0' as int)
  }

  function DigitChar(n: nat): (c: char)
    requires n < 10
    ensures IsDigit(c) && DigitValue(c) == n
  {
    (('0' as int) + n) as char
  }

  // ---------------------------------------------------------------------
  // String.prototype.split(' ')

  /** JavaScript's `s.split(' ')`: every single space ends a token, so
      adjacent, leading or trailing spaces give empty tokens, and a string
      without a space is one token. */
  function Split(s: string): (tokens: seq<string>)
    ensures |tokens| >= 1
    ensures forall k :: 0 <= k < |tokens| ==> ' ' !in tokens[k]
    ensures |tokens| == 1 <==> ' ' !in s
  {
    if |s| == 0 then [""]
    else if s[0] == ' ' then [""] + Split(s[1..])
    else
      var rest := Split(s[1..]);
      assert s == [s[0]] + s[1..];
      [[s[0]] + rest[0]] + rest[1..]
  }

  /** Array.prototype.join(' '), the inverse of Split. */
  function Join(tokens: seq<string>): string
    requires |tokens| >= 1
  {
    if |tokens| == 1 then tokens[0] else tokens[0] + " " + Join(tokens[1..])
  }

  /** Splitting loses nothing: joining the tokens with spaces gives back the string. */
  lemma {:induction false} JoinSplit(s: string)
    ensures Join(Split(s)) == s
  {
    if |s| == 0 {
    } else if s[0] == ' ' {
      JoinSplit(s[1..]);
      assert Split(s)[1..] == Split(s[1..]);
    } else {
      JoinSplit(s[1..]);
      var rest := Split(s[1..]);
      if |rest| == 1 {
        assert Join(Split(s)) == [s[0]] + rest[0];
      } else {
        assert Split(s)[1..] == rest[1..];
        assert Join(rest) == rest[0] + " " + Join(rest[1..]);
      }
    }
  }

  /** A string without a space is a single token. */
  lemma {:induction false} SplitWithoutSpace(s: string)
    requires ' ' !in s
    ensures Split(s) == [s]
  {
    if |s| > 0 {
      assert ' ' !in s[1..];
      SplitWithoutSpace(s[1..]);
      assert s == [s[0]] + s[1..];
    }
  }

  /** Splitting `x + " " + y` splits x and y separately. */
  lemma {:induction false} SplitAtSpace(x: string, y: string)
    ensures Split(x + " " + y) == Split(x) + Split(y)
  {
    if |x| == 0 {
      assert x + " " + y == [' '] + y;
    } else if x[0] == ' ' {
      assert (x + " " + y)[1..] == x[1..] + " " + y;
      SplitAtSpace(x[1..], y);
    } else {
      assert (x + " " + y)[1..] == x[1..] + " " + y;
      SplitAtSpace(x[1..], y);
    }
  }

  // ---------------------------------------------------------------------
  // parseInt

  /** The number of decimal digits at the front of s. */
  function LeadingDigits(s: string): (n: nat)
    ensures n <= |s|
    ensures AllDigits(s[..n])
    ensures n < |s| ==> !IsDigit(s[n])
  {
    if |s| > 0 && IsDigit(s[0]) then
      var m := LeadingDigits(s[1..]);
      assert s[..1 + m] == [s[0]] + s[1..][..m];
      1 + m
    else 0
  }

  /** The value of a string of decimal digits, most significant first. */
  function DigitsValue(ds: string): nat
    requires AllDigits(ds)
  {
    if |ds| == 0 then 0 else 10 * DigitsValue(ds[..|ds| - 1]) + DigitValue(ds[|ds| - 1])
  }

  /** The text after an optional leading sign. */
  function Unsigned(s: string): string
  {
    if |s| > 0 && (s[0] == '-' || s[0] == '+') then s[1..] else s
  }

  /** parseInt(s) with no radix: an optional sign, then the longest run of
      decimal digits; anything after the run is ignored, and a string with no
      digit after the sign gives NaN (None). */
  function ParseInt(s: string): (r: Option<int>)
    ensures r.Some? <==> |Unsigned(s)| > 0 && IsDigit(Unsigned(s)[0])
    ensures r.Some? && |s| > 0 && s[0] == '-' ==> r.value <= 0
    ensures r.Some? && !(|s| > 0 && s[0] == '-') ==> r.value >= 0
  {
    var body := Unsigned(s);
    var n := LeadingDigits(body);
    if n == 0 then None
    else
      var magnitude: int := DigitsValue(body[..n]);
      if |s| > 0 && s[0] == '-' then Some(-magnitude) else Some(magnitude)
  }

  /** Decimal text of a natural number (String(n) in JavaScript). */
  function ShowNat(n: nat): (s: string)
    ensures |s| > 0 && AllDigits(s)
  {
    if n < 10 then [DigitChar(n)] else ShowNat(n / 10) + [DigitChar(n % 10)]
  }

  /** Decimal text of an integer, with a leading '-' when negative. */
  function ShowInt(i: int): (s: string)
    ensures |s| > 0 && ' ' !in s
  {
    if i < 0 then "-" + ShowNat(-i) else ShowNat(i)
  }

  lemma {:induction false} DigitsValueShowNat(n: nat)
    ensures DigitsValue(ShowNat(n)) == n
  {
    if n >= 10 {
      DigitsValueShowNat(n / 10);
      var s := ShowNat(n);
      assert s[..|s| - 1] == ShowNat(n / 10);
    }
  }

  /** A run of digits followed by a non-digit (or nothing) is read to its end. */
  lemma {:induction false} LeadingDigitsOfRun(ds: string, rest: string)
    requires AllDigits(ds)
    requires rest == [] || !IsDigit(rest[0])
    ensures LeadingDigits(ds + rest) == |ds|
  {
    if |ds| > 0 {
      assert (ds + rest)[1..] == ds[1..] + rest;
      LeadingDigitsOfRun(ds[1..], rest);
    }
  }

  /** A '-' in front is the only sign Unsigned strips here. */
  lemma UnsignedAfterSign(sign: string, x: string)
    requires sign == "" || sign == "-"
    requires |x| > 0 && x[0] != '-' && x[0] != '+'
    ensures Unsigned(sign + x) == x
  {
    if sign == "" {
      assert sign + x == x;
    } else {
      assert (sign + x)[1..] == x;
    }
  }

  /** A run of digits and a non-digit tail, after an optional sign, parse to
      the run's value, negated after a '-'. */
  lemma ParseDigitRun(s: string, digits: string, rest: string)
    requires AllDigits(digits) && |digits| > 0
    requires rest == [] || !IsDigit(rest[0])
    requires Unsigned(s) == digits + rest
    ensures |s| > 0 && s[0] == '-' ==> ParseInt(s) == Some(-(DigitsValue(digits) as int))
    ensures !(|s| > 0 && s[0] == '-') ==> ParseInt(s) == Some(DigitsValue(digits))
  {
    var body := Unsigned(s);
    LeadingDigitsOfRun(digits, rest);
    assert body[..LeadingDigits(body)] == digits;
    assert DigitsValue(body[..LeadingDigits(body)]) == DigitsValue(digits);
  }

  /** parseInt reads back what ShowInt writes, whatever non-digit text follows. */
  lemma ParseShowInt(i: int, rest: string)
    requires rest == [] || !IsDigit(rest[0])
    ensures ParseInt(ShowInt(i) + rest) == Some(i)
  {
    var magnitude: nat := if i < 0 then -i else i;
    var digits := ShowNat(magnitude);
    var sign := if i < 0 then "-" else "";
    DigitsValueShowNat(magnitude);
    assert ShowInt(i) + rest == sign + (digits + rest);
    UnsignedAfterSign(sign, digits + rest);
    ParseDigitRun(sign + (digits + rest), digits, rest);
  }

  // ---------------------------------------------------------------------
  // A range setting as an interval

  /** One axis of the bounding box: [lo, hi], each possibly NaN. */
  datatype Interval = Interval(lo: Num, hi: Num)

  /** p + k, or NaN when parseInt failed. */
  function Offset(p: Num, k: Option<int>): (r: Num)
    ensures r.NaN? <==> p.NaN? || k.None?
  {
    match k
    case None => NaN
    case Some(v) => p.Plus(v as real)
  }

  /** The interval a range setting gives around the coordinate p. A setting
      that splits into one token is read as a half-width r, and r is
      parseInt of the FIRST CHARACTER only (the empty string has none, so it
      gives NaN); two or more tokens give [p + first, p + second]. */
  function RangeToInterval(range: string, p: Num): (r: Interval)
    ensures ' ' !in range && r.lo.Fin? ==>
      r.hi.Fin? && p.Fin? && r.lo.val <= p.val <= r.hi.val
    ensures ' ' !in range ==> (r.lo.NaN? <==> r.hi.NaN?)
  {
    var tokens := Split(range);
    if |tokens| == 1 then
      var k := ParseInt(range[..if |range| == 0 then 0 else 1]);
      Interval(Offset(p, if k.Some? then Some(-k.value) else None), Offset(p, k))
    else
      Interval(Offset(p, ParseInt(tokens[0])), Offset(p, ParseInt(tokens[1])))
  }

  /** A single-number range keeps only its first digit: "10" is a half-width of 1. */
  lemma SingleRangeFirstDigit(range: string, p: real)
    requires ' ' !in range && |range| > 0 && IsDigit(range[0])
    ensures RangeToInterval(range, Fin(p))
         == Interval(Fin(p - DigitValue(range[0]) as real), Fin(p + DigitValue(range[0]) as real))
  {
    var first := range[..1];
    assert first == [range[0]];
    assert Unsigned(first) == first;
    assert LeadingDigits(first[1..]) == 0;
    assert LeadingDigits(first) == 1;
    assert first[..1] == first && first[..0] == [];
    assert DigitsValue(first) == DigitValue(range[0]);
    assert ParseInt(first) == Some(DigitValue(range[0]));
  }

  /** A single negative number cannot be a range: its first character is '-'. */
  lemma SingleRangeNegativeIsNaN(range: string, p: Num)
    requires ' ' !in range && |range| > 0 && range[0] == '-'
    ensures RangeToInterval(range, p) == Interval(NaN, NaN)
  {
    assert Unsigned(range[..1]) == [];
  }

  /** A range with a space in it is read token by token. */
  lemma MultiTokenRange(range: string, p: Num)
    requires ' ' in range
    ensures |Split(range)| >= 2
    ensures RangeToInterval(range, p)
         == Interval(Offset(p, ParseInt(Split(range)[0])), Offset(p, ParseInt(Split(range)[1])))
  {
  }

  /** Two numbers joined by one space split back into the two numbers. */
  lemma SplitTwoNumbers(a: int, b: int)
    ensures Split(ShowInt(a) + " " + ShowInt(b)) == [ShowInt(a), ShowInt(b)]
  {
    SplitAtSpace(ShowInt(a), ShowInt(b));
    SplitWithoutSpace(ShowInt(a));
    SplitWithoutSpace(ShowInt(b));
  }

  /** parseInt reads back a number ShowInt wrote with nothing after it. */
  lemma ParseShowIntAlone(i: int)
    ensures ParseInt(ShowInt(i)) == Some(i)
  {
    ParseShowInt(i, []);
    assert ShowInt(i) + [] == ShowInt(i);
  }

  /** Two numbers separated by one space are offsets from p. */
  lemma TwoNumberRange(a: int, b: int, p: real)
    ensures RangeToInterval(ShowInt(a) + " " + ShowInt(b), Fin(p)) == Interval(Fin(p + a as real), Fin(p + b as real))
  {
    var range := ShowInt(a) + " " + ShowInt(b);
    SplitTwoNumbers(a, b);
    ParseShowIntAlone(a);
    ParseShowIntAlone(b);
    assert range[|ShowInt(a)|] == ' ';
    MultiTokenRange(range, Fin(p));
  }

  /** The default settings: "5" is [p - 5, p + 5] and "-1 1" is [p - 1, p + 1]. */
  lemma DefaultRanges(p: real)
    ensures RangeToInterval("5", Fin(p)) == Interval(Fin(p - 5.0), Fin(p + 5.0))
    ensures RangeToInterval("-1 1", Fin(p)) == Interval(Fin(p - 1.0), Fin(p + 1.0))
  {
    SingleRangeFirstDigit("5", p);
    TwoNumberRange(-1, 1, p);
    assert ShowNat(1) == "1";
    assert ShowInt(-1) + " " + ShowInt(1) == "-1 1";
  }
}
