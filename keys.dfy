/** The `"YYYY-MM"` text keys schedules are stored under.
    Builders key schedules by text and the catch-up compares those keys with
    Python's string `<`; the rest of this project keys schedules by period
    number instead. This module proves that the two agree: the zero-padded key
    of a period orders exactly as the period does, and the unpadded key the
    engine writes coincides with it for four-digit years. */
module PeriodKeys {
  import opened Periods
  import opened Calendar

  function Digit(k: int): char
    requires 0 <= k <= 9
  {
    ('0' as int + k) as char
  }

  function Pow10(w: nat): (r: nat)
    ensures r >= 1
  {
    if w == 0 then 1 else 10 * Pow10(w - 1)
  }

  /** `f"{n:0{w}d}"` for `0 <= n < 10^w`: the last `w` decimal digits of `n`. */
  function Digits(n: nat, w: nat): (s: string)
    ensures |s| == w
    ensures forall i :: 0 <= i < |s| ==> '0' <= s[i] <= '9'
  {
    if w == 0 then [] else Digits(n / 10, w - 1) + [Digit(n % 10)]
  }

  /** `str(n)` for `n >= 0`. */
  function DecimalText(n: nat): (s: string)
    ensures |s| >= 1
  {
    if n < 10 then [Digit(n)] else DecimalText(n / 10) + [Digit(n % 10)]
  }

  /** Periods whose year has at most four digits. */
  predicate InKeyRange(p: Period)
  {
    0 <= p < 120000
  }

  /** `_to_ym(d)` of `revrec_codes.py`: `f"{d.year:04d}-{d.month:02d}"`. */
  function PaddedKey(p: Period): (s: string)
    requires InKeyRange(p)
    ensures |s| == 7 && s[4] == '-'
  {
    var d := FirstOfMonth(p);
    Digits(d.year, 4) + ("-" + Digits(d.month, 2))
  }

  /** The engines' `f"{d.year}-{d.month:02d}"`: the year is not padded. */
  function EngineKey(p: Period): string
    requires 0 <= p
  {
    var d := FirstOfMonth(p);
    DecimalText(d.year) + "-" + Digits(d.month, 2)
  }

  /** `date.isoformat()` of a date with a four-digit year. */
  function IsoText(d: Date): string
    requires d.Valid() && 0 <= d.year <= 9999
  {
    Digits(d.year, 4) + "-" + Digits(d.month, 2) + "-" + Digits(d.day, 2)
  }

  /** Python's `<` on `str`: lexicographic, a proper prefix first. */
  predicate LexLess(a: string, b: string)
    decreases |a|
  {
    if a == [] then b != []
    else if b == [] then false
    else a[0] < b[0] || (a[0] == b[0] && LexLess(a[1..], b[1..]))
  }

  lemma {:induction false} LexConcat(a1: string, b1: string, a2: string, b2: string)
    requires |a1| == |a2|
    ensures LexLess(a1 + b1, a2 + b2) <==> LexLess(a1, a2) || (a1 == a2 && LexLess(b1, b2))
    decreases |a1|
  {
    if a1 == [] {
      assert a1 + b1 == b1 && a2 + b2 == b2;
    } else {
      assert (a1 + b1)[0] == a1[0] && (a2 + b2)[0] == a2[0];
      assert (a1 + b1)[1..] == a1[1..] + b1;
      assert (a2 + b2)[1..] == a2[1..] + b2;
      LexConcat(a1[1..], b1, a2[1..], b2);
      if a1[0] == a2[0] {
        assert a1 == a2 <==> a1[1..] == a2[1..] by {
          if a1[1..] == a2[1..] {
            assert a1 == [a1[0]] + a1[1..] && a2 == [a2[0]] + a2[1..];
          }
        }
      }
    }
  }

  lemma ConcatEq(a1: string, b1: string, a2: string, b2: string)
    requires |a1| == |a2|
    ensures a1 + b1 == a2 + b2 <==> a1 == a2 && b1 == b2
  {
    if a1 + b1 == a2 + b2 {
      assert a1 == (a1 + b1)[..|a1|] && a2 == (a2 + b2)[..|a2|];
      assert b1 == (a1 + b1)[|a1|..] && b2 == (a2 + b2)[|a2|..];
    }
  }

  /** Equal-width digit strings order and compare exactly as the numbers do. */
  lemma {:induction false} DigitsOrder(n1: nat, n2: nat, w: nat)
    requires n1 < Pow10(w) && n2 < Pow10(w)
    ensures LexLess(Digits(n1, w), Digits(n2, w)) <==> n1 < n2
    ensures Digits(n1, w) == Digits(n2, w) <==> n1 == n2
  {
    if w == 0 {
    } else {
      assert n1 / 10 < Pow10(w - 1) && n2 / 10 < Pow10(w - 1);
      DigitsOrder(n1 / 10, n2 / 10, w - 1);
      var h1, h2 := Digits(n1 / 10, w - 1), Digits(n2 / 10, w - 1);
      var t1, t2 := [Digit(n1 % 10)], [Digit(n2 % 10)];
      LexConcat(h1, t1, h2, t2);
      ConcatEq(h1, t1, h2, t2);
      assert LexLess(t1, t2) <==> n1 % 10 < n2 % 10 by {
        assert t1[1..] == [] && t2[1..] == [];
      }
      assert n1 < n2 <==> n1 / 10 < n2 / 10 || (n1 / 10 == n2 / 10 && n1 % 10 < n2 % 10);
      assert n1 == n2 <==> n1 / 10 == n2 / 10 && n1 % 10 == n2 % 10;
    }
  }

  /** Comparing padded keys as text is comparing the periods:
      the ordering the catch-up relies on is chronological. */
  lemma PaddedKeyOrder(p: Period, q: Period)
    requires InKeyRange(p) && InKeyRange(q)
    ensures LexLess(PaddedKey(p), PaddedKey(q)) <==> p < q
    ensures PaddedKey(p) == PaddedKey(q) <==> p == q
  {
    var d, e := FirstOfMonth(p), FirstOfMonth(q);
    DigitsOrder(d.year, e.year, 4);
    DigitsOrder(d.month, e.month, 2);
    var yd, ye := Digits(d.year, 4), Digits(e.year, 4);
    var md, me := Digits(d.month, 2), Digits(e.month, 2);
    LexConcat(yd, "-" + md, ye, "-" + me);
    ConcatEq(yd, "-" + md, ye, "-" + me);
    LexConcat("-", md, "-", me);
    ConcatEq("-", md, "-", me);
    MonthOrder(p, q);
  }

  /** Periods are ordered as their (year, month) pairs. */
  lemma MonthOrder(p: Period, q: Period)
    ensures var d, e := FirstOfMonth(p), FirstOfMonth(q);
      p < q <==> (d.year < e.year || (d.year == e.year && d.month < e.month))
  {
  }

  /** For years 1000 to 9999 the engines' unpadded key is the padded key. */
  lemma EngineKeyPadded(p: Period)
    requires 12000 <= p < 120000
    ensures EngineKey(p) == PaddedKey(p)
  {
    var y := FirstOfMonth(p).year;
    assert Pow10(3) == 1000 && Pow10(4) == 10000;
    DecimalIsDigits(y, 4);
  }

  lemma Pow10AtLeastTen(k: nat)
    ensures k >= 1 ==> Pow10(k) >= 10
  {
    if k >= 1 {
      assert Pow10(k) == 10 * Pow10(k - 1);
    }
  }

  /** A number with exactly `w` digits prints as its `w`-digit padding. */
  lemma {:induction false} DecimalIsDigits(n: nat, w: nat)
    requires 1 <= w && (w == 1 || Pow10(w - 1) <= n) && n < Pow10(w)
    ensures DecimalText(n) == Digits(n, w)
  {
    if n < 10 {
      Pow10AtLeastTen(w - 1);
      assert w == 1;
      assert Digits(n / 10, 0) == [];
    } else {
      assert w > 1;
      assert Pow10(w) == 10 * Pow10(w - 1);
      if w > 2 {
        assert Pow10(w - 1) == 10 * Pow10(w - 2);
      }
      DecimalIsDigits(n / 10, w - 1);
    }
  }

  /** `effective_date[:7]` of an ISO date is the padded key of its month. */
  lemma EffectiveKey(d: Date)
    requires d.Valid() && 0 <= d.year <= 9999
    ensures InKeyRange(MonthIndex(d))
    ensures IsoText(d)[..7] == PaddedKey(MonthIndex(d))
  {
    FirstOfMonthUnique(Date(d.year, d.month, 1));
    assert MonthIndex(Date(d.year, d.month, 1)) == MonthIndex(d);
    assert IsoText(d) == (Digits(d.year, 4) + "-" + Digits(d.month, 2)) + ("-" + Digits(d.day, 2));
  }
}
