/** The keyword contract parser of the backend: every non-blank line naming
    a deliverable becomes a numbered obligation whose recognition method is
    chosen by keyword, and whose SSP is the first number on the line; and the
    SSP suggestion from history, the median rounded to the cent. Amounts are
    whole cents; digits are ASCII digits. */
module BackendAi {
  import opened Money
  import opened Text
  import opened Wrappers
  import PeriodKeys

  /** Words that make a line an obligation. */
  const Triggers: seq<string> :=
    ["subscription", "maintenance", "implementation", "training", "device", "license", "building", "construction"]

  /** `METHOD_KEYWORDS`, in the dictionary's order. */
  const MethodKeywords: seq<(string, seq<string>)> := [
    ("point_in_time", ["delivery", "transfer", "shipment", "upon acceptance", "one-time"]),
    ("straight_line", ["subscription", "saas", "over", "monthly", "annually", "maintenance"]),
    ("milestone", ["milestone", "phase", "go-live", "acceptance", "stage"]),
    ("percent_complete", ["percent complete", "cost-to-cost", "progress", "completion"])
  ]

  /** The first entry with a keyword in `low` names the method; `straight_line`
      when none has. */
  function MethodFor(low: string, entries: seq<(string, seq<string>)>): (m: string)
    ensures forall i :: 0 <= i < |entries| && FirstWith(low, entries, i) ==> m == entries[i].0
    ensures (forall i :: 0 <= i < |entries| ==> !AnyIn(low, entries[i].1)) ==> m == "straight_line"
  {
    if entries == [] then "straight_line"
    else if AnyIn(low, entries[0].1) then entries[0].0
    else
      var m := MethodFor(low, entries[1..]);
      assert forall i :: 1 <= i < |entries| ==> entries[i] == entries[1..][i - 1];
      m
  }

  /** Entry `i` is the first whose keywords occur in `low`. */
  predicate FirstWith(low: string, entries: seq<(string, seq<string>)>, i: nat)
    requires i < |entries|
  {
    AnyIn(low, entries[i].1) && forall j :: 0 <= j < i ==> !AnyIn(low, entries[j].1)
  }

  /** A point-in-time keyword wins over every later entry: a monthly
      delivery is recognised at a point in time. */
  lemma DeliveryWinsOverSubscription()
    ensures MethodFor(Lower("Monthly delivery"), MethodKeywords) == "point_in_time"
  {
    var t := Lower("Monthly delivery");
    assert t == "monthly delivery";
    assert "monthly delivery"[8..16] == "delivery";
    ContainsAt(t, "delivery", 8);
    assert "delivery" in MethodKeywords[0].1;
  }

  /** `f'PO-{idx:02d}'` */
  function PoId(idx: nat): (r: string)
    ensures |r| > 4 && r[..3] == "PO-"
  {
    "PO-" + if idx < 10 then PeriodKeys.Digits(idx, 2) else PeriodKeys.DecimalText(idx / 10) + [PeriodKeys.Digit(idx % 10)]
  }

  /** Up to 99 obligations, the ids sort as the obligations are numbered,
      and distinct numbers give distinct ids. */
  lemma PoIdOrder(a: nat, b: nat)
    requires a <= 99 && b <= 99
    ensures PeriodKeys.LexLess(PoId(a), PoId(b)) <==> a < b
    ensures PoId(a) == PoId(b) <==> a == b
  {
    PoIdDigits(a);
    PoIdDigits(b);
    var da, db := PeriodKeys.Digits(a, 2), PeriodKeys.Digits(b, 2);
    PeriodKeys.DigitsOrder(a, b, 2);
    PeriodKeys.LexConcat("PO-", da, "PO-", db);
    PeriodKeys.ConcatEq("PO-", da, "PO-", db);
  }

  /** Up to 99, the id is `PO-` and the number in two digits. */
  lemma PoIdDigits(a: nat)
    requires a <= 99
    ensures PoId(a) == "PO-" + PeriodKeys.Digits(a, 2)
  {
    if a >= 10 {
      assert PeriodKeys.Pow10(2) == 100 && PeriodKeys.Pow10(1) == 10;
      PeriodKeys.DecimalIsDigits(a, 2);
    }
  }

  predicate IsDigit(c: char)
  {
    '0' <= c <= '9'
  }

  /** `s.replace(',', '')` */
  function RemoveCommas(s: string): (r: string)
    ensures ',' !in r
    ensures forall c :: c in r <==> c in s && c != ','
  {
    if s == [] then []
    else (if s[0] == ',' then [] else [s[0]]) + RemoveCommas(s[1..])
  }

  /** The index of the first digit of `s` at or after `i` (`|s|` if none). */
  function FirstDigit(s: string, i: nat): (d: nat)
    requires i <= |s|
    ensures i <= d <= |s|
    ensures forall k :: i <= k < d ==> !IsDigit(s[k])
    ensures d < |s| ==> IsDigit(s[d])
    decreases |s| - i
  {
    if i == |s| || IsDigit(s[i]) then i else FirstDigit(s, i + 1)
  }

  /** The end of the run of digits starting at `i`. */
  function DigitsEnd(s: string, i: nat): (e: nat)
    requires i <= |s|
    ensures i <= e <= |s|
    ensures forall k :: i <= k < e ==> IsDigit(s[k])
    ensures e < |s| ==> !IsDigit(s[e])
    decreases |s| - i
  {
    if i < |s| && IsDigit(s[i]) then DigitsEnd(s, i + 1) else i
  }

  /** The value of a string of decimal digits. */
  function ValueOf(ds: string): nat
    requires forall k :: 0 <= k < |ds| ==> IsDigit(ds[k])
  {
    if ds == [] then 0
    else
      var last := ds[|ds| - 1];
      assert IsDigit(last);
      10 * ValueOf(ds[..|ds| - 1]) + (last as int - '0' as int)
  }

  /** `re.search(r"(\d+(?:\.\d{2})?)", s)` read as an amount in cents: the
      leftmost run of digits, all of it, then `.dd` when two digits follow a
      point; `None` when `s` has no digit. */
  function FirstNumberCents(s: string): (r: Option<int>)
    ensures r.None? <==> forall k :: 0 <= k < |s| ==> !IsDigit(s[k])
    ensures r.Some? ==> r.value >= 0
  {
    var d := FirstDigit(s, 0);
    if d == |s| then None
    else
      var e := DigitsEnd(s, d);
      var whole := ValueOf(s[d..e]);
      if e + 2 < |s| && s[e] == '.' && IsDigit(s[e + 1]) && IsDigit(s[e + 2]) then
        Some(100 * whole + ValueOf(s[e + 1..e + 3]))
      else
        Some(100 * whole)
  }

  /** A whole number written out is read back as that many dollars. */
  lemma NumberRoundTrip(n: nat)
    ensures FirstNumberCents(PeriodKeys.DecimalText(n)) == Some(100 * n)
  {
    var s := PeriodKeys.DecimalText(n);
    DecimalDigits(n);
    assert FirstDigit(s, 0) == 0;
    AllDigitsEnd(s, 0);
    assert s[0..|s|] == s;
  }

  /** `str(n)` is all digits and has the value `n`. */
  lemma {:induction false} DecimalDigits(n: nat)
    ensures forall k :: 0 <= k < |PeriodKeys.DecimalText(n)| ==> IsDigit(PeriodKeys.DecimalText(n)[k])
    ensures ValueOf(PeriodKeys.DecimalText(n)) == n
  {
    var s := PeriodKeys.DecimalText(n);
    if n >= 10 {
      DecimalDigits(n / 10);
      var pre := PeriodKeys.DecimalText(n / 10);
      assert s == pre + [PeriodKeys.Digit(n % 10)];
      assert s[..|s| - 1] == pre;
    }
  }

  /** In a string of digits, the run from `i` reaches the end. */
  lemma {:induction false} AllDigitsEnd(s: string, i: nat)
    requires i <= |s| && forall k :: 0 <= k < |s| ==> IsDigit(s[k])
    ensures DigitsEnd(s, i) == |s|
    decreases |s| - i
  {
    if i < |s| {
      AllDigitsEnd(s, i + 1);
    }
  }

  /** The first digit at or after `i` is the first one past a digit-free stretch. */
  lemma {:induction false} FirstDigitAfter(s: string, i: nat, j: nat)
    requires i <= j < |s| && IsDigit(s[j])
    requires forall k :: i <= k < j ==> !IsDigit(s[k])
    ensures FirstDigit(s, i) == j
    decreases j - i
  {
    if i < j {
      FirstDigitAfter(s, i + 1, j);
    }
  }

  /** A run of digits from `i` ends at the first non-digit. */
  lemma {:induction false} DigitsEndAt(s: string, i: nat, j: nat)
    requires i <= j <= |s| && (j == |s| || !IsDigit(s[j]))
    requires forall k :: i <= k < j ==> IsDigit(s[k])
    ensures DigitsEnd(s, i) == j
    decreases j - i
  {
    if i < j {
      DigitsEndAt(s, i + 1, j);
    }
  }

  /** `f"{c:02d}"` has the value `c`. */
  lemma TwoDigitsValue(c: nat)
    requires c < 100
    ensures ValueOf(PeriodKeys.Digits(c, 2)) == c
  {
    var ds := PeriodKeys.Digits(c, 2);
    assert PeriodKeys.Digits(c / 10, 1) == PeriodKeys.Digits(c / 10 / 10, 0) + [PeriodKeys.Digit(c / 10 % 10)];
    assert ds == PeriodKeys.Digits(c / 10, 1) + [PeriodKeys.Digit(c % 10)];
    assert ds == [PeriodKeys.Digit(c / 10 % 10), PeriodKeys.Digit(c % 10)];
    var hi, lo := PeriodKeys.Digit(c / 10 % 10), PeriodKeys.Digit(c % 10);
    assert hi as int - '0' as int == c / 10 && lo as int - '0' as int == c % 10;
    assert ds[..1] == [hi] && [hi][..0] == [];
    assert ValueOf([hi]) == c / 10;
    assert ValueOf(ds) == 10 * ValueOf(ds[..1]) + (lo as int - '0' as int);
  }

  /** A whole number written after text with no digit, and not followed by
      a digit or by a point and two digits, is read as that many dollars. */
  lemma NumberAfterText(p: string, n: nat, rest: string)
    requires forall k :: 0 <= k < |p| ==> !IsDigit(p[k])
    requires rest == [] || !IsDigit(rest[0])
    requires !(|rest| >= 3 && rest[0] == '.' && IsDigit(rest[1]) && IsDigit(rest[2]))
    ensures FirstNumberCents(p + PeriodKeys.DecimalText(n) + rest) == Some(100 * n)
  {
    var t := PeriodKeys.DecimalText(n);
    var s := p + t + rest;
    DecimalDigits(n);
    FirstDigitAfter(s, 0, |p|);
    DigitsEndAt(s, |p|, |p| + |t|);
    assert s[|p|..|p| + |t|] == t;
  }

  /** A number with a point and two digits, written after text with no
      digit, is read as dollars and cents, whatever follows it. */
  lemma NumberWithCents(p: string, n: nat, c: nat, rest: string)
    requires forall k :: 0 <= k < |p| ==> !IsDigit(p[k])
    requires c < 100
    ensures FirstNumberCents(p + PeriodKeys.DecimalText(n) + "." + PeriodKeys.Digits(c, 2) + rest) == Some(100 * n + c)
  {
    var t := PeriodKeys.DecimalText(n);
    var f := PeriodKeys.Digits(c, 2);
    var s := p + t + "." + f + rest;
    var e := |p| + |t|;
    DecimalDigits(n);
    FirstDigitAfter(s, 0, |p|);
    DigitsEndAt(s, |p|, e);
    assert s[|p|..e] == t;
    assert s[e] == '.' && s[e + 1] == f[0] && s[e + 2] == f[1];
    assert s[e + 1..e + 3] == f;
    TwoDigitsValue(c);
  }

  /** `ssp = float(m.group(1)) if m else 0.0` on the line without commas. */
  function SspOf(line: string): (ssp: int)
    ensures ssp >= 0
    ensures (forall k :: 0 <= k < |RemoveCommas(line)| ==> !IsDigit(RemoveCommas(line)[k])) ==> ssp == 0
  {
    match FirstNumberCents(RemoveCommas(line))
    case None => 0
    case Some(c) => c
  }

  /** The SSP of a line whose text, commas removed, is a whole number after
      digit-free text is that number in dollars. */
  lemma SspOfWhole(line: string, p: string, n: nat, rest: string)
    requires RemoveCommas(line) == p + PeriodKeys.DecimalText(n) + rest
    requires forall k :: 0 <= k < |p| ==> !IsDigit(p[k])
    requires rest == [] || !IsDigit(rest[0])
    requires !(|rest| >= 3 && rest[0] == '.' && IsDigit(rest[1]) && IsDigit(rest[2]))
    ensures SspOf(line) == 100 * n
  {
    NumberAfterText(p, n, rest);
  }

  /** The SSP of a line whose first number, commas removed, has a point and
      two digits is that number in dollars and cents. */
  lemma SspOfCents(line: string, p: string, n: nat, c: nat, rest: string)
    requires RemoveCommas(line) == p + PeriodKeys.DecimalText(n) + "." + PeriodKeys.Digits(c, 2) + rest
    requires forall k :: 0 <= k < |p| ==> !IsDigit(p[k])
    requires c < 100
    ensures SspOf(line) == 100 * n + c
  {
    NumberWithCents(p, n, c, rest);
  }

  /** An obligation read from one line. */
  datatype ParsedPo = ParsedPo(poId: string, description: string, ssp: int, recognition: string)

  predicate IsObligationLine(line: string)
  {
    AnyIn(Lower(line), Triggers)
  }

  /** The obligation numbered `idx` read from `line`. */
  function MakePo(idx: nat, line: string): ParsedPo
  {
    ParsedPo(PoId(idx), line, SspOf(line), MethodFor(Lower(line), MethodKeywords))
  }

  /** The lines `keep` accepts, in order. */
  function Keep(lines: seq<string>, keep: string -> bool): (r: seq<string>)
    ensures |r| <= |lines|
  {
    if lines == [] then []
    else
      var pre := Keep(lines[..|lines| - 1], keep);
      var line := lines[|lines| - 1];
      if keep(line) then pre + [line] else pre
  }

  /** The lines that name an obligation, in order. */
  function ObligationLines(lines: seq<string>): seq<string>
  {
    Keep(lines, IsObligationLine)
  }

  /** The obligations of the given lines, numbered from 1. */
  function Numbered(ls: seq<string>): (pos: seq<ParsedPo>)
    ensures |pos| == |ls|
  {
    Enumerate(ls, MakePo)
  }

  /** `mk(k + 1, ls[k])` for every line `k`: lines numbered from 1. */
  function Enumerate<T>(ls: seq<string>, mk: (nat, string) -> T): (r: seq<T>)
    ensures |r| == |ls|
    ensures forall k :: 0 <= k < |ls| ==> r[k] == mk(k + 1, ls[k])
  {
    seq(|ls|, k requires 0 <= k < |ls| => mk(k + 1, ls[k]))
  }

  /** The obligations read from the lines, numbered from 1 in line order. */
  function Parse(lines: seq<string>): seq<ParsedPo>
  {
    Numbered(ObligationLines(lines))
  }

  /** Exactly the obligation lines become obligations, in line order, the
      k-th numbered `PO-(k+1)`: `idx` gives their line numbers. */
  lemma ParseShape(lines: seq<string>) returns (idx: seq<nat>)
    ensures |idx| == |Parse(lines)|
    ensures forall k :: 0 <= k < |idx| ==> (idx[k] < |lines| && IsObligationLine(lines[idx[k]])
      && Parse(lines)[k] == MakePo(k + 1, lines[idx[k]]))
    ensures forall k, l :: 0 <= k < l < |idx| ==> idx[k] < idx[l]
    ensures forall i :: 0 <= i < |lines| && IsObligationLine(lines[i]) ==> i in idx
  {
    idx := KeptIndices(lines, IsObligationLine);
    var ls := ObligationLines(lines);
    assert Parse(lines) == Enumerate(ls, MakePo);
    forall k | 0 <= k < |idx| ensures Parse(lines)[k] == MakePo(k + 1, lines[idx[k]]) {
      assert ls[k] == lines[idx[k]];
    }
  }

  /** `idx` numbers the lines `keep` accepts, in order, and all of them. */
  predicate IndexesKept(lines: seq<string>, keep: string -> bool, idx: seq<nat>)
  {
    && |idx| == |Keep(lines, keep)|
    && (forall k :: 0 <= k < |idx| ==> (idx[k] < |lines| && keep(lines[idx[k]]) && Keep(lines, keep)[k] == lines[idx[k]]))
    && (forall k, l :: 0 <= k < l < |idx| ==> idx[k] < idx[l])
    && (forall i :: 0 <= i < |lines| && keep(lines[i]) ==> i in idx)
  }

  lemma {:induction false} KeptIndices(lines: seq<string>, keep: string -> bool) returns (idx: seq<nat>)
    ensures IndexesKept(lines, keep, idx)
  {
    if lines == [] {
      idx := [];
    } else {
      var n := |lines| - 1;
      var idx0 := KeptIndices(lines[..n], keep);
      if keep(lines[n]) {
        idx := idx0 + [n];
        KeptExtend(lines, keep, idx0);
      } else {
        idx := idx0;
        KeptSkip(lines, keep, idx0);
      }
    }
  }

  /** An accepted last line is numbered after the others. */
  lemma KeptExtend(lines: seq<string>, keep: string -> bool, idx0: seq<nat>)
    requires lines != [] && keep(lines[|lines| - 1])
    requires IndexesKept(lines[..|lines| - 1], keep, idx0)
    ensures IndexesKept(lines, keep, idx0 + [|lines| - 1])
  {
    var n := |lines| - 1;
    var pre := lines[..n];
    var idx := idx0 + [n];
    assert Keep(lines, keep) == Keep(pre, keep) + [lines[n]];
    forall k | 0 <= k < |idx| ensures idx[k] < |lines| && keep(lines[idx[k]]) && Keep(lines, keep)[k] == lines[idx[k]] {
      if k < |idx0| {
        assert pre[idx0[k]] == lines[idx0[k]];
      }
    }
    forall i | 0 <= i < |lines| && keep(lines[i]) ensures i in idx {
      if i < n {
        assert pre[i] == lines[i];
        assert i in idx0;
      }
    }
  }

  /** A rejected last line changes nothing. */
  lemma KeptSkip(lines: seq<string>, keep: string -> bool, idx0: seq<nat>)
    requires lines != [] && !keep(lines[|lines| - 1])
    requires IndexesKept(lines[..|lines| - 1], keep, idx0)
    ensures IndexesKept(lines, keep, idx0)
  {
    var n := |lines| - 1;
    var pre := lines[..n];
    assert Keep(lines, keep) == Keep(pre, keep);
    forall k | 0 <= k < |idx0| ensures keep(lines[idx0[k]]) && Keep(lines, keep)[k] == lines[idx0[k]] {
      assert pre[idx0[k]] == lines[idx0[k]];
    }
    forall i | 0 <= i < |lines| && keep(lines[i]) ensures i in idx0 {
      assert i < n;
      assert pre[i] == lines[i];
    }
  }

  /** `contract_parse_text`: the stripped non-blank lines, each obligation
      line numbered in turn. */
  method ContractParseText(text: string) returns (pos: seq<ParsedPo>)
    ensures pos == Parse(NonBlankLines(text))
  {
    var lines := NonBlankLines(text);
    pos := NumberLines(lines, IsObligationLine, MakePo);
  }

  /** The loop of `contract_parse_text`: `idx` counts the lines `keep`
      accepts, and each accepted line is read by `mk` with its number. */
  method NumberLines<T>(lines: seq<string>, keep: string -> bool, mk: (nat, string) -> T) returns (out: seq<T>)
    ensures out == Enumerate(Keep(lines, keep), mk)
  {
    out := [];
    ghost var kept: seq<string> := [];
    var idx := 0;
    var i := 0;
    while i < |lines|
      invariant 0 <= i <= |lines|
      invariant kept == Keep(lines[..i], keep)
      invariant out == Enumerate(kept, mk)
      invariant idx == |out|
    {
      assert lines[..i + 1][..i] == lines[..i];
      if keep(lines[i]) {
        idx := idx + 1;
        EnumerateStep(kept, lines[i], mk);
        out := out + [mk(idx, lines[i])];
        kept := kept + [lines[i]];
      }
      i := i + 1;
    }
    assert lines[..i] == lines;
  }

  /** Numbering one more line appends it with the next number. */
  lemma EnumerateStep<T>(ls: seq<string>, line: string, mk: (nat, string) -> T)
    ensures Enumerate(ls + [line], mk) == Enumerate(ls, mk) + [mk(|ls| + 1, line)]
  {
    var a, b := Enumerate(ls + [line], mk), Enumerate(ls, mk) + [mk(|ls| + 1, line)];
    forall k | 0 <= k < |a| ensures a[k] == b[k] {
      if k < |ls| {
        assert (ls + [line])[k] == ls[k];
      }
    }
  }

  /** `x` inserted into an ascending sequence. */
  function Insert(x: int, s: seq<int>): (r: seq<int>)
    requires Ascending(s)
    ensures Ascending(r) && multiset(r) == multiset(s) + multiset{x}
  {
    if s == [] then [x]
    else if x <= s[0] then [x] + s
    else
      var rest := Insert(x, s[1..]);
      assert s == [s[0]] + s[1..];
      AscendingCons(s[0], rest);
      [s[0]] + rest
  }

  /** A head no larger than anything in an ascending tail keeps it ascending. */
  lemma AscendingCons(h: int, rest: seq<int>)
    requires Ascending(rest) && forall y :: y in multiset(rest) ==> h <= y
    ensures Ascending([h] + rest)
  {
    forall j | 0 <= j < |rest| ensures h <= rest[j] {
      assert rest[j] in multiset(rest);
    }
  }

  predicate Ascending(s: seq<int>)
  {
    forall i, j :: 0 <= i < j < |s| ==> s[i] <= s[j]
  }

  /** `sorted(history)` */
  function SortAsc(s: seq<int>): (r: seq<int>)
    ensures Ascending(r) && multiset(r) == multiset(s)
  {
    if s == [] then []
    else
      assert s == [s[0]] + s[1..];
      Insert(s[0], SortAsc(s[1..]))
  }

  /** `statistics.median` of an ascending sequence. */
  function Median(s: seq<int>): real
    requires s != []
  {
    var n := |s|;
    if n % 2 == 1 then s[n / 2] as real else (s[n / 2 - 1] + s[n / 2]) as real / 2.0
  }

  /** `suggest_ssp`: 0 for no history, else the median rounded to the cent. */
  function SuggestSsp(history: seq<int>): int
  {
    if history == [] then 0 else RoundHalfEven(Median(SortAsc(history)))
  }

  /** The suggestion lies between two amounts of the history (the one or two
      middle ones), so within the range of past prices; one price is
      suggested as it is. */
  lemma SuggestSspWithinHistory(history: seq<int>)
    requires history != []
    ensures exists i, j :: 0 <= i < |history| && 0 <= j < |history| && history[i] <= SuggestSsp(history) <= history[j]
    ensures |history| == 1 ==> SuggestSsp(history) == history[0]
  {
    var s := SortAsc(history);
    var n := |s|;
    assert |s| == |multiset(s)| == |multiset(history)| == |history|;
    var lo, hi := if n % 2 == 1 then n / 2 else n / 2 - 1, n / 2;
    var m := Median(s);
    assert s[lo] as real <= m <= s[hi] as real;
    var r := RoundHalfEven(m);
    assert s[lo] <= r <= s[hi];
    assert s[lo] in multiset(history) && s[hi] in multiset(history);
    var i :| 0 <= i < |history| && history[i] == s[lo];
    var j :| 0 <= j < |history| && history[j] == s[hi];
    if n == 1 {
      assert s[0] in multiset(history);
      assert history == [history[0]];
      RoundWhole(s[0]);
    }
  }
}
