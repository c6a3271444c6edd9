/** Keyword rules over contract text: which accounting standard the text
    points to, the currency code it names, the obligations its lines
    suggest (each kind once), drafting recommendations, and the excerpt the
    summaries quote. Matching is case-insensitive on ASCII letters. */
module NlpRules {
  import opened Text
  import opened Wrappers

  const LeaseTerms: seq<string> := ["lease term", "right-of-use asset", "rou asset", "lease liability"]
  const CollaborationTerms: seq<string> := ["collaboration", "co-development", "co marketing"]
  const NonfinancialTerms: seq<string> := ["nonfinancial asset", "sale of property", "intangible sale"]
  const InsuranceTerms: seq<string> := ["insurance policy", "premium", "claims handler"]
  const CustomerTerms: seq<string> :=
    ["customer", "deliver", "performance obligation", "support", "subscription", "license",
     "maintenance", "milestone", "implementation"]

  predicate IsLease(t: string) { AnyIn(t, LeaseTerms) }
  predicate IsCollaboration(t: string) { AnyIn(t, CollaborationTerms) }
  predicate IsNonfinancial(t: string) { AnyIn(t, NonfinancialTerms) }
  predicate IsInsurance(t: string) { AnyIn(t, InsuranceTerms) }
  predicate IsCustomer(t: string) { AnyIn(t, CustomerTerms) }

  /** `detect_standard`: the first family of terms found in the lower-cased
      text decides, leases first and customer contracts last. */
  function DetectStandard(text: string): (r: (string, string))
    ensures var t := Lower(text);
      && (IsLease(t) ==> r.0 == "ASC842")
      && (!IsLease(t) && IsCollaboration(t) ==> r.0 == "ASC808")
      && (!IsLease(t) && !IsCollaboration(t) && IsNonfinancial(t) ==> r.0 == "ASC610-20")
      && (!IsLease(t) && !IsCollaboration(t) && !IsNonfinancial(t) && IsInsurance(t) ==> r.0 == "ASC945/944")
      && (!IsLease(t) && !IsCollaboration(t) && !IsNonfinancial(t) && !IsInsurance(t) && IsCustomer(t) ==> r.0 == "ASC606")
      && (r.0 == "Unknown" <==> !IsLease(t) && !IsCollaboration(t) && !IsNonfinancial(t) && !IsInsurance(t) && !IsCustomer(t))
  {
    var t := Lower(text);
    if IsLease(t) then ("ASC842", "Contains lease terminology")
    else if IsCollaboration(t) then ("ASC808", "Collaborative arrangement indicators present")
    else if IsNonfinancial(t) then ("ASC610-20", "Sale of nonfinancial assets indicated")
    else if IsInsurance(t) then ("ASC945/944", "Insurance-like contract")
    else if IsCustomer(t) then ("ASC606", "Customer contract indicators present")
    else ("Unknown", "No clear match; manual review needed")
  }

  /** The standard does not depend on letter case. */
  lemma DetectStandardIgnoresCase(text: string)
    ensures DetectStandard(Upper(text)) == DetectStandard(text)
  {
    LowerUpper(text);
  }

  /** A lease clause in a customer contract is still a lease: leases win. */
  lemma LeaseBeatsCustomer()
    ensures DetectStandard("Customer lease term").0 == "ASC842"
  {
    var s := "Customer lease term";
    var t := Lower(s);
    assert s[9..19] == "lease term";
    assert t[9..19] == s[9..19];
    ContainsAt(t, "lease term", 9);
    assert "lease term" in LeaseTerms;
  }

  const Currencies: seq<string> := ["USD", "EUR", "GBP", "INR", "JPY", "CAD", "AUD"]

  /** The first code of the whitelist matching at position `i` of `s`
      between word boundaries, case-insensitively. */
  function CodeAt(s: string, i: int, codes: seq<string>): (r: Option<string>)
    ensures r.Some? ==> r.value in codes && WordMatchAt(s, r.value, i)
    ensures r.None? ==> forall k :: k in codes ==> !WordMatchAt(s, k, i)
  {
    if codes == [] then None
    else if WordMatchAt(s, codes[0], i) then Some(codes[0])
    else CodeAt(s, i, codes[1..])
  }

  /** The leftmost code of `codes` at or after position `i`. */
  function FindFrom(s: string, i: nat, codes: seq<string>): (r: Option<(string, nat)>)
    requires i <= |s| + 1
    ensures r.Some? ==> var (k, j) := r.value;
      && k in codes && i <= j <= |s| && WordMatchAt(s, k, j)
      && forall k', j' :: k' in codes && i <= j' < j ==> !WordMatchAt(s, k', j')
    ensures r.None? ==> forall k, j :: k in codes && i <= j <= |s| ==> !WordMatchAt(s, k, j)
    decreases |s| + 1 - i
  {
    if i > |s| then None
    else match CodeAt(s, i, codes)
      case Some(k) => Some((k, i))
      case None => FindFrom(s, i + 1, codes)
  }

  /** `find_currency`: the leftmost whitelisted code, upper-cased. */
  function FindCurrency(text: string): (r: Option<string>)
    ensures r.Some? ==> r.value in Currencies
    ensures r.None? <==> !MatchesWord(text, Currencies)
    ensures r.Some? ==> exists j :: (0 <= j <= |text| && WordMatchAt(text, r.value, j)
                                     && forall k, i :: k in Currencies && 0 <= i < j ==> !WordMatchAt(text, k, i))
  {
    match FindFrom(text, 0, Currencies)
    case None => None
    case Some((k, j)) =>
      UpperOfMatch(text, k, j);
      Some(Upper(text[j..j + |k|]))
  }

  /** A match of an upper-case code, upper-cased, is the code itself. */
  lemma UpperOfMatch(s: string, k: string, j: int)
    requires k in Currencies && WordMatchAt(s, k, j)
    ensures Upper(s[j..j + |k|]) == k
  {
    CurrencyLetters(k);
    UpperOfCapitalMatch(s, k, j);
  }

  /** Every whitelisted code is written in capital letters. */
  lemma CurrencyLetters(k: string)
    requires k in Currencies
    ensures forall i :: 0 <= i < |k| ==> 'A' <= k[i] <= 'Z'
  {
  }

  /** A case-insensitive match of a word in capitals, upper-cased, is the
      word. */
  lemma UpperOfCapitalMatch(s: string, k: string, j: int)
    requires forall i :: 0 <= i < |k| ==> 'A' <= k[i] <= 'Z'
    requires WordMatchAt(s, k, j)
    ensures Upper(s[j..j + |k|]) == k
  {
    var m := s[j..j + |k|];
    forall i | 0 <= i < |k| ensures UpperChar(m[i]) == k[i] {
      assert Lower(s)[j + i] == Lower(k)[i];
    }
  }

  /** An obligation suggested by the text. */
  datatype Po = Po(description: string, recognition: string)

  /** The keyword groups tested on each line, in order, with the obligation
      each suggests. */
  const Groups: seq<(seq<string>, Po)> := [
    (["hardware", "device", "equipment", "handset"], Po("Hardware", "point_in_time")),
    (["software", "license", "subscription", "saas"], Po("Software/Subscription", "straight_line")),
    (["maintenance", "support", "warranty service"], Po("Maintenance/Support", "straight_line")),
    (["implementation", "setup", "professional services", "deployment"], Po("Implementation Services", "milestone")),
    (["construction", "build", "building", "facility"], Po("Construction Unit", "percent_complete"))
  ]

  /** The obligations one stripped line suggests, in group order: every
      group whose keywords the line names contributes its obligation, and
      nothing else is suggested. */
  function LinePos(l: string, groups: seq<(seq<string>, Po)>): (r: seq<Po>)
    ensures forall i :: 0 <= i < |groups| && MatchesWord(l, groups[i].0) ==> groups[i].1 in r
    ensures forall po :: po in r ==> exists g :: g in groups && g.1 == po && MatchesWord(l, g.0)
  {
    if groups == [] then []
    else (if MatchesWord(l, groups[0].0) then [groups[0].1] else []) + LinePos(l, groups[1..])
  }

  /** The first loop of `extract_pos`: every line is stripped, blank lines
      skipped, and each line contributes its obligations. */
  function Candidates(lines: seq<string>): seq<Po>
  {
    if lines == [] then []
    else
      var l := Strip(lines[|lines| - 1]);
      Candidates(lines[..|lines| - 1]) + (if l == [] then [] else LinePos(l, Groups))
  }

  function Descriptions(pos: seq<Po>): set<string>
  {
    set po | po in pos :: po.description
  }

  /** The dedup loop: an obligation whose description was already seen is dropped. */
  function Dedup(pos: seq<Po>): seq<Po>
  {
    if pos == [] then []
    else
      var n := |pos| - 1;
      if pos[n].description in Descriptions(pos[..n]) then Dedup(pos[..n]) else Dedup(pos[..n]) + [pos[n]]
  }

  /** The descriptions kept are the descriptions seen, each exactly once. */
  lemma {:induction false} DedupUnique(pos: seq<Po>)
    ensures Descriptions(Dedup(pos)) == Descriptions(pos)
    ensures forall i, j :: 0 <= i < j < |Dedup(pos)| ==> Dedup(pos)[i].description != Dedup(pos)[j].description
  {
    if pos != [] {
      var n := |pos| - 1;
      DedupUnique(pos[..n]);
      assert pos == pos[..n] + [pos[n]];
      assert Descriptions(pos) == Descriptions(pos[..n]) + {pos[n].description};
      var d := Dedup(pos[..n]);
      if pos[n].description !in Descriptions(pos[..n]) {
        assert Descriptions(d + [pos[n]]) == Descriptions(d) + {pos[n].description};
        forall i, j | 0 <= i < j < |d| + 1 ensures (d + [pos[n]])[i].description != (d + [pos[n]])[j].description {
          if j == |d| {
            assert d[i] in d;
          }
        }
      }
    }
  }

  /** The positions of the obligations the dedup loop keeps, ascending. */
  function Kept(pos: seq<Po>): seq<nat>
  {
    if pos == [] then []
    else
      var n := |pos| - 1;
      if pos[n].description in Descriptions(pos[..n]) then Kept(pos[..n]) else Kept(pos[..n]) + [n]
  }

  /** Each kept obligation is the first occurrence of its description, and
      they are kept in input order: `idx` gives their positions. */
  lemma DedupFirstOccurrences(pos: seq<Po>) returns (idx: seq<nat>)
    ensures |idx| == |Dedup(pos)|
    ensures forall k :: 0 <= k < |idx| ==> idx[k] < |pos| && Dedup(pos)[k] == pos[idx[k]]
    ensures forall k :: 0 <= k < |idx| ==> forall i :: 0 <= i < idx[k] ==> pos[i].description != pos[idx[k]].description
    ensures forall k, l :: 0 <= k < l < |idx| ==> idx[k] < idx[l]
  {
    idx := Kept(pos);
    KeptPicks(pos);
    KeptFirst(pos);
    KeptAscending(pos);
  }

  /** The kept positions pick out the deduplicated obligations. */
  lemma {:induction false} KeptPicks(pos: seq<Po>)
    ensures |Kept(pos)| == |Dedup(pos)|
    ensures forall k :: 0 <= k < |Kept(pos)| ==> Kept(pos)[k] < |pos| && Dedup(pos)[k] == pos[Kept(pos)[k]]
  {
    if pos != [] {
      var n := |pos| - 1;
      var pre := pos[..n];
      KeptPicks(pre);
      forall k | 0 <= k < |Kept(pre)| ensures Dedup(pos)[k] == pos[Kept(pre)[k]] {
        assert Dedup(pos)[k] == Dedup(pre)[k] == pre[Kept(pre)[k]];
      }
    }
  }

  /** No obligation before a kept one has its description. */
  lemma {:induction false} KeptFirst(pos: seq<Po>)
    ensures forall k :: 0 <= k < |Kept(pos)| ==> Kept(pos)[k] < |pos|
    ensures forall k :: 0 <= k < |Kept(pos)| ==>
      forall i :: 0 <= i < Kept(pos)[k] ==> pos[i].description != pos[Kept(pos)[k]].description
  {
    if pos != [] {
      var n := |pos| - 1;
      var pre := pos[..n];
      KeptFirst(pre);
      if pos[n].description !in Descriptions(pre) {
        forall i | 0 <= i < n ensures pos[i].description != pos[n].description {
          assert pre[i] in pre;
        }
      }
    }
  }

  /** The kept positions ascend. */
  lemma {:induction false} KeptAscending(pos: seq<Po>)
    ensures forall k :: 0 <= k < |Kept(pos)| ==> Kept(pos)[k] < |pos|
    ensures forall k, l :: 0 <= k < l < |Kept(pos)| ==> Kept(pos)[k] < Kept(pos)[l]
  {
    if pos != [] {
      KeptAscending(pos[..|pos| - 1]);
    }
  }

  lemma CandidatesStep(lines: seq<string>, i: nat)
    requires i < |lines|
    ensures Candidates(lines[..i + 1])
         == Candidates(lines[..i]) + (if Strip(lines[i]) == [] then [] else LinePos(Strip(lines[i]), Groups))
  {
    assert lines[..i + 1][..i] == lines[..i];
  }

  lemma DedupStep(pos: seq<Po>, k: nat)
    requires k < |pos|
    ensures Descriptions(pos[..k + 1]) == Descriptions(pos[..k]) + {pos[k].description}
    ensures Dedup(pos[..k + 1])
         == if pos[k].description in Descriptions(pos[..k]) then Dedup(pos[..k]) else Dedup(pos[..k]) + [pos[k]]
  {
    assert pos[..k + 1][..k] == pos[..k];
    assert pos[..k + 1] == pos[..k] + [pos[k]];
  }

  /** `extract_pos`: candidate obligations line by line, then the dedup loop
      through a set of seen descriptions. */
  method ExtractPos(text: string) returns (dedup: seq<Po>)
    ensures dedup == Dedup(Candidates(Pieces(text)))
  {
    var out := CandidateLoop(Pieces(text));
    dedup := DedupLoop(out);
  }

  /** The first loop of `extract_pos`: each non-blank stripped line adds the
      obligations its keywords suggest. */
  method CandidateLoop(lines: seq<string>) returns (out: seq<Po>)
    ensures out == Candidates(lines)
  {
    out := [];
    var i := 0;
    while i < |lines|
      invariant 0 <= i <= |lines|
      invariant out == Candidates(lines[..i])
    {
      CandidatesStep(lines, i);
      var l := Strip(lines[i]);
      if l != [] {
        out := out + LinePos(l, Groups);
      }
      i := i + 1;
    }
    assert lines[..i] == lines;
  }

  /** The second loop of `extract_pos`: keep an obligation only when its
      description has not been seen. */
  method DedupLoop(out: seq<Po>) returns (dedup: seq<Po>)
    ensures dedup == Dedup(out)
  {
    var seen: set<string> := {};
    dedup := [];
    var k := 0;
    while k < |out|
      invariant 0 <= k <= |out|
      invariant dedup == Dedup(out[..k])
      invariant seen == Descriptions(out[..k])
    {
      var po := out[k];
      DedupStep(out, k);
      if po.description !in seen {
        seen := seen + {po.description};
        dedup := dedup + [po];
      }
      k := k + 1;
    }
    assert out[..k] == out;
  }

  /** A recommendation: the issue, the suggested language and its rationale. */
  datatype Recommendation = Recommendation(issue: string, suggestedLanguage: string, rationale: string)

  const ReturnRec := Recommendation("Right of return",
    "Add restocking fee and defined return window; specify estimation method.", "Reduce reversal risk")
  const AcceptanceRec := Recommendation("Acceptance without criteria",
    "Define objective criteria and testing responsibility; link recognition to formal acceptance.",
    "Prevent premature recognition")

  /** `recommendations`: a return recommendation when a right to return has
      no restocking fee, then an acceptance one when acceptance has no criteria. */
  method Recommendations(text: string) returns (recs: seq<Recommendation>)
    ensures var low := Lower(text);
      && (ReturnRec in recs <==> Contains(low, "right to return") && !Contains(low, "restocking fee"))
      && (AcceptanceRec in recs <==> Contains(low, "acceptance") && !Contains(low, "criteria"))
      && |recs| <= 2
      && (|recs| == 2 ==> recs == [ReturnRec, AcceptanceRec])
  {
    recs := [];
    var low := Lower(text);
    if Contains(low, "right to return") && !Contains(low, "restocking fee") {
      recs := recs + [ReturnRec];
    }
    if Contains(low, "acceptance") && !Contains(low, "criteria") {
      recs := recs + [AcceptanceRec];
    }
  }

  /** `' '.join(lines[:8])[:600]` over the stripped non-blank lines. */
  function Preview(text: string): (p: string)
    ensures |p| <= 600
    ensures var all := Join(" ", Take(NonBlankLines(text), 8));
      |p| <= |all| && p == all[..|p|]
      && (|all| <= 600 ==> p == all)
  {
    var all := Join(" ", Take(NonBlankLines(text), 8));
    if |all| <= 600 then all else all[..600]
  }

  /** `s[:n]` */
  function Take<T>(s: seq<T>, n: nat): (r: seq<T>)
    ensures |r| == if |s| <= n then |s| else n
    ensures r == s[..|r|]
  {
    if |s| <= n then s else s[..n]
  }

  const RevenueIntro := "This contract appears to include customer deliverables. Preliminary obligations detected. Excerpt: "
  const NonrevenueIntro := "This document likely falls outside ASC 606. Route to appropriate guidance. Excerpt: "

  /** `summarize_revenue`: the fixed introduction, the excerpt, an ellipsis. */
  function SummarizeRevenue(text: string): (r: string)
    ensures |RevenueIntro| + 3 <= |r| <= |RevenueIntro| + 603
    ensures r[..|RevenueIntro|] == RevenueIntro && r[|r| - 3..] == "..."
    ensures r[|RevenueIntro|..|r| - 3] == Preview(text)
  {
    RevenueIntro + Preview(text) + "..."
  }

  /** `summarize_nonrevenue`: the same excerpt under another introduction. */
  function SummarizeNonrevenue(text: string): (r: string)
    ensures |NonrevenueIntro| + 3 <= |r| <= |NonrevenueIntro| + 603
    ensures r[..|NonrevenueIntro|] == NonrevenueIntro && r[|r| - 3..] == "..."
    ensures r[|NonrevenueIntro|..|r| - 3] == Preview(text)
  {
    NonrevenueIntro + Preview(text) + "..."
  }
}
