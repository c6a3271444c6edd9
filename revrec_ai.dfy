/** The rule-based contract reader of the revrec service: a standard from a
    few keywords, at most two fixed obligations, and one return-clause risk
    and recommendation. Matching is on the lower-cased text. */
module RevrecAi {
  import opened Text
  import opened Wrappers
  import NlpRules

  /** `classify_standard`: a lease anywhere wins over customer terms. */
  function ClassifyStandard(text: string): (r: (string, string))
    ensures Contains(Lower(text), "lease") ==> r == ("ASC842", "Lease keywords")
    ensures !Contains(Lower(text), "lease") ==>
      (r.0 == "ASC606" <==> AnyIn(Lower(text), ["customer", "subscription", "license"]))
    ensures r.0 == "Unknown" <==> !Contains(Lower(text), "lease") && !AnyIn(Lower(text), ["customer", "subscription", "license"])
  {
    var t := Lower(text);
    if Contains(t, "lease") then ("ASC842", "Lease keywords")
    else if Contains(t, "customer") || Contains(t, "subscription") || Contains(t, "license") then
      AnyOfThree(t, "customer", "subscription", "license");
      ("ASC606", "Customer terms")
    else
      AnyOfThree(t, "customer", "subscription", "license");
      ("Unknown", "No clear match")
  }

  /** The standard does not depend on letter case. */
  lemma ClassifyStandardIgnoresCase(text: string)
    ensures ClassifyStandard(Upper(text)) == ClassifyStandard(text)
  {
    LowerUpper(text);
  }

  /** The two readers disagree on a bare "lease": this one reads a lease,
      the older rules find no standard, since they look for lease phrases. */
  lemma BareLeaseReadersDisagree()
    ensures ClassifyStandard("Lease").0 == "ASC842"
    ensures NlpRules.DetectStandard("Lease").0 == "Unknown"
  {
    var t := Lower("Lease");
    assert t == "lease";
    ContainsAt(t, "lease", 0);
    forall k | k in NlpRules.LeaseTerms + NlpRules.CollaborationTerms + NlpRules.NonfinancialTerms
                 + NlpRules.InsuranceTerms + NlpRules.CustomerTerms
      ensures !Contains(t, k)
    {
      ContainsShorter(t, k);
    }
  }

  /** `a in t or b in t or c in t` is `any(k in t for k in [a, b, c])`. */
  lemma AnyOfThree(t: string, a: string, b: string, c: string)
    ensures AnyIn(t, [a, b, c]) <==> Contains(t, a) || Contains(t, b) || Contains(t, c)
  {
    if Contains(t, a) || Contains(t, b) || Contains(t, c) {
      var k := if Contains(t, a) then a else if Contains(t, b) then b else c;
      assert k in [a, b, c];
    }
  }

  /** An obligation read from the text, with its fixed dates, SSP in cents
      and snippet. */
  datatype AiPo = AiPo(description: string, recognition: string, startDate: string, endDate: Option<string>,
                       ssp: int, snippet: string)

  const HardwarePo := AiPo("Hardware", "point_in_time", "2025-01-01", None, 80000, "...hardware...")
  const SaasPo := AiPo("SaaS", "straight_line", "2025-01-01", Some("2025-12-01"), 40000, "...saas...")

  /** `extract_pos`: hardware when the text names it, then SaaS when it
      names SaaS or software. */
  method ExtractPos(text: string) returns (out: seq<AiPo>)
    ensures var t := Lower(text);
      && (HardwarePo in out <==> Contains(t, "hardware"))
      && (SaasPo in out <==> Contains(t, "saas") || Contains(t, "software"))
      && |out| <= 2
      && (|out| == 2 ==> out == [HardwarePo, SaasPo])
      && forall po :: po in out ==> po == HardwarePo || po == SaasPo
  {
    out := [];
    if Contains(Lower(text), "hardware") {
      out := out + [HardwarePo];
    }
    if Contains(Lower(text), "saas") || Contains(Lower(text), "software") {
      out := out + [SaasPo];
    }
  }

  datatype Risk = Risk(kind: string, severity: string, snippet: string)

  const ReturnRisk := Risk("right_of_return", "high", "...right to return...")

  /** `detect_risks`: the return risk exactly when the text grants a right to return. */
  method DetectRisks(text: string) returns (r: seq<Risk>)
    ensures Contains(Lower(text), "right to return") ==> r == [ReturnRisk]
    ensures !Contains(Lower(text), "right to return") ==> r == []
  {
    r := [];
    var t := Lower(text);
    if Contains(t, "right to return") {
      r := r + [ReturnRisk];
    }
  }

  datatype LanguageRec = LanguageRec(issue: string, suggestedLanguage: string)

  const ReturnClauseRec := LanguageRec("Return clause", "Define estimation method for returns.")

  /** `recommend_language`: one return-clause recommendation exactly when
      the text grants a right to return. */
  method RecommendLanguage(text: string) returns (rec: seq<LanguageRec>)
    ensures Contains(Lower(text), "right to return") ==> rec == [ReturnClauseRec]
    ensures !Contains(Lower(text), "right to return") ==> rec == []
  {
    rec := [];
    var t := Lower(text);
    if Contains(t, "right to return") {
      rec := rec + [ReturnClauseRec];
    }
  }
}
