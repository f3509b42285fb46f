/**
 * Lead records, the scoring configuration, and the five sub-score functions
 * of lead_prioritizer_app.py: industry, growth signals, tech fit, region and
 * contact availability.
 */
module Leads {
  import opened Text
  import opened Wrappers
  import opened Aggregate

  /**
   * One company row. A missing text field is the empty string; `employees`
   * is `None` when the cell is missing or is not an integer.
   */
  datatype Lead = Lead(
    industry: string,
    hiring: string,
    fundingStage: string,
    techStack: string,
    region: string,
    emailPresent: string,
    employees: Option<int>)

  /** The settings of one scoring run: target industries, preferred regions, weights. */
  datatype Config = Config(
    targetIndustries: seq<string>,
    preferredRegions: seq<string>,
    weights: Weights)

  /** The settings the sidebar starts from. */
  const DefaultConfig := Config(
    ["SaaS", "Fintech", "HealthTech", "AI", "EdTech"],
    ["US", "EU"],
    Weights(0.30, 0.25, 0.20, 0.10, 0.15))

  /** A configured list entry as the sidebar produces it: stripped and not empty. */
  predicate CleanEntry(e: string) {
    e != [] && Strip(e) == e
  }

  /**
   * `str(v).strip().lower()`, the form in which flag fields are compared: no
   * longer than `s`, free of upper-case letters, and empty exactly when `s`
   * is blank.
   */
  function Normalise(s: string): (r: string)
    ensures |r| <= |s|
    ensures forall i :: 0 <= i < |r| ==> !('A' <= r[i] <= 'Z')
    ensures r == "" <==> IsBlank(s)
  {
    Lower(Strip(s))
  }

  /** Values of the `hiring` field read as yes. */
  const HiringYes: seq<string> := ["true", "yes", "1"]

  /** Values of the `email_present` field read as yes. */
  const EmailYes: seq<string> := ["yes", "y", "true", "1"]

  predicate IsHiring(hiring: string) {
    Normalise(hiring) in HiringYes
  }

  predicate HasEmail(emailPresent: string) {
    Normalise(emailPresent) in EmailYes
  }

  /** Padding a flag with whitespace or changing its letter case does not change how it reads. */
  lemma NormaliseInsensitive(a: string, s: string, b: string)
    requires IsBlank(a) && IsBlank(b)
    ensures Normalise(a + s + b) == Normalise(s)
    ensures Normalise(Lower(s)) == Normalise(s)
  {
    StripPadding(a, s, b);
    StripLower(s);
    LowerIdempotent(Strip(s));
  }

  // ---------------------------------------------------------------------------
  // Industry and region

  /**
   * Industry sub-score: 0 for a blank industry, 1.0 when the industry exactly
   * (untrimmed, case-sensitive) equals a target, 0.33 otherwise.
   */
  function IndustryScore(industry: string, targets: seq<string>): (r: real)
    ensures 0.0 <= r <= 1.0
    ensures r == 0.0 <==> IsBlank(industry)
    ensures r == 1.0 <==> !IsBlank(industry) && industry in targets
    ensures r == 0.33 <==> !IsBlank(industry) && industry !in targets
  {
    if Strip(industry) == "" then 0.0
    else if industry in targets then 1.0
    else 0.33
  }

  /**
   * Region sub-score: 0 for a blank region, 1.0 when the region exactly equals
   * a preferred region, 0.3 otherwise.
   */
  function RegionScore(region: string, preferred: seq<string>): (r: real)
    ensures 0.0 <= r <= 1.0
    ensures r == 0.0 <==> IsBlank(region)
    ensures r == 1.0 <==> !IsBlank(region) && region in preferred
    ensures r == 0.3 <==> !IsBlank(region) && region !in preferred
  {
    if Strip(region) == "" then 0.0
    else if region in preferred then 1.0
    else 0.3
  }

  /**
   * Matching is exact: when every configured entry is clean, an industry or
   * region with surrounding whitespace never gets full credit.
   */
  lemma PaddedNeverMatches(value: string, entries: seq<string>)
    requires forall e :: e in entries ==> CleanEntry(e)
    requires |value| > 0 && (IsSpace(value[0]) || IsSpace(value[|value| - 1]))
    ensures IndustryScore(value, entries) != 1.0
    ensures RegionScore(value, entries) != 1.0
  {
  }

  // ---------------------------------------------------------------------------
  // Contact

  /** Contact sub-score: 1.0 exactly when `email_present` reads as yes, else 0. */
  function ContactScore(emailPresent: string): (r: real)
    ensures r == 1.0 <==> HasEmail(emailPresent)
    ensures r == 0.0 <==> !HasEmail(emailPresent)
  {
    if Normalise(emailPresent) in EmailYes then 1.0 else 0.0
  }

  // ---------------------------------------------------------------------------
  // Growth signals

  /** A funding rule: any of its phrases found in the funding text earns its credit. */
  datatype FundingRule = FundingRule(phrases: seq<string>, credit: real)

  /** The funding ladder, in priority order. */
  const FundingLadder: seq<FundingRule> := [
    FundingRule(["seed"], 0.5),
    FundingRule(["series a"], 0.8),
    FundingRule(["series b"], 1.0),
    FundingRule(["series c", "series d"], 1.2)
  ]

  predicate RuleMatches(rule: FundingRule, funding: string) {
    exists p :: p in rule.phrases && Contains(funding, p)
  }

  /** The credit of the first rule that matches, or 0 when none does. */
  function FirstMatchCredit(rules: seq<FundingRule>, funding: string): real {
    if |rules| == 0 then 0.0
    else if RuleMatches(rules[0], funding) then rules[0].credit
    else FirstMatchCredit(rules[1..], funding)
  }

  /** First match wins: the credit is that of the earliest matching rule. */
  lemma {:induction false} FirstMatchWins(rules: seq<FundingRule>, funding: string, i: int)
    requires 0 <= i < |rules| && RuleMatches(rules[i], funding)
    requires forall j :: 0 <= j < i ==> !RuleMatches(rules[j], funding)
    ensures FirstMatchCredit(rules, funding) == rules[i].credit
  {
    if i > 0 {
      assert !RuleMatches(rules[0], funding);
      FirstMatchWins(rules[1..], funding, i - 1);
    }
  }

  /** No matching rule means no credit. */
  lemma {:induction false} NoMatchNoCredit(rules: seq<FundingRule>, funding: string)
    requires forall j :: 0 <= j < |rules| ==> !RuleMatches(rules[j], funding)
    ensures FirstMatchCredit(rules, funding) == 0.0
  {
    if |rules| > 0 {
      NoMatchNoCredit(rules[1..], funding);
    }
  }

  /**
   * The funding part of `growth_signal_score`: the stripped, lower-cased
   * funding text is tested against the ladder phrases in order.
   */
  function FundingCredit(fundingStage: string): (r: real)
    ensures r == 0.0 || r == 0.5 || r == 0.8 || r == 1.0 || r == 1.2
    ensures Contains(Normalise(fundingStage), "seed") ==> r == 0.5
  {
    var funding := Normalise(fundingStage);
    if funding == "" then 0.0
    else if Contains(funding, "seed") then 0.5
    else if Contains(funding, "series a") then 0.8
    else if Contains(funding, "series b") then 1.0
    else if Contains(funding, "series c") || Contains(funding, "series d") then 1.2
    else 0.0
  }

  /** The chain of tests is exactly the first-match reading of the ladder table. */
  lemma FundingCreditIsLadder(fundingStage: string)
    ensures FundingCredit(fundingStage) == FirstMatchCredit(FundingLadder, Normalise(fundingStage))
  {
    var f := Normalise(fundingStage);
    LadderRules(f);
    if f == "" {
      EmptyMatchesNothing(f);
      NoMatchNoCredit(FundingLadder, f);
    } else {
      LadderChain(f);
    }
  }

  /** On a non-empty funding text the chain of tests reads the ladder first-match-first. */
  lemma LadderChain(f: string)
    requires f != ""
    ensures FirstMatchCredit(FundingLadder, f) ==
      if Contains(f, "seed") then 0.5
      else if Contains(f, "series a") then 0.8
      else if Contains(f, "series b") then 1.0
      else if Contains(f, "series c") || Contains(f, "series d") then 1.2
      else 0.0
  {
    var L := FundingLadder;
    LadderRules(f);
    if Contains(f, "seed") {
      FirstMatchWins(L, f, 0);
    } else if Contains(f, "series a") {
      FirstMatchWins(L, f, 1);
    } else if Contains(f, "series b") {
      FirstMatchWins(L, f, 2);
    } else if Contains(f, "series c") || Contains(f, "series d") {
      FirstMatchWins(L, f, 3);
    } else {
      NoMatchNoCredit(L, f);
    }
  }

  lemma LadderRules(f: string)
    ensures |FundingLadder| == 4
    ensures RuleMatches(FundingLadder[0], f) <==> Contains(f, "seed")
    ensures RuleMatches(FundingLadder[1], f) <==> Contains(f, "series a")
    ensures RuleMatches(FundingLadder[2], f) <==> Contains(f, "series b")
    ensures RuleMatches(FundingLadder[3], f) <==> Contains(f, "series c") || Contains(f, "series d")
  {
    var L := FundingLadder;
    assert L[0].phrases == ["seed"] && L[1].phrases == ["series a"];
    assert L[2].phrases == ["series b"] && L[3].phrases == ["series c", "series d"];
  }

  lemma EmptyMatchesNothing(f: string)
    requires f == ""
    ensures !Contains(f, "seed") && !Contains(f, "series a") && !Contains(f, "series b")
    ensures !Contains(f, "series c") && !Contains(f, "series d")
  {
  }

  function HiringCredit(hiring: string): (r: real)
    ensures r == 1.0 <==> IsHiring(hiring)
    ensures r == 0.0 <==> !IsHiring(hiring)
  {
    if Normalise(hiring) in HiringYes then 1.0 else 0.0
  }

  /**
   * Growth sub-score: hiring credit plus funding credit, capped at 2.0. The cap
   * only bites for a hiring company whose first funding match is series C or D.
   */
  function GrowthScore(hiring: string, fundingStage: string): (r: real)
    ensures 0.0 <= r <= 2.0
    ensures r == 2.0 <==> IsHiring(hiring) && FundingCredit(fundingStage) >= 1.0
    ensures r != HiringCredit(hiring) + FundingCredit(fundingStage)
            <==> IsHiring(hiring) && FundingCredit(fundingStage) == 1.2
  {
    var score := HiringCredit(hiring) + FundingCredit(fundingStage);
    if score < 2.0 then score else 2.0
  }

  // ---------------------------------------------------------------------------
  // Tech fit

  const InfraTech: seq<string> := ["aws", "gcp", "azure", "kubernetes", "docker"]
  const ModernTech: seq<string> := ["python", "java", "nodejs", "react", "tensorflow", "pytorch"]
  const LegacyTech: seq<string> := ["salesforce", "oracle", "sap"]

  /** Some entry of `list` is one of the tokens. */
  predicate AnyIn(tokens: seq<string>, list: seq<string>) {
    exists t :: t in list && t in tokens
  }

  /** The non-blank pieces, each stripped and lower-cased, in order. */
  function KeepTokens(pieces: seq<string>): (r: seq<string>)
    ensures |r| <= |pieces|
    ensures forall k :: 0 <= k < |r| ==> r[k] != ""
  {
    if |pieces| == 0 then []
    else
      var p := pieces[0];
      var rest := KeepTokens(pieces[1..]);
      if Strip(p) != "" then [Normalise(p)] + rest else rest
  }

  /** A token is kept exactly when it is the normal form of some non-blank piece. */
  lemma {:induction false} KeepTokensMembers(pieces: seq<string>)
    ensures forall t :: t in KeepTokens(pieces) <==>
      exists p :: p in pieces && !IsBlank(p) && t == Normalise(p)
  {
    if |pieces| > 0 {
      var p0, rest := pieces[0], pieces[1..];
      KeepTokensMembers(rest);
      assert forall q :: q in pieces <==> q == p0 || q in rest;
      var ks, kr := KeepTokens(pieces), KeepTokens(rest);
      assert ks == if IsBlank(p0) then kr else [Normalise(p0)] + kr;
      forall t | t in ks ensures exists p :: p in pieces && !IsBlank(p) && t == Normalise(p) {
        if !IsBlank(p0) && t == Normalise(p0) {
          assert p0 in pieces;
        } else {
          assert t in kr;
          var p :| p in rest && !IsBlank(p) && t == Normalise(p);
          assert p in pieces;
        }
      }
      forall p | p in pieces && !IsBlank(p) ensures Normalise(p) in ks {
        if p != p0 {
          assert p in rest;
        }
      }
    }
  }

  /**
   * The tokens of a `;`-separated tech stack: none empty, at most one per
   * piece, and a text is a token exactly when it is the normal form of some
   * non-blank piece.
   */
  function TechTokens(techStack: string): (r: seq<string>)
    ensures |r| <= |Split(techStack, ';')|
    ensures forall k :: 0 <= k < |r| ==> r[k] != ""
    ensures forall t :: t in r <==> exists p :: p in Split(techStack, ';') && !IsBlank(p) && t == Normalise(p)
  {
    KeepTokensMembers(Split(techStack, ';'));
    KeepTokens(Split(techStack, ';'))
  }

  lemma {:induction false} KeepTokensBlank(pieces: seq<string>)
    requires forall k :: 0 <= k < |pieces| ==> IsBlank(pieces[k])
    ensures KeepTokens(pieces) == []
  {
    if |pieces| > 0 {
      KeepTokensBlank(pieces[1..]);
    }
  }

  /** A blank tech stack has no tokens. */
  lemma BlankStackNoTokens(techStack: string)
    requires IsBlank(techStack)
    ensures TechTokens(techStack) == []
  {
    SplitBlank(techStack, ';');
    KeepTokensBlank(Split(techStack, ';'));
  }

  /**
   * The three independent tech checks, summed without a cap: between 0 and 2,
   * 0 exactly when no check fires, at least 0.8 exactly when an infrastructure
   * or modern token is present, at least 1.8 exactly when both are.
   */
  function TechCredit(tokens: seq<string>): (r: real)
    ensures 0.0 <= r <= 2.0
    ensures r == 0.0 <==> !AnyIn(tokens, InfraTech) && !AnyIn(tokens, ModernTech) && !AnyIn(tokens, LegacyTech)
    ensures r >= 0.8 <==> AnyIn(tokens, InfraTech) || AnyIn(tokens, ModernTech)
    ensures r >= 1.8 <==> AnyIn(tokens, InfraTech) && AnyIn(tokens, ModernTech)
  {
    (if AnyIn(tokens, InfraTech) then 1.0 else 0.0)
    + (if AnyIn(tokens, ModernTech) then 0.8 else 0.0)
    + (if AnyIn(tokens, LegacyTech) then 0.2 else 0.0)
  }

  /**
   * Tech-fit sub-score. Neither the blank guard nor the cap at 2.0 ever changes
   * the uncapped sum of the three checks; the score is 0 exactly when no check
   * fires, reaches 0.8 exactly when an infrastructure or modern token is present,
   * and reaches 1.8 exactly when both are.
   */
  function TechFitScore(techStack: string): (r: real)
    ensures r == TechCredit(TechTokens(techStack))
    ensures 0.0 <= r <= 2.0
    ensures var ts := TechTokens(techStack);
      r == 0.0 <==> !AnyIn(ts, InfraTech) && !AnyIn(ts, ModernTech) && !AnyIn(ts, LegacyTech)
    ensures var ts := TechTokens(techStack);
      r >= 0.8 <==> AnyIn(ts, InfraTech) || AnyIn(ts, ModernTech)
    ensures var ts := TechTokens(techStack);
      r >= 1.8 <==> AnyIn(ts, InfraTech) && AnyIn(ts, ModernTech)
  {
    if Strip(techStack) == "" then
      BlankStackNoTokens(techStack);
      0.0
    else
      var score := TechCredit(TechTokens(techStack));
      if score < 2.0 then score else 2.0
  }

  // ---------------------------------------------------------------------------
  // All five

  /** The five sub-scores of a lead under a configuration; each lies within its cap. */
  function SubScoresOf(lead: Lead, cfg: Config): (s: SubScores)
    ensures InBounds(s)
  {
    SubScores(
      IndustryScore(lead.industry, cfg.targetIndustries),
      GrowthScore(lead.hiring, lead.fundingStage),
      TechFitScore(lead.techStack),
      RegionScore(lead.region, cfg.preferredRegions),
      ContactScore(lead.emailPresent))
  }
}
