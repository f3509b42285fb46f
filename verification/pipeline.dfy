/**
 * The per-record pipeline: the five sub-scores of a lead are aggregated into
 * a 0..100 score (`compute_score_row`), the score is put into a tier, and the
 * insight is generated from the raw fields. Records are scored independently.
 */
module Pipeline {
  import opened Text
  import opened Wrappers
  import opened Aggregate
  import opened Leads
  import opened Tiers
  import opened Insights

  /** A lead with its score, tier and insight attached. */
  datatype ScoredLead = ScoredLead(lead: Lead, score: int, tier: Tier, insight: string)

  /**
   * `compute_score_row`: an integer in 0..100 for every lead and every
   * configuration, and 0 whenever no weighted sum can be positive.
   */
  function ComputeScore(lead: Lead, cfg: Config): (r: int)
    ensures 0 <= r <= 100
    ensures MaxWeighted(cfg.weights) <= 0.0 ==> r == 0
  {
    Score(SubScoresOf(lead, cfg), cfg.weights)
  }

  /** One row of the scored table: score, its tier, and the insight. */
  function ScoreRow(lead: Lead, cfg: Config): (r: ScoredLead)
    ensures r.lead == lead
    ensures 0 <= r.score <= 100
    ensures Classify(r.score) == Some(r.tier)
    ensures r.insight == Quiet <==> Signals(lead) == []
  {
    var score := ComputeScore(lead, cfg);
    ScoredLead(lead, score, Classify(score).value, Insight(lead))
  }

  /**
   * The scored table: each lead keeps its place and gets its own score, the
   * tier of that score, and its own insight; no row depends on another.
   */
  function ScoreAll(leads: seq<Lead>, cfg: Config): (rows: seq<ScoredLead>)
    ensures |rows| == |leads|
    ensures forall i :: 0 <= i < |leads| ==>
      rows[i].lead == leads[i] && 0 <= rows[i].score <= 100 && Classify(rows[i].score) == Some(rows[i].tier)
    ensures forall i :: 0 <= i < |leads| ==>
      rows[i].score == ComputeScore(leads[i], cfg) && rows[i].insight == Insight(leads[i])
  {
    seq(|leads|, i requires 0 <= i < |leads| => ScoreRow(leads[i], cfg))
  }

  /** Scoring two tables one after the other is scoring them together: rows do not interact. */
  lemma ScoreAllSplit(a: seq<Lead>, b: seq<Lead>, cfg: Config)
    ensures ScoreAll(a + b, cfg) == ScoreAll(a, cfg) + ScoreAll(b, cfg)
  {
    var whole, left, right := ScoreAll(a + b, cfg), ScoreAll(a, cfg), ScoreAll(b, cfg);
    forall i | 0 <= i < |a| + |b| ensures whole[i] == (left + right)[i] {
      if i < |a| {
        assert (a + b)[i] == a[i];
        assert whole[i] == ScoreRow(a[i], cfg) == left[i];
      } else {
        assert (a + b)[i] == b[i - |a|];
        assert whole[i] == ScoreRow(b[i - |a|], cfg) == right[i - |a|];
      }
    }
    assert |whole| == |left + right|;
  }

  // ---------------------------------------------------------------------------
  // Properties of the score

  /** With non-negative weights the percentage is already within 0..100, so the clamp never acts. */
  lemma ClampNeverActs(lead: Lead, cfg: Config)
    requires NonNegative(cfg.weights)
    ensures 0.0 <= Percent(SubScoresOf(lead, cfg), cfg.weights) <= 100.0
    ensures ComputeScore(lead, cfg) == RoundHalfEven(Percent(SubScoresOf(lead, cfg), cfg.weights))
  {
    ClampInactive(SubScoresOf(lead, cfg), cfg.weights);
  }

  /** All five weights at zero score every lead 0. */
  lemma AllZeroWeights(lead: Lead, cfg: Config)
    requires cfg.weights == NoWeights
    ensures ComputeScore(lead, cfg) == 0
  {
    NoWeightsScoreZero(SubScoresOf(lead, cfg));
  }

  /** Multiplying all five weights by the same positive factor changes no lead's score. */
  lemma WeightScaleInvariant(lead: Lead, cfg: Config, k: real)
    requires k > 0.0
    ensures ComputeScore(lead, cfg.(weights := Scale(cfg.weights, k))) == ComputeScore(lead, cfg)
  {
    assert SubScoresOf(lead, cfg.(weights := Scale(cfg.weights, k))) == SubScoresOf(lead, cfg);
    ScaleInvariant(SubScoresOf(lead, cfg), cfg.weights, k);
  }

  /** Moving a lead into a preferred region never lowers its score. */
  lemma PreferredRegionNeverLowers(lead: Lead, cfg: Config, region: string)
    requires NonNegative(cfg.weights)
    requires region in cfg.preferredRegions && !IsBlank(region)
    ensures ComputeScore(lead, cfg) <= ComputeScore(lead.(region := region), cfg)
  {
    ScoreMonotone(SubScoresOf(lead, cfg), SubScoresOf(lead.(region := region), cfg), cfg.weights);
  }

  /** Moving a lead into a target industry never lowers its score. */
  lemma TargetIndustryNeverLowers(lead: Lead, cfg: Config, industry: string)
    requires NonNegative(cfg.weights)
    requires industry in cfg.targetIndustries && !IsBlank(industry)
    ensures ComputeScore(lead, cfg) <= ComputeScore(lead.(industry := industry), cfg)
  {
    ScoreMonotone(SubScoresOf(lead, cfg), SubScoresOf(lead.(industry := industry), cfg), cfg.weights);
  }

  /** A lead that starts hiring never scores lower. */
  lemma HiringNeverLowers(lead: Lead, cfg: Config, hiring: string)
    requires NonNegative(cfg.weights)
    requires IsHiring(hiring)
    ensures ComputeScore(lead, cfg) <= ComputeScore(lead.(hiring := hiring), cfg)
  {
    ScoreMonotone(SubScoresOf(lead, cfg), SubScoresOf(lead.(hiring := hiring), cfg), cfg.weights);
  }

  /** A lead that gains a public email never scores lower. */
  lemma EmailNeverLowers(lead: Lead, cfg: Config, emailPresent: string)
    requires NonNegative(cfg.weights)
    requires HasEmail(emailPresent)
    ensures ComputeScore(lead, cfg) <= ComputeScore(lead.(emailPresent := emailPresent), cfg)
  {
    ScoreMonotone(SubScoresOf(lead, cfg), SubScoresOf(lead.(emailPresent := emailPresent), cfg), cfg.weights);
  }

  // ---------------------------------------------------------------------------
  // Worked examples

  /** The first lead of the built-in sample table. */
  const DataZoom := Lead("SaaS", "True", "Series A", "Python;AWS;Postgres", "US", "yes", Some(120))

  /** A word without surrounding whitespace normalises to its lower-case form. */
  lemma Word(w: string, t: string)
    requires w != [] && !IsSpace(w[0]) && !IsSpace(w[|w| - 1])
    requires Lower(w) == t
    ensures Strip(w) != "" && Normalise(w) == t
  {
    StripTrimmed(w);
  }

  /** One mismatching character rules out an occurrence at `i`. */
  lemma Mismatch(s: string, pat: string, i: int, j: int)
    requires 0 <= j < |pat| && 0 <= i && i + j < |s| && s[i + j] != pat[j]
    ensures !OccursAt(s, pat, i)
  {
  }

  /** Three pieces without the separator, joined by it, split back into those three pieces. */
  lemma SplitThree(a: string, b: string, c: string, sep: char)
    requires sep !in a && sep !in b && sep !in c
    ensures Split(a + [sep] + (b + [sep] + c), sep) == [a, b, c]
  {
    SplitTwo(b, c, sep);
    SplitCons(a, b + [sep] + c, sep);
    assert [a] + [b, c] == [a, b, c];
  }

  /** Two pieces without the separator, joined by it, split back into those two pieces. */
  lemma SplitTwo(b: string, c: string, sep: char)
    requires sep !in b && sep !in c
    ensures Split(b + [sep] + c, sep) == [b, c]
  {
    SplitNoSep(c, sep);
    SplitCons(b, c, sep);
  }

  lemma DataZoomPieces()
    ensures Split(DataZoom.techStack, ';') == ["Python", "AWS", "Postgres"]
  {
    assert "Python;AWS;Postgres" == "Python" + [';'] + ("AWS" + [';'] + "Postgres");
    SplitThree("Python", "AWS", "Postgres", ';');
  }

  lemma WordPython() ensures Strip("Python") != "" && Normalise("Python") == "python" { Word("Python", "python"); }
  lemma WordAws() ensures Strip("AWS") != "" && Normalise("AWS") == "aws" { Word("AWS", "aws"); }
  lemma WordPostgres() ensures Strip("Postgres") != "" && Normalise("Postgres") == "postgres" { Word("Postgres", "postgres"); }

  /** Keeping the tokens of pieces that are all words yields exactly their normal forms. */
  lemma {:induction false} KeepAllWords(pieces: seq<string>, tokens: seq<string>)
    requires |pieces| == |tokens|
    requires forall k :: 0 <= k < |pieces| ==> Strip(pieces[k]) != "" && Normalise(pieces[k]) == tokens[k]
    ensures KeepTokens(pieces) == tokens
  {
    if |pieces| > 0 {
      var ps, ts := pieces[1..], tokens[1..];
      assert forall k :: 0 <= k < |ps| ==> ps[k] == pieces[k + 1] && ts[k] == tokens[k + 1];
      KeepAllWords(ps, ts);
      assert Strip(pieces[0]) != "" && Normalise(pieces[0]) == tokens[0];
      assert KeepTokens(pieces) == [tokens[0]] + ts;
      assert tokens == [tokens[0]] + ts;
    }
  }

  /** Three word pieces keep three tokens, in order. */
  lemma KeepThreeWords(p: string, q: string, u: string, a: string, b: string, c: string)
    requires Strip(p) != "" && Normalise(p) == a
    requires Strip(q) != "" && Normalise(q) == b
    requires Strip(u) != "" && Normalise(u) == c
    ensures KeepTokens([p, q, u]) == [a, b, c]
  {
    var pieces, tokens := [p, q, u], [a, b, c];
    forall k | 0 <= k < 3 ensures Strip(pieces[k]) != "" && Normalise(pieces[k]) == tokens[k] {
      if k == 0 {
        assert pieces[k] == p && tokens[k] == a;
      } else if k == 1 {
        assert pieces[k] == q && tokens[k] == b;
      } else {
        assert pieces[k] == u && tokens[k] == c;
      }
    }
    KeepAllWords(pieces, tokens);
  }

  /** The tech stack "Python;AWS;Postgres" yields the tokens python, aws, postgres. */
  lemma DataZoomTokens()
    ensures TechTokens(DataZoom.techStack) == ["python", "aws", "postgres"]
  {
    DataZoomPieces();
    WordPython();
    WordAws();
    WordPostgres();
    KeepThreeWords("Python", "AWS", "Postgres", "python", "aws", "postgres");
  }

  /** python is a modern token, aws an infrastructure one, and none of the three is legacy. */
  lemma SampleTechCredit()
    ensures TechCredit(["python", "aws", "postgres"]) == 1.8
  {
    var ts := ["python", "aws", "postgres"];
    assert InfraTech[0] == ts[1] && ModernTech[0] == ts[0];
    assert AnyIn(ts, InfraTech) by { assert InfraTech[0] in InfraTech && InfraTech[0] in ts; }
    assert AnyIn(ts, ModernTech) by { assert ModernTech[0] in ModernTech && ModernTech[0] in ts; }
    assert !AnyIn(ts, LegacyTech) by {
      forall t | t in LegacyTech ensures t !in ts {
        assert t[0] == 's' || t[0] == 'o';
      }
    }
  }

  /** A stack whose tokens are python, aws and postgres fits with 1.8. */
  lemma TechFitOfTokens(techStack: string)
    requires TechTokens(techStack) == ["python", "aws", "postgres"]
    ensures TechFitScore(techStack) == 1.8
  {
    SampleTechCredit();
  }

  lemma DataZoomTechFit()
    ensures TechFitScore(DataZoom.techStack) == 1.8
  {
    DataZoomTokens();
    TechFitOfTokens(DataZoom.techStack);
  }

  /** "series a" does not contain "seed": every start position has a mismatching character. */
  lemma SeriesANotSeed(f: string)
    requires f == "series a"
    ensures !Contains(f, "seed")
  {
    Mismatch(f, "seed", 0, 2);
    Mismatch(f, "seed", 1, 0);
    Mismatch(f, "seed", 2, 0);
    Mismatch(f, "seed", 3, 0);
    Mismatch(f, "seed", 4, 0);
    assert forall i :: !OccursAt(f, "seed", i);
  }

  /** A funding text that normalises to "series a" earns the series A credit. */
  lemma SeriesAFunding(fundingStage: string)
    requires Normalise(fundingStage) == "series a"
    ensures FundingCredit(fundingStage) == 0.8
  {
    var f := Normalise(fundingStage);
    SeriesANotSeed(f);
    assert OccursAt(f, "series a", 0);
  }

  /** "Series A" reads as series A funding and not as seed funding. */
  lemma DataZoomFunding()
    ensures FundingCredit(DataZoom.fundingStage) == 0.8
  {
    Word("Series A", "series a");
    SeriesAFunding(DataZoom.fundingStage);
  }

  lemma DataZoomGrowth()
    ensures GrowthScore(DataZoom.hiring, DataZoom.fundingStage) == 1.8
  {
    Word("True", "true");
    DataZoomFunding();
  }

  lemma DataZoomIndustry()
    ensures IndustryScore(DataZoom.industry, DefaultConfig.targetIndustries) == 1.0
  {
    assert !IsSpace("SaaS"[0]);
    assert DefaultConfig.targetIndustries[0] == "SaaS";
  }

  lemma DataZoomRegion()
    ensures RegionScore(DataZoom.region, DefaultConfig.preferredRegions) == 1.0
  {
    assert !IsSpace("US"[0]);
    assert DefaultConfig.preferredRegions[0] == "US";
  }

  lemma DataZoomContact()
    ensures ContactScore(DataZoom.emailPresent) == 1.0
  {
    Word("yes", "yes");
    assert EmailYes[0] == "yes";
  }

  /** The five sub-scores of a lead, assembled from the five separate facts. */
  lemma SubScoresAre(lead: Lead, cfg: Config, s: SubScores)
    requires IndustryScore(lead.industry, cfg.targetIndustries) == s.industry
    requires GrowthScore(lead.hiring, lead.fundingStage) == s.growth
    requires TechFitScore(lead.techStack) == s.tech
    requires RegionScore(lead.region, cfg.preferredRegions) == s.region
    requires ContactScore(lead.emailPresent) == s.contact
    ensures SubScoresOf(lead, cfg) == s
  {
  }

  lemma DataZoomSubScores()
    ensures SubScoresOf(DataZoom, DefaultConfig) == SubScores(1.0, 1.8, 1.8, 1.0, 1.0)
  {
    DataZoomIndustry();
    DataZoomGrowth();
    DataZoomTechFit();
    DataZoomRegion();
    DataZoomContact();
    SubScoresAre(DataZoom, DefaultConfig, SubScores(1.0, 1.8, 1.8, 1.0, 1.0));
  }

  /** The default weights turn the sub-scores (1.0, 1.8, 1.8, 1.0, 1.0) into 1.36 of 1.45, which rounds to 94. */
  lemma SampleScore()
    ensures Weighted(SubScores(1.0, 1.8, 1.8, 1.0, 1.0), DefaultConfig.weights) == 1.36
    ensures MaxWeighted(DefaultConfig.weights) == 1.45
    ensures Score(SubScores(1.0, 1.8, 1.8, 1.0, 1.0), DefaultConfig.weights) == 94
  {
    var p := Percent(SubScores(1.0, 1.8, 1.8, 1.0, 1.0), DefaultConfig.weights);
    assert p == 1.36 / 1.45 * 100.0;
    RoundHalfEvenUnique(p, 94);
  }

  /** Any lead with those sub-scores under the default settings scores 94 and is Hot. */
  lemma HotFromSubScores(lead: Lead)
    requires SubScoresOf(lead, DefaultConfig) == SubScores(1.0, 1.8, 1.8, 1.0, 1.0)
    ensures ComputeScore(lead, DefaultConfig) == 94
    ensures ScoreRow(lead, DefaultConfig).tier == Hot
  {
    SampleScore();
    assert ComputeScore(lead, DefaultConfig) == 94;
    assert Classify(94) == Some(Hot);
  }

  /**
   * The sample lead DataZoom under the default settings: weighted sum 1.36 of
   * a possible 1.45, 93.79 per cent, score 94, tier Hot.
   */
  lemma DataZoomIsHot()
    ensures Weighted(SubScoresOf(DataZoom, DefaultConfig), DefaultConfig.weights) == 1.36
    ensures ComputeScore(DataZoom, DefaultConfig) == 94
    ensures ScoreRow(DataZoom, DefaultConfig).tier == Hot
  {
    DataZoomSubScores();
    SampleScore();
    HotFromSubScores(DataZoom);
  }

  /**
   * A lead with funding stage "Series A", read as hiring, with an "aws" tech
   * token and no AI/ML token, fewer than 200 employees and an email present
   * raises exactly the funding, hiring and cloud signals, in that order.
   */
  lemma SeriesAHiringAwsSignals(lead: Lead)
    requires Strip(lead.fundingStage) == "Series A"
    requires IsHiring(lead.hiring) && HasEmail(lead.emailPresent) && !EnterpriseSized(lead.employees)
    requires UsesAws(TechTokens(lead.techStack)) && !AnyIn(TechTokens(lead.techStack), AiTerms)
    ensures Signals(lead) == [FundingNote("Series A"), ActiveHiring, CloudAws]
  {
    FundingHiringAws(Strip(lead.fundingStage));
  }

  /** Funding, hiring and cloud alone collect to those three signals. */
  lemma FundingHiringAws(f: string)
    requires f != ""
    ensures Collect(f, true, true, false, false, false) == [FundingNote(f), ActiveHiring, CloudAws]
  {
    var tail := Opt(false, AiMl) + (Opt(false, Enterprise) + Opt(false, NoEmail));
    assert tail == [];
    assert Opt(true, CloudAws) + tail == [CloudAws];
    assert Opt(true, ActiveHiring) + [CloudAws] == [ActiveHiring, CloudAws];
    assert Opt(true, FundingNote(f)) + [ActiveHiring, CloudAws] == [FundingNote(f), ActiveHiring, CloudAws];
  }

  /** Those three signals render as one " | "-separated line. */
  lemma SeriesAHiringAwsInsight(lead: Lead)
    requires Signals(lead) == [FundingNote("Series A"), ActiveHiring, CloudAws]
    ensures Insight(lead) == "Funding: Series A | Active hiring | Cloud-based (AWS)"
  {
    var x, y, z := FundingNote("Series A"), ActiveHiring, CloudAws;
    TextsThree(x, y, z);
    JoinThree(Render(x), Render(y), Render(z), Bar);
    SeriesAHiringAwsLine();
  }

  lemma TextsThree(x: Signal, y: Signal, z: Signal)
    ensures Texts([x, y, z]) == [Render(x), Render(y), Render(z)]
  {
    assert [x, y, z][1..] == [y, z] && [y, z][1..] == [z];
  }

  lemma SeriesAHiringAwsLine()
    ensures Render(FundingNote("Series A")) + Bar + Render(ActiveHiring) + Bar + Render(CloudAws)
      == "Funding: Series A | Active hiring | Cloud-based (AWS)"
  {
    var a := "Funding: " + "Series A";
    assert a == "Funding: Series A";
    var ab := a + " | " + "Active hiring";
    assert ab == "Funding: Series A | Active hiring";
    assert ab + " | " + "Cloud-based (AWS)" == "Funding: Series A | Active hiring | Cloud-based (AWS)";
  }

  /** None of python, aws, postgres is an AI/ML term: each differs in length or first letter. */
  lemma NoAiTokens(ts: seq<string>)
    requires ts == ["python", "aws", "postgres"]
    ensures !AnyIn(ts, AiTerms)
  {
    forall i, j | 0 <= i < |AiTerms| && 0 <= j < |ts| ensures AiTerms[i] != ts[j] {
      assert |AiTerms[i]| != |ts[j]| || AiTerms[i][0] != ts[j][0];
    }
  }

  /**
   * The insight of the sample lead DataZoom: Series A funding, hiring, and
   * AWS in its stack; 120 employees is not enterprise-sized and it has an email.
   */
  lemma DataZoomInsight()
    ensures Signals(DataZoom) == [FundingNote("Series A"), ActiveHiring, CloudAws]
    ensures Insight(DataZoom) == "Funding: Series A | Active hiring | Cloud-based (AWS)"
  {
    StripTrimmed(DataZoom.fundingStage);
    DataZoomFlags();
    DataZoomTechFlags();
    SeriesAHiringAwsSignals(DataZoom);
    SeriesAHiringAwsInsight(DataZoom);
  }

  /** DataZoom reads as hiring, has an email, and is not enterprise-sized. */
  lemma DataZoomFlags()
    ensures IsHiring(DataZoom.hiring) && HasEmail(DataZoom.emailPresent) && !EnterpriseSized(DataZoom.employees)
  {
    Word("True", "true");
    Word("yes", "yes");
    assert HiringYes[0] == "true" && EmailYes[0] == "yes";
  }

  /** DataZoom's tech tokens include "aws" and no AI/ML term. */
  lemma DataZoomTechFlags()
    ensures UsesAws(TechTokens(DataZoom.techStack)) && !AnyIn(TechTokens(DataZoom.techStack), AiTerms)
  {
    DataZoomTokens();
    NoAiTokens(TechTokens(DataZoom.techStack));
    assert "aws" in TechTokens(DataZoom.techStack);
  }

  /** A blank text normalises to the empty text, which reads as no. */
  lemma BlankNormalises(s: string)
    requires IsBlank(s)
    ensures Normalise(s) == "" && !IsHiring(s) && !HasEmail(s)
  {
    assert Strip(s) == "";
  }

  /** A lead whose text fields are all blank earns nothing on any of the five sub-scores. */
  lemma BlankSubScores(lead: Lead, cfg: Config)
    requires IsBlank(lead.industry) && IsBlank(lead.hiring) && IsBlank(lead.fundingStage)
    requires IsBlank(lead.techStack) && IsBlank(lead.region) && IsBlank(lead.emailPresent)
    ensures SubScoresOf(lead, cfg) == Zeros
  {
    BlankNormalises(lead.hiring);
    BlankNormalises(lead.fundingStage);
    BlankNormalises(lead.emailPresent);
    assert Strip(lead.techStack) == "";
  }

  /** Of all the signals only the missing email fires for a lead with every field blank. */
  lemma BlankSignals(lead: Lead)
    requires IsBlank(lead.hiring) && IsBlank(lead.fundingStage) && IsBlank(lead.techStack)
    requires IsBlank(lead.emailPresent) && lead.employees == None
    ensures Signals(lead) == [NoEmail]
  {
    BlankNormalises(lead.hiring);
    BlankNormalises(lead.emailPresent);
    BlankStackNoTokens(lead.techStack);
    var techs := TechTokens(lead.techStack);
    assert !UsesAws(techs) && !AnyIn(techs, AiTerms);
    assert Strip(lead.fundingStage) == "";
    assert Collect("", false, false, false, false, true) == [NoEmail];
  }

  /** The insight of a lead with every field blank is the missing-email line alone. */
  lemma BlankInsight(lead: Lead)
    requires IsBlank(lead.hiring) && IsBlank(lead.fundingStage) && IsBlank(lead.techStack)
    requires IsBlank(lead.emailPresent) && lead.employees == None
    ensures Insight(lead) == "No public email — harder to reach"
  {
    BlankSignals(lead);
    assert Texts([NoEmail]) == [Render(NoEmail)];
  }

  /**
   * A lead with every field blank scores 0 and is Cold, but its insight is the
   * missing-email line rather than "No strong signals".
   */
  lemma BlankLeadOutcome(lead: Lead, cfg: Config)
    requires IsBlank(lead.industry) && IsBlank(lead.hiring) && IsBlank(lead.fundingStage)
    requires IsBlank(lead.techStack) && IsBlank(lead.region) && IsBlank(lead.emailPresent)
    requires lead.employees == None
    ensures ComputeScore(lead, cfg) == 0
    ensures ScoreRow(lead, cfg).tier == Cold
    ensures Insight(lead) == "No public email — harder to reach"
  {
    BlankSubScores(lead, cfg);
    ZerosScoreZero(cfg.weights);
    assert ComputeScore(lead, cfg) == 0;
    assert Classify(0) == Some(Cold);
    BlankInsight(lead);
  }

  /** Python's `round` sends exact halves to the even neighbour. */
  lemma HalvesGoToEven()
    ensures RoundHalfEven(16.5) == 16
    ensures RoundHalfEven(17.5) == 18
    ensures RoundHalfEven(93.79) == 94
  {
    RoundHalfEvenUnique(16.5, 16);
    RoundHalfEvenUnique(17.5, 18);
    RoundHalfEvenUnique(93.79, 94);
  }
}
