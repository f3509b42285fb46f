/**
 * The insight generator of lead_prioritizer_app.py: the evidence found in a
 * lead's raw fields, in a fixed order, joined with " | ".
 */
module Insights {
  import opened Text
  import opened Wrappers
  import opened Leads

  /** One piece of evidence the generator can report. */
  datatype Signal =
    | FundingNote(stage: string)
    | ActiveHiring
    | CloudAws
    | AiMl
    | Enterprise
    | NoEmail

  /** The fixed reporting order. */
  function Rank(s: Signal): nat {
    match s
    case FundingNote(_) => 0
    case ActiveHiring => 1
    case CloudAws => 2
    case AiMl => 3
    case Enterprise => 4
    case NoEmail => 5
  }

  /**
   * The text each signal is reported as. No signal's text is a prefix of the
   * quiet text, so an insight that starts with a signal never reads as quiet.
   */
  function Render(s: Signal): (r: string)
    ensures |r| > 0 && !(r <= Quiet)
  {
    assert Quiet[0] == 'N' && Quiet[3] == 's';
    match s
    case FundingNote(stage) => "Funding: " + stage
    case ActiveHiring => "Active hiring"
    case CloudAws => "Cloud-based (AWS)"
    case AiMl => "AI/ML capabilities"
    case Enterprise => "Enterprise-sized (>=200 employees)"
    case NoEmail => "No public email — harder to reach"
  }

  /** The insight reported when no signal fires. */
  const Quiet: string := "No strong signals"

  /** The separator between signal texts. */
  const Bar: string := " | "

  /** Tokens that mark AI/ML capability. */
  const AiTerms: seq<string> := ["tensorflow", "pytorch", "ai", "tensor"]

  /**
   * Some tech token contains "aws" anywhere in it: a substring test, unlike
   * the exact-token tests elsewhere, so the token "aws" itself fires it and
   * tokens shorter than three characters never do.
   */
  predicate UsesAws(tokens: seq<string>)
    ensures "aws" in tokens ==> UsesAws(tokens)
    ensures (forall t :: t in tokens ==> |t| < 3) ==> !UsesAws(tokens)
  {
    assert OccursAt("aws", "aws", 0);
    exists t :: t in tokens && Contains(t, "aws")
  }

  /**
   * A head-count that parsed, is truthy (non-zero) and is at least 200. The
   * truthiness test adds nothing: the size test alone decides.
   */
  predicate EnterpriseSized(employees: Option<int>)
    ensures EnterpriseSized(employees) <==> employees.Some? && employees.value >= 200
  {
    employees.Some? && employees.value != 0 && employees.value >= 200
  }

  /** Signals listed in strictly increasing rank: the fixed order, no repeats. */
  predicate InOrder(sigs: seq<Signal>) {
    |sigs| <= 1 || (Rank(sigs[0]) < Rank(sigs[1]) && InOrder(sigs[1..]))
  }

  /** A list in order has strictly increasing ranks throughout, so no signal repeats. */
  lemma {:induction false} InOrderStrict(sigs: seq<Signal>)
    requires InOrder(sigs)
    ensures forall i, j :: 0 <= i < j < |sigs| ==> Rank(sigs[i]) < Rank(sigs[j])
  {
    if |sigs| > 1 {
      InOrderStrict(sigs[1..]);
      assert forall j :: 1 <= j < |sigs| ==> sigs[1..][j - 1] == sigs[j];
    }
  }

  /** The signal `s` when its test fired, nothing otherwise. */
  function Opt(fired: bool, s: Signal): seq<Signal> {
    if fired then [s] else []
  }

  /** Every listed signal ranks at least `k`. */
  predicate RanksFrom(sigs: seq<Signal>, k: nat) {
    forall x :: x in sigs ==> k <= Rank(x)
  }

  /**
   * Putting an optional signal in front of an ordered list of higher-ranked
   * signals keeps the list in order, and nothing in it ranks below the new signal.
   */
  lemma OptCons(fired: bool, s: Signal, rest: seq<Signal>)
    requires InOrder(rest) && RanksFrom(rest, Rank(s) + 1)
    ensures InOrder(Opt(fired, s) + rest) && RanksFrom(Opt(fired, s) + rest, Rank(s))
  {
    if fired && rest != [] {
      assert rest[0] in rest;
      assert ([s] + rest)[1..] == rest;
    } else if !fired {
      assert Opt(fired, s) + rest == rest;
    }
  }

  /**
   * The body of `generate_insight` up to the join, on the outcome of each
   * test: the checks run in the fixed order, each adding its signal when it fires.
   */
  function Collect(funding: string, hiring: bool, aws: bool, ai: bool, big: bool, noEmail: bool): (r: seq<Signal>)
    ensures |r| <= 6
    ensures r == [] <==> funding == "" && !hiring && !aws && !ai && !big && !noEmail
  {
    Opt(funding != "", FundingNote(funding)) + (Opt(hiring, ActiveHiring) + (Opt(aws, CloudAws)
      + (Opt(ai, AiMl) + (Opt(big, Enterprise) + Opt(noEmail, NoEmail)))))
  }

  /** The collected signals are in the fixed order. */
  lemma CollectOrdered(funding: string, hiring: bool, aws: bool, ai: bool, big: bool, noEmail: bool)
    ensures InOrder(Collect(funding, hiring, aws, ai, big, noEmail))
  {
    var t5 := Opt(noEmail, NoEmail);
    var t4 := Opt(big, Enterprise) + t5;
    var t3 := Opt(ai, AiMl) + t4;
    var t2 := Opt(aws, CloudAws) + t3;
    var t1 := Opt(hiring, ActiveHiring) + t2;
    OptCons(noEmail, NoEmail, []);
    assert t5 == Opt(noEmail, NoEmail) + [];
    OptCons(big, Enterprise, t5);
    OptCons(ai, AiMl, t4);
    OptCons(aws, CloudAws, t3);
    OptCons(hiring, ActiveHiring, t2);
    OptCons(funding != "", FundingNote(funding), t1);
  }

  /** A funding note comes first exactly when there is a funding text, and it carries that text. */
  lemma CollectFundingFirst(funding: string, hiring: bool, aws: bool, ai: bool, big: bool, noEmail: bool)
    ensures var r := Collect(funding, hiring, aws, ai, big, noEmail);
      && ((|r| > 0 && r[0].FundingNote?) <==> funding != "")
      && (|r| > 0 && r[0].FundingNote? ==> r[0].stage == funding)
  {
    var r := Collect(funding, hiring, aws, ai, big, noEmail);
    CollectMembers(funding, hiring, aws, ai, big, noEmail);
    if funding == "" && |r| > 0 {
      assert r[0] in r;
    }
  }

  /**
   * A signal is collected exactly when its test fired: the funding note for a
   * non-empty funding text, each other signal for its own flag.
   */
  lemma CollectMembers(funding: string, hiring: bool, aws: bool, ai: bool, big: bool, noEmail: bool)
    ensures var r := Collect(funding, hiring, aws, ai, big, noEmail);
      forall x :: x in r <==>
        || (funding != "" && x == FundingNote(funding))
        || (hiring && x == ActiveHiring)
        || (aws && x == CloudAws)
        || (ai && x == AiMl)
        || (big && x == Enterprise)
        || (noEmail && x == NoEmail)
  {
    var t5 := Opt(noEmail, NoEmail);
    var t4 := Opt(big, Enterprise) + t5;
    var t3 := Opt(ai, AiMl) + t4;
    var t2 := Opt(aws, CloudAws) + t3;
    var t1 := Opt(hiring, ActiveHiring) + t2;
    assert forall x :: x in t4 <==> (big && x == Enterprise) || (noEmail && x == NoEmail);
    assert forall x :: x in t3 <==> (ai && x == AiMl) || x in t4;
    assert forall x :: x in t2 <==> (aws && x == CloudAws) || x in t3;
    assert forall x :: x in t1 <==> (hiring && x == ActiveHiring) || x in t2;
  }

  /**
   * The signals of a lead, checked in the fixed order funding, hiring, AWS,
   * AI/ML, enterprise size, missing email: ordered by rank without repeats,
   * with a funding note first exactly when the funding stage is not blank.
   */
  function Signals(lead: Lead): (r: seq<Signal>)
    ensures InOrder(r)
    ensures (|r| > 0 && r[0].FundingNote?) <==> !IsBlank(lead.fundingStage)
    ensures |r| > 0 && r[0].FundingNote? ==> r[0].stage == Strip(lead.fundingStage)
  {
    var techs := TechTokens(lead.techStack);
    var f, h, a, m, b, n := Strip(lead.fundingStage), IsHiring(lead.hiring), UsesAws(techs),
      AnyIn(techs, AiTerms), EnterpriseSized(lead.employees), !HasEmail(lead.emailPresent);
    CollectFundingFirst(f, h, a, m, b, n);
    CollectOrdered(f, h, a, m, b, n);
    Collect(f, h, a, m, b, n)
  }

  /** Each of the other five signals is listed exactly when its condition holds of the lead. */
  lemma SignalsFire(lead: Lead)
    ensures var r := Signals(lead);
      && (ActiveHiring in r <==> IsHiring(lead.hiring))
      && (CloudAws in r <==> UsesAws(TechTokens(lead.techStack)))
      && (AiMl in r <==> AnyIn(TechTokens(lead.techStack), AiTerms))
      && (Enterprise in r <==> lead.employees.Some? && lead.employees.value >= 200)
      && (NoEmail in r <==> !HasEmail(lead.emailPresent))
  {
    var techs := TechTokens(lead.techStack);
    var f, h, a, m, b, n := Strip(lead.fundingStage), IsHiring(lead.hiring), UsesAws(techs),
      AnyIn(techs, AiTerms), EnterpriseSized(lead.employees), !HasEmail(lead.emailPresent);
    var r := Signals(lead);
    assert r == Collect(f, h, a, m, b, n);
    CollectMembers(f, h, a, m, b, n);
    assert ActiveHiring in r <==> h;
    assert CloudAws in r <==> a;
    assert AiMl in r <==> m;
    assert Enterprise in r <==> b;
    assert NoEmail in r <==> n;
  }

  /** The signals of a lead come in the fixed order, strictly, with no signal twice. */
  lemma SignalsOrdered(lead: Lead)
    ensures var r := Signals(lead);
      forall i, j :: 0 <= i < j < |r| ==> Rank(r[i]) < Rank(r[j])
  {
    InOrderStrict(Signals(lead));
  }

  /** The rendered texts of a list of signals, in order. */
  function Texts(sigs: seq<Signal>): (r: seq<string>)
    ensures |r| == |sigs|
    ensures forall i :: 0 <= i < |sigs| ==> r[i] == Render(sigs[i])
  {
    if |sigs| == 0 then [] else [Render(sigs[0])] + Texts(sigs[1..])
  }

  /** `generate_insight`: the signal texts joined with " | ", or the quiet text when none fire. */
  function Insight(lead: Lead): (r: string)
    ensures r == Quiet <==> Signals(lead) == []
    ensures Signals(lead) != [] ==> Render(Signals(lead)[0]) <= r
  {
    var sigs := Signals(lead);
    if |sigs| == 0 then
      Quiet
    else
      var r := Join(Texts(sigs), Bar);
      assert Render(sigs[0]) <= r;
      r
  }

  /**
   * The full text of a non-quiet insight: the signal texts in order, each
   * rendered from its signal, laid out with `Bar` (" | ") between consecutive
   * texts and nothing else (see `Text.LaidOut`).
   */
  lemma InsightLayout(lead: Lead)
    requires Signals(lead) != []
    ensures |Texts(Signals(lead))| == |Signals(lead)|
    ensures forall i :: 0 <= i < |Signals(lead)| ==> Texts(Signals(lead))[i] == Render(Signals(lead)[i])
    ensures Insight(lead) == Join(Texts(Signals(lead)), Bar)
    ensures LaidOut(Insight(lead), Texts(Signals(lead)), Bar)
  {
    var parts := Texts(Signals(lead));
    assert Insight(lead) == Join(parts, Bar);
    JoinLayout(parts, Bar);
  }

  /**
   * "No strong signals" is reported exactly when the funding stage is blank,
   * the company is not hiring, no AWS or AI/ML token appears, the head-count is
   * not 200 or more, and an email is present.
   */
  lemma QuietIff(lead: Lead)
    ensures Insight(lead) == Quiet <==>
      && IsBlank(lead.fundingStage)
      && !IsHiring(lead.hiring)
      && !UsesAws(TechTokens(lead.techStack))
      && !AnyIn(TechTokens(lead.techStack), AiTerms)
      && !(lead.employees.Some? && lead.employees.value >= 200)
      && HasEmail(lead.emailPresent)
  {
    SignalsFire(lead);
    var r := Signals(lead);
    if r != [] {
      var s := r[0];
      assert s in r;
      match s
      case FundingNote(_) =>
      case ActiveHiring =>
      case CloudAws =>
      case AiMl =>
      case Enterprise =>
      case NoEmail =>
    }
  }
}
