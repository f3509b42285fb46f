# Smart Lead Prioritizer — scoring core in Dafny

This project models the lead-scoring engine of `lead_prioritizer_app.py`. Each
company record (a *lead*) goes through a pure, per-record pipeline:

- **Five sub-scores.** Industry (0, 0.33 or 1.0), growth signals from hiring
  and funding stage (0..2), tech-stack fit (0..2), region (0, 0.3 or 1.0) and
  contact availability (0 or 1).
- **Aggregation (`compute_score_row`).** The weighted sum of the sub-scores is
  divided by the largest weighted sum the weights allow. It is then scaled to
  0..100, clamped, and rounded to an integer with Python's round-half-to-even.
- **Tiers.** The score is classified by `pandas.cut` with right-closed bins
  (-1, 49], (49, 79] and (79, 100] into Cold, Warm and Hot.
- **Insight (`generate_insight`).** An ordered list of signal texts is built
  and joined with `" | "`. When the list is empty the insight is
  "No strong signals".

Layout, one module per file:

- `wrappers.dfy` (`Wrappers`): the `Option` type.
- `text.dfy` (`Text`): Python's `str.strip` over the `str.isspace` set,
  ASCII `lower`, substring `in`, `split` on one character, and `join`.
- `aggregate.dfy` (`Aggregate`): weights, sub-score records, the weighted sum,
  the clamp, round-half-even and the 0..100 score.
- `leads.dfy` (`Leads`): the lead record, the configuration, and the five
  sub-score functions.
- `tiers.dfy` (`Tiers`): `pandas.cut` and the three tiers.
- `insights.dfy` (`Insights`): the insight signals, their fixed order, and the
  rendered text.
- `pipeline.dfy` (`Pipeline`): scoring a row, scoring a table, and
  whole-pipeline properties. This includes the first sample lead (DataZoom),
  which scores 94, is Hot, and gets the insight
  "Funding: Series A | Active hiring | Cloud-based (AWS)".

Numbers are exact `real`s, so the constants 0.33, 0.8 and 1.2 are exact. The
configuration is an immutable record rather than module globals. It holds the
target industries, the preferred regions and the five weights. A missing text
cell is the empty string. A missing or non-integer `employees` cell is `None`.

## Model

| member | source | states |
|---|---|---|
| Text.LeftCut | lead_prioritizer_app.py:34 | the number of leading whitespace characters: all before it are whitespace and the one at it is not |
| Text.RightCut | lead_prioritizer_app.py:34 | the end of the text without trailing whitespace: everything after it is whitespace and the character before it is not |
| Text.Strip | lead_prioritizer_app.py:34 | `strip()` returns a contiguous slice of its input with only whitespace cut off either side, neither end of it is whitespace, and it is empty exactly when the input is blank |
| Text.StripUnique | lead_prioritizer_app.py:34 | any slice with only whitespace around it and non-whitespace ends is the stripped text, so `strip()` is determined by that characterisation |
| Text.StripIdempotent | lead_prioritizer_app.py:69 | stripping twice is the same as stripping once |
| Text.StripPadding | lead_prioritizer_app.py:74 | whitespace added before and after a value does not change its stripped form |
| Text.Lower | lead_prioritizer_app.py:42 | `lower()` keeps the length, leaves no upper-case ASCII letter, maps each of A-Z to its lower-case letter and keeps every other character |
| Text.LowerSlice | lead_prioritizer_app.py:42 | lower-casing a slice is slicing the lower-cased text |
| Text.StripLower | lead_prioritizer_app.py:42 | lower-casing and stripping commute, so `.strip().lower()` equals `.lower().strip()` |
| Text.LowerIdempotent | lead_prioritizer_app.py:74 | lower-casing an already lower-cased text changes nothing |
| Text.Contains | lead_prioritizer_app.py:45 | the substring test `pat in s` holds exactly when `pat` occurs at some position of `s` |
| Text.Split | lead_prioritizer_app.py:58 | `split(";")` gives at least one piece, no piece contains the separator, and joining the pieces with the separator restores the input |
| Text.SplitCons | lead_prioritizer_app.py:58 | a separator-free prefix followed by the separator becomes the first piece, in front of the pieces of the rest |
| Text.SplitJoin | lead_prioritizer_app.py:58 | splitting the join of separator-free pieces gives back exactly those pieces |
| Text.Join | lead_prioritizer_app.py:115 | `sep.join(parts)` of no parts is empty, and otherwise begins with the first part |
| Text.JoinLayout | lead_prioritizer_app.py:115 | the join places part `i` at the sum of the earlier parts' and separators' lengths, puts a separator right after every part but the last, and ends with the last part, so parts and separators tile it |
| Text.JoinThree | lead_prioritizer_app.py:115 | three parts join as first, separator, second, separator, third |
| Text.SplitBlank | lead_prioritizer_app.py:56-58 | every piece of a blank text is blank |
| Leads.Normalise | lead_prioritizer_app.py:40 | `str(v).strip().lower()` is no longer than its input, holds no upper-case letter, and is empty exactly when the input is blank |
| Leads.NormaliseInsensitive | lead_prioritizer_app.py:74 | how a flag field reads (`strip().lower()`) ignores surrounding whitespace and letter case |
| Leads.IndustryScore | lead_prioritizer_app.py:33-36 | industry scores 0 exactly when blank, 1.0 exactly on exact case-sensitive, unstripped membership of a non-blank value in the targets, and 0.33 otherwise |
| Leads.PaddedNeverMatches | lead_prioritizer_app.py:33-36 | a value with leading or trailing whitespace never earns full industry or region credit against stripped configured lists, because membership is decided on the raw value |
| Leads.RegionScore | lead_prioritizer_app.py:68-71 | region scores 0 exactly when blank, 1.0 exactly on exact membership of a non-blank value in the preferred regions, and 0.3 otherwise |
| Leads.ContactScore | lead_prioritizer_app.py:73-74 | contact is 1.0 exactly when the stripped, lower-cased value is one of yes, y, true, 1, and 0 otherwise |
| Leads.FirstMatchWins | lead_prioritizer_app.py:44-52 | in a rule ladder the credit is that of the earliest matching rule, whatever later rules would also match |
| Leads.NoMatchNoCredit | lead_prioritizer_app.py:44-52 | when no rule matches, the ladder adds nothing |
| Leads.FundingCredit | lead_prioritizer_app.py:42-52 | the funding credit is one of 0, 0.5, 0.8, 1.0, 1.2, and any stage mentioning "seed" gets only 0.5, even if it also names a series |
| Leads.FundingCreditIsLadder | lead_prioritizer_app.py:42-52 | the chained funding tests agree with a first-match-wins table of phrases and credits, for every funding text |
| Leads.LadderChain | lead_prioritizer_app.py:45-52 | on a non-empty funding text the rule table yields the credit of the first of seed, series a, series b, series c/d that occurs, else 0 |
| Leads.LadderRules | lead_prioritizer_app.py:45-52 | the table has four rules, matching exactly "seed", "series a", "series b", and "series c" or "series d" respectively |
| Leads.EmptyMatchesNothing | lead_prioritizer_app.py:43 | an empty funding text contains none of the stage phrases, so skipping the ladder when it is empty loses nothing |
| Leads.HiringCredit | lead_prioritizer_app.py:40-41 | hiring adds 1.0 exactly when the stripped, lower-cased value is one of true, yes, 1 |
| Leads.GrowthScore | lead_prioritizer_app.py:38-53 | growth lies in 0..2, reaches the cap 2.0 exactly for a hiring lead at series B or later, and the cap changes the uncapped sum exactly for hiring plus series C/D |
| Leads.KeepTokens | lead_prioritizer_app.py:58 | no more tokens than pieces, and no token is empty |
| Leads.KeepTokensMembers | lead_prioritizer_app.py:58 | a token is kept exactly when it is the stripped, lower-cased form of some non-blank piece |
| Leads.KeepTokensBlank | lead_prioritizer_app.py:58 | all-blank pieces yield no tokens |
| Leads.TechTokens | lead_prioritizer_app.py:58 | the token list of a tech stack has at most one token per `;`-piece, no empty token, and holds a text exactly when it is the stripped, lower-cased form of a non-blank piece |
| Leads.TechCredit | lead_prioritizer_app.py:59-65 | the three exact-token checks sum to 0..2: 0 exactly when none fires, at least 0.8 exactly when the infrastructure or the modern check fires, at least 1.8 exactly when both do |
| Leads.BlankStackNoTokens | lead_prioritizer_app.py:56-58 | a blank tech stack has no tokens, so the early return for a blank stack agrees with the general path |
| Leads.TechFitScore | lead_prioritizer_app.py:55-66 | tech fit is the sum of three independent exact-token checks (1.0, 0.8, 0.2), never above 2.0 so the cap never binds; it is 0, at least 0.8, at least 1.8 exactly when no check, an infrastructure or modern check, both checks fire |
| Leads.SubScoresOf | lead_prioritizer_app.py:78-82 | every sub-score of every lead lies between 0 and its cap |
| Aggregate.Clamp | lead_prioritizer_app.py:93 | `max(0, min(100, x))` lies in 0..100 and leaves values already there unchanged |
| Aggregate.RoundHalfEven | lead_prioritizer_app.py:93 | `round` gives an integer within one half of its argument, and the even one on a tie |
| Aggregate.RoundHalfEvenUnique | lead_prioritizer_app.py:93 | that nearest-with-ties-to-even description determines the rounded value |
| Aggregate.RoundHalfEvenMonotone | lead_prioritizer_app.py:93 | rounding never reverses an order |
| Aggregate.Score | lead_prioritizer_app.py:86-93 | the aggregated score is an integer in 0..100 for any weights, and 0 whenever the largest weighted sum is not positive |
| Aggregate.Weighted | lead_prioritizer_app.py:87 | the raw weighted sum is 0 for a lead that earns nothing, and with in-bound sub-scores and non-negative weights lies between 0 and the sum of each weight times its cap |
| Aggregate.WeightedBound | lead_prioritizer_app.py:87 | the same bound, stated on the five weighted terms |
| Aggregate.CappedTerms | lead_prioritizer_app.py:87 | each in-bound weighted term lies between 0 and its weight times its cap |
| Aggregate.MaxWeighted | lead_prioritizer_app.py:91 | the largest weighted sum is 1·industry + 2·growth + 2·tech + 1·region + 1·contact weight; with non-negative weights it is not negative and no in-bound lead's raw sum exceeds it |
| Aggregate.Percent | lead_prioritizer_app.py:92 | when the largest weighted sum is positive, the percentage times it is 100 times the raw sum; otherwise the percentage is 0 |
| Aggregate.WeightedWithinMax | lead_prioritizer_app.py:87-91 | with non-negative weights and in-bound sub-scores, the raw weighted sum lies between 0 and the largest weighted sum |
| Aggregate.WeightedMonotone | lead_prioritizer_app.py:87 | with non-negative weights, sub-scores that are nowhere lower give a raw sum that is no lower |
| Aggregate.ClampInactive | lead_prioritizer_app.py:87-93 | with non-negative weights and in-bound sub-scores the percentage is already in 0..100, so the clamp is a no-op |
| Aggregate.MaxZeroIffNoWeights | lead_prioritizer_app.py:91 | with non-negative weights the largest weighted sum is 0 exactly when all five weights are 0 |
| Aggregate.NoWeightsScoreZero | lead_prioritizer_app.py:91-93 | with all weights zero the score is 0 for any sub-scores, by the guarded branch and without division |
| Aggregate.WeightedScale | lead_prioritizer_app.py:87-91 | multiplying every weight by k multiplies the raw weighted sum by k |
| Aggregate.PercentScaleInvariant | lead_prioritizer_app.py:92 | multiplying every weight by a positive constant leaves the percentage unchanged, in both branches of the guard |
| Aggregate.ScaleInvariant | lead_prioritizer_app.py:87-93 | multiplying every weight by a positive constant leaves the final score unchanged |
| Aggregate.ScoreMonotone | lead_prioritizer_app.py:87-93 | with non-negative weights, raising any sub-scores never lowers the final score |
| Aggregate.CapsScoreHundred | lead_prioritizer_app.py:84-93 | a lead at every cap scores exactly 100 under any non-negative weights that are not all zero |
| Aggregate.ZerosScoreZero | lead_prioritizer_app.py:87-93 | a lead earning nothing in any dimension scores 0 under any weights |
| Tiers.Cut | lead_prioritizer_app.py:141 | `pd.cut` with right-closed bins returns a label exactly when the value lies in (first edge, last edge], and then the label of the interval holding it |
| Tiers.Classify | lead_prioritizer_app.py:141 | scores 0..49 are Cold, 50..79 Warm, 80..100 Hot, each exactly, and scores outside 0..100 get no tier |
| Tiers.ClassifyMonotone | lead_prioritizer_app.py:141 | a higher score in 0..100 never lands in a lower tier |
| Insights.Render | lead_prioritizer_app.py:99-114 | every signal text is non-empty and none is a prefix of "No strong signals", so no insight that starts with a signal text can equal it |
| Insights.UsesAws | lead_prioritizer_app.py:103 | the AWS test is a substring test: the token "aws" itself fires it, and tokens shorter than three characters never do |
| Insights.EnterpriseSized | lead_prioritizer_app.py:107-112 | `employees and int(employees) >= 200` holds exactly for a parsed head-count of at least 200; the truthiness test adds nothing |
| Insights.Collect | lead_prioritizer_app.py:96-114 | at most six signals are collected, and none exactly when the funding text is empty and no other test fires |
| Insights.InOrderStrict | lead_prioritizer_app.py:95-115 | a signal list in the fixed order has strictly increasing ranks, so no signal appears twice |
| Insights.OptCons | lead_prioritizer_app.py:96-114 | appending optional signals in rank order keeps the list in the fixed order |
| Insights.CollectOrdered | lead_prioritizer_app.py:96-114 | whatever signals fire, they are listed as funding, hiring, AWS, AI/ML, enterprise size, no-email |
| Insights.CollectFundingFirst | lead_prioritizer_app.py:97-99 | the list starts with the funding note exactly when the stripped funding text is non-empty, and that note carries it |
| Insights.CollectMembers | lead_prioritizer_app.py:96-114 | a signal is listed exactly when its condition holds |
| Insights.Signals | lead_prioritizer_app.py:95-114 | a lead's signals are in the fixed order; the first is the funding note exactly when the funding stage is not blank, and it carries the stripped stage with its casing kept |
| Insights.SignalsFire | lead_prioritizer_app.py:100-114 | hiring, AWS (a token containing "aws"), AI/ML (a token exactly tensorflow, pytorch, ai or tensor), enterprise size (a parsed head-count of at least 200) and no-email each fire exactly under their condition |
| Insights.SignalsOrdered | lead_prioritizer_app.py:96-114 | any two signals of a lead appear in rank order |
| Insights.Texts | lead_prioritizer_app.py:115 | the rendered texts correspond one to one, in order, with the signals |
| Insights.Insight | lead_prioritizer_app.py:115 | the insight is "No strong signals" exactly when no signal fired, and otherwise begins with the first signal's text |
| Insights.InsightLayout | lead_prioritizer_app.py:115 | a non-quiet insight consists of every signal's text, in order, each at its offset, with the bar separator `Bar` between consecutive texts and nothing else |
| Insights.QuietIff | lead_prioritizer_app.py:95-115 | "No strong signals" appears exactly when funding is blank, the lead is not hiring, uses neither AWS nor AI tokens, is not enterprise-sized, and does have an email |
| Pipeline.ComputeScore | lead_prioritizer_app.py:76-93 | a row's score is an integer in 0..100 under every configuration, and 0 when no weighted sum can be positive |
| Pipeline.ScoreRow | lead_prioritizer_app.py:140-142 | every scored row keeps its lead, has a score in 0..100 that always gets a tier, carries that tier, and says "No strong signals" exactly when no signal fired |
| Pipeline.ScoreAll | lead_prioritizer_app.py:140-142 | the scored table has one row per lead, in table order; each row keeps its lead, has that lead's own score in 0..100, the tier of that score, and that lead's own insight |
| Pipeline.ScoreAllSplit | lead_prioritizer_app.py:140-142 | scoring two tables one after the other gives the same rows as scoring them together, so no row depends on another |
| Pipeline.ClampNeverActs | lead_prioritizer_app.py:87-93 | under non-negative weights the score of any lead is the rounded percentage itself; the clamp never acts |
| Pipeline.AllZeroWeights | lead_prioritizer_app.py:91-93 | with all five weights zero every lead scores 0 |
| Pipeline.WeightScaleInvariant | lead_prioritizer_app.py:87-93 | scaling all five weights by a positive constant changes no lead's score |
| Pipeline.PreferredRegionNeverLowers | lead_prioritizer_app.py:71 | moving a lead to a preferred region never lowers its score |
| Pipeline.TargetIndustryNeverLowers | lead_prioritizer_app.py:36 | moving a lead to a target industry never lowers its score |
| Pipeline.HiringNeverLowers | lead_prioritizer_app.py:40-41 | a lead that starts hiring never scores lower |
| Pipeline.EmailNeverLowers | lead_prioritizer_app.py:74 | a lead that gains a public email never scores lower |
| Pipeline.SplitTwo | lead_prioritizer_app.py:58 | two separator-free words joined by the separator split back into those two words |
| Pipeline.SplitThree | lead_prioritizer_app.py:58 | three separator-free words joined by the separator split back into those three words |
| Pipeline.KeepAllWords | lead_prioritizer_app.py:58 | pieces that are all non-blank words keep one token each, their normalised forms, in order |
| Pipeline.DataZoomPieces | lead_prioritizer_app.py:124 | the sample tech stack "Python;AWS;Postgres" splits into its three names |
| Pipeline.DataZoomTokens | lead_prioritizer_app.py:124 | the sample tech stack yields the tokens python, aws, postgres |
| Pipeline.SampleTechCredit | lead_prioritizer_app.py:60-65 | the tokens python, aws, postgres fire the infrastructure and modern checks but not the legacy one, for 1.8 |
| Pipeline.DataZoomTechFit | lead_prioritizer_app.py:124 | the sample lead's tech fit is 1.8 |
| Pipeline.SeriesAFunding | lead_prioritizer_app.py:47-48 | a stage reading "series a" earns 0.8, since it does not contain "seed" |
| Pipeline.DataZoomFunding | lead_prioritizer_app.py:124 | the sample lead's "Series A" earns 0.8 |
| Pipeline.DataZoomGrowth | lead_prioritizer_app.py:124 | the sample lead, hiring at series A, has growth 1.8 |
| Pipeline.DataZoomIndustry | lead_prioritizer_app.py:124 | the sample lead's SaaS is a default target industry, for 1.0 |
| Pipeline.DataZoomRegion | lead_prioritizer_app.py:124 | the sample lead's US is a default preferred region, for 1.0 |
| Pipeline.DataZoomContact | lead_prioritizer_app.py:124 | the sample lead's "yes" email flag gives contact 1.0 |
| Pipeline.DataZoomSubScores | lead_prioritizer_app.py:124 | the sample lead's sub-scores are 1.0, 1.8, 1.8, 1.0, 1.0 under the default settings |
| Pipeline.SampleScore | lead_prioritizer_app.py:24-28 | under the default weights these sub-scores weigh 1.36 out of a possible 1.45, which rounds to 94 |
| Pipeline.HotFromSubScores | lead_prioritizer_app.py:141 | any lead with those sub-scores under the default settings scores 94 and is Hot |
| Pipeline.DataZoomIsHot | lead_prioritizer_app.py:124 | the sample lead has raw sum 1.36, scores 94 and is Hot |
| Pipeline.SeriesAHiringAwsSignals | lead_prioritizer_app.py:97-114 | a lead with stripped funding "Series A", hiring, an AWS token, no AI/ML token, under 200 employees and an email has exactly the funding, hiring and cloud signals, in that order |
| Pipeline.FundingHiringAws | lead_prioritizer_app.py:96-114 | funding, hiring and cloud alone are collected as exactly those three signals |
| Pipeline.SeriesAHiringAwsInsight | lead_prioritizer_app.py:115 | those three signals give the insight made of "Funding: Series A", "Active hiring" and "Cloud-based (AWS)" joined by `Bar`, written out as one literal |
| Pipeline.TextsThree | lead_prioritizer_app.py:115 | three signals render to their three texts, in order |
| Pipeline.SeriesAHiringAwsLine | lead_prioritizer_app.py:99-104 | the funding, hiring and cloud texts joined with `Bar` spell out the sample's insight literal |
| Pipeline.NoAiTokens | lead_prioritizer_app.py:105 | none of python, aws, postgres is one of the AI/ML terms |
| Pipeline.DataZoomFlags | lead_prioritizer_app.py:124 | the sample lead reads as hiring, has an email, and at 120 employees is not enterprise-sized |
| Pipeline.DataZoomTechFlags | lead_prioritizer_app.py:124 | the sample lead's tokens include "aws" and no AI/ML term |
| Pipeline.DataZoomInsight | lead_prioritizer_app.py:124 | the sample lead's signals are funding, hiring and cloud, and its insight is those three texts joined by `Bar` |
| Pipeline.BlankNormalises | lead_prioritizer_app.py:40 | a blank flag normalises to the empty text and reads as neither hiring nor having an email |
| Pipeline.BlankSubScores | lead_prioritizer_app.py:78-82 | a lead with every text field blank has all five sub-scores 0 |
| Pipeline.BlankSignals | lead_prioritizer_app.py:95-114 | a lead with blank fields and no head-count has exactly one signal, the no-email one |
| Pipeline.BlankInsight | lead_prioritizer_app.py:113-115 | such a lead's insight is the no-email line, not "No strong signals" |
| Pipeline.BlankLeadOutcome | lead_prioritizer_app.py:113-114 | a fully blank lead scores 0, is Cold, and gets the no-email insight under any configuration |
| Pipeline.HalvesGoToEven | lead_prioritizer_app.py:93 | 16.5 rounds to 16, 17.5 rounds to 18, and 93.79 rounds to 94 |

## Left out

- Streamlit page setup, sidebar widgets, metrics, filters and the table display (lines 6-28, 144-158). The sidebar's results are the `Config` parameter. `DefaultConfig` holds the sidebar's starting values.
- Parsing of the comma-separated sidebar lists (lines 17-21). The configured lists are taken as given. `Leads.CleanEntry` describes what that parsing produces.
- CSV upload and parsing, the sample-data loader, column renaming, and CSV export (lines 117-138, 180-186). These are I/O done by pandas. Only the first sample record is written down, as `Pipeline.DataZoom`.
- The outreach message template (lines 160-178). It is string formatting with no scoring logic.
- Sorting by score for display and export. This is a library sort outside the per-record pipeline.
- pandas missing values (`pd.isna`, and `str(NaN)` reading as "nan"). A missing text cell is modelled as the empty string.
- A missing `hiring` cell defaults to `False` in the source, whose text is "False". It is modelled as the empty string; both read as not hiring.
- `employees`: the source's `int(...)` conversion, float truncation and swallowed exceptions are not modelled. The cell is `Some(n)` after a successful conversion and `None` otherwise.
- Floating-point arithmetic. The model uses exact reals, so exact .5 ties can be reached here where IEEE-754 doubles might land just beside them.
- Letter case: `lower()` is modelled for the ASCII letters A-Z only. The case mapping of other Unicode letters is not modelled.
- Non-string cells in the flag, funding and tech-stack fields: the source applies `str()` to cells such as the boolean `True`. The model receives that text directly, e.g. "True".
- Leads.IndustryScore: a non-string industry cell is not modelled. The blank test at line 34 uses `str(industry)`, but the membership test at line 36 uses the raw cell, so a numeric cell such as 1 never matches a configured string and scores 0.33 in the source. The model receives text, so "1" scores 1.0 when "1" is a target industry.
- Leads.RegionScore: a non-string region cell is not modelled, for the same reason. Line 69 tests `str(region)`, line 71 tests the raw cell, so a numeric region 1 scores 0.3 in the source. The model scores the text "1" as 1.0 when "1" is a preferred region.
- Blank records: a fully blank record does not get "No strong signals". Its blank email flag is not truthy, so lines 113-114 append the no-email line. See `Pipeline.BlankLeadOutcome`.
