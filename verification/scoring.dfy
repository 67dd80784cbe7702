/** utils/scoring.py: the scoring model (tiers of weighted factors), the
    outlet-tier lookup, the total-score computation and the grade and
    colour bands. Scores are exact reals; the final `round(total, 1)` is
    not modelled. */
module Scoring {

  /** One scoring factor: its key, its maximum (negative for a penalty). */
  datatype Factor = Factor(key: string, max: real, isPenalty: bool)

  /** One tier of `SCORING_MODEL`. */
  datatype Tier = Tier(key: string, name: string, maxPoints: real, factors: seq<Factor>)

  const BonusKey: string := "bonus"

  /** `SCORING_MODEL`, in its dictionary order. */
  const ScoringModel: seq<Tier> := [
    Tier("tier_1_foundational", "Tier 1 - Foundational", 36.0, [
      Factor("outlet_tier", 20.0, false),
      Factor("overall_sentiment", 7.0, false),
      Factor("article_exclusively_about_client", 4.0, false),
      Factor("article_type", 2.0, false),
      Factor("tone_toward_client", 3.0, false)]),
    Tier("tier_2_messaging", "Tier 2 - Messaging & Voice", 30.0, [
      Factor("key_messages_high", 9.0, false),
      Factor("key_messages_medium", 3.0, false),
      Factor("key_messages_low", 1.0, false),
      Factor("direct_quote_included", 6.0, false),
      Factor("number_of_quotes", 3.0, false),
      Factor("preferred_framing_used", 5.0, false),
      Factor("data_stat_cited", 3.0, false)]),
    Tier("tier_3_prominence", "Tier 3 - Prominence & Position", 10.0, [
      Factor("paragraph_first_mention", 3.0, false),
      Factor("brand_in_opening", 3.0, false),
      Factor("percentage_focused_on_client", 2.0, false),
      Factor("brand_in_closing", 1.0, false),
      Factor("total_brand_mentions", 1.0, false)]),
    Tier("tier_4_credibility", "Tier 4 - Credibility & Spokesperson", 10.0, [
      Factor("spokesperson_named", 2.5, false),
      Factor("framed_as_expert", 2.0, false),
      Factor("framed_as_innovator", 2.0, false),
      Factor("spokesperson_title", 1.5, false),
      Factor("positive_trend_association", 1.0, false),
      Factor("problem_association", -1.0, true)]),
    Tier("tier_5_competitive", "Tier 5 - Competitive Dynamics", 9.0, [
      Factor("positioned_as_leader", 2.0, false),
      Factor("mentioned_before_competitors", 1.5, false),
      Factor("share_of_voice", 1.5, false),
      Factor("competitors_mentioned", -1.5, true),
      Factor("more_quotes_than_competitors", 1.5, false),
      Factor("number_competitors_mentioned", -2.5, true),
      Factor("competitor_in_headline", -0.5, true)]),
    Tier("tier_6_audience_fit", "Tier 6 - Outlet & Audience Fit", 6.5, [
      Factor("outlet_industry_relevance", 3.5, false),
      Factor("outlet_audience_relevance", 3.0, false)]),
    Tier("tier_7_supporting", "Tier 7 - Supporting Details", 2.5, [
      Factor("cta_or_product_mention", 0.5, false),
      Factor("article_length", 0.5, false),
      Factor("brand_only_in_headline", 0.5, false),
      Factor("exclusive_story", 0.5, false),
      Factor("journalist_covered_before", 0.5, false)]),
    Tier("bonus", "Bonus Points", 16.0, [
      Factor("op_ed_by_client", 8.0, false),
      Factor("brand_in_headline", 3.0, false),
      Factor("syndicated", 1.5, false),
      Factor("ranks_for_keywords", 1.5, false),
      Factor("appears_in_google_news", 1.0, false),
      Factor("open_access", 0.5, false)])
  ]

  /** The cap on the total: 100 base points plus 16 bonus points. */
  const MaxTotal: real := 116.0

  /** The tier keys of a list of tiers, in order. */
  function TierKeys(tiers: seq<Tier>): (keys: seq<string>)
    ensures |keys| == |tiers|
    ensures forall i | 0 <= i < |tiers| :: keys[i] == tiers[i].key
  {
    if tiers == [] then [] else [tiers[0].key] + TierKeys(tiers[1..])
  }

  /** The shape of the model: eight tiers, the bonus tier last and only there. */
  lemma ModelShape()
    ensures |ScoringModel| == 8
    ensures ScoringModel[7].key == BonusKey
    ensures forall i | 0 <= i < 7 :: ScoringModel[i].key != BonusKey
  {
  }

  /** The factors marked as penalties are exactly those with a negative maximum. */
  lemma PenaltiesAreNegative(i: nat, f: Factor)
    requires i < |ScoringModel| && f in ScoringModel[i].factors
    ensures f.isPenalty <==> f.max < 0.0
  {
  }

  /** `get_outlet_tier_points(tier)`. */
  function OutletTierPoints(tier: int): (points: real)
  {
    if tier == 1 then 20.0
    else if tier == 2 then 13.0
    else if tier == 3 then 8.0
    else if tier == 4 then 3.0
    else 0.0
  }

  /** Only tiers 1 to 4 earn points, a better (lower) tier earns strictly
      more, and tier 1 earns exactly the `outlet_tier` factor's maximum. */
  lemma OutletTierPointsOrder(tier: int, other: int)
    ensures 0.0 <= OutletTierPoints(tier) <= ScoringModel[0].factors[0].max
    ensures OutletTierPoints(tier) > 0.0 <==> 1 <= tier <= 4
    ensures 1 <= tier < other <= 4 ==> OutletTierPoints(tier) > OutletTierPoints(other)
    ensures OutletTierPoints(1) == ScoringModel[0].factors[0].max
  {
  }

  /** The factor scores supplied for each tier key, in dictionary order. */
  type Scores = map<string, seq<(string, real)>>

  /** The sum of the factor scores, accumulated front to back. */
  function FactorSum(factors: seq<(string, real)>): real
  {
    if factors == [] then 0.0 else FactorSum(factors[..|factors| - 1]) + factors[|factors| - 1].1
  }

  /** `tier_total`: the sum of the tier's factor scores, 0 when the tier is absent. */
  function TierTotal(scores: Scores, key: string): real
  {
    if key in scores then FactorSum(scores[key]) else 0.0
  }

  function Max(a: real, b: real): real { if a >= b then a else b }

  function Min(a: real, b: real): real { if a <= b then a else b }

  /** What a tier adds to the total: a non-bonus tier never less than 0. */
  function Contribution(key: string, tierTotal: real): real
  {
    if key != BonusKey then Max(0.0, tierTotal) else tierTotal
  }

  /** `total` after the loop has visited `tiers`. */
  function RawTotal(tiers: seq<Tier>, scores: Scores): real
  {
    if tiers == [] then 0.0
    else
      var last := tiers[|tiers| - 1];
      RawTotal(tiers[..|tiers| - 1], scores) + Contribution(last.key, TierTotal(scores, last.key))
  }

  /** `min(116, max(0, total))`. */
  function Clamp(total: real): (r: real)
    ensures 0.0 <= r <= MaxTotal
    ensures 0.0 <= total <= MaxTotal ==> r == total
  {
    Min(MaxTotal, Max(0.0, total))
  }

  /** The unrounded `total_score` of `calculate_total_score(scores)`. */
  function TotalScore(scores: Scores): (r: real)
    ensures 0.0 <= r <= MaxTotal
  {
    Clamp(RawTotal(ScoringModel, scores))
  }

  /** One entry of `tier_scores`. */
  datatype TierScore = TierScore(name: string, score: real, max: real)

  /** The dictionary `calculate_total_score` returns. */
  datatype ScoreReport = ScoreReport(totalScore: real, tierScores: seq<(string, TierScore)>, detailedScores: Scores)

  /** `calculate_total_score(scores)`. */
  method CalculateTotalScore(scores: Scores) returns (report: ScoreReport)
    ensures report.totalScore == TotalScore(scores)
    ensures |report.tierScores| == |ScoringModel|
    ensures forall i | 0 <= i < |ScoringModel| :: (report.tierScores[i] ==
      (ScoringModel[i].key, TierScore(ScoringModel[i].name, TierTotal(scores, ScoringModel[i].key), ScoringModel[i].maxPoints)))
    ensures report.detailedScores == scores
  {
    var model := ScoringModel;
    var tierScores: seq<(string, TierScore)> := [];
    var total := 0.0;
    for i := 0 to |model|
      invariant total == RawTotal(model[..i], scores)
      invariant |tierScores| == i
      invariant forall k | 0 <= k < i :: (tierScores[k] ==
        (model[k].key, TierScore(model[k].name, TierTotal(scores, model[k].key), model[k].maxPoints)))
    {
      var tier := model[i];
      var tierTotal := 0.0;
      if tier.key in scores {
        var factors := scores[tier.key];
        for j := 0 to |factors|
          invariant tierTotal == FactorSum(factors[..j])
        {
          assert factors[..j + 1][..j] == factors[..j];
          tierTotal := tierTotal + factors[j].1;
        }
        assert factors[..|factors|] == factors;
      }
      tierScores := tierScores + [(tier.key, TierScore(tier.name, tierTotal, tier.maxPoints))];
      if tier.key != BonusKey {
        total := total + Max(0.0, tierTotal);
      } else {
        total := total + tierTotal;
      }
      assert model[..i + 1][..i] == model[..i];
    }
    assert model[..|model|] == model;
    total := Min(MaxTotal, Max(0.0, total));
    return ScoreReport(total, tierScores, scores);
  }

  /** The total depends on the scores only through each visited tier's contribution. */
  lemma {:induction false} RawTotalByContributions(tiers: seq<Tier>, s1: Scores, s2: Scores)
    requires forall i | 0 <= i < |tiers| ::
      Contribution(tiers[i].key, TierTotal(s1, tiers[i].key)) == Contribution(tiers[i].key, TierTotal(s2, tiers[i].key))
    ensures RawTotal(tiers, s1) == RawTotal(tiers, s2)
    decreases |tiers|
  {
    if tiers != [] {
      var init := tiers[..|tiers| - 1];
      assert forall i | 0 <= i < |init| :: init[i] == tiers[i];
      RawTotalByContributions(init, s1, s2);
    }
  }

  /** Raising the contributions of the visited tiers never lowers the total. */
  lemma {:induction false} RawTotalMonotone(tiers: seq<Tier>, s1: Scores, s2: Scores)
    requires forall i | 0 <= i < |tiers| ::
      Contribution(tiers[i].key, TierTotal(s1, tiers[i].key)) <= Contribution(tiers[i].key, TierTotal(s2, tiers[i].key))
    ensures RawTotal(tiers, s1) <= RawTotal(tiers, s2)
    decreases |tiers|
  {
    if tiers != [] {
      var init := tiers[..|tiers| - 1];
      assert forall i | 0 <= i < |init| :: init[i] == tiers[i];
      RawTotalMonotone(init, s1, s2);
    }
  }

  /** Score keys that are not tiers of the model are ignored. */
  lemma UnknownKeysIgnored(scores: Scores, key: string, factors: seq<(string, real)>)
    requires key !in TierKeys(ScoringModel)
    ensures TotalScore(scores[key := factors]) == TotalScore(scores)
  {
    var model := ScoringModel;
    forall i | 0 <= i < |model|
      ensures TierTotal(scores[key := factors], model[i].key) == TierTotal(scores, model[i].key)
    {
      assert TierKeys(model)[i] == model[i].key;
    }
    RawTotalByContributions(model, scores[key := factors], scores);
  }

  /** A non-bonus tier whose factors sum below zero counts as an absent tier. */
  lemma NegativeTierCountsAsZero(scores: Scores, i: nat)
    requires i < |ScoringModel| && ScoringModel[i].key != BonusKey
    requires TierTotal(scores, ScoringModel[i].key) < 0.0
    ensures TotalScore(scores) == TotalScore(map k | k in scores && k != ScoringModel[i].key :: scores[k])
  {
    var model := ScoringModel;
    var without := map k | k in scores && k != model[i].key :: scores[k];
    ModelShape();
    RawTotalByContributions(model, scores, without);
  }

  /** A higher factor total in some tiers and no lower one elsewhere never
      lowers the total score. */
  lemma TotalScoreMonotone(s1: Scores, s2: Scores)
    requires forall i | 0 <= i < |ScoringModel| ::
      TierTotal(s1, ScoringModel[i].key) <= TierTotal(s2, ScoringModel[i].key)
    ensures TotalScore(s1) <= TotalScore(s2)
  {
    RawTotalMonotone(ScoringModel, s1, s2);
  }

  /** With no scores at all every tier contributes 0. */
  lemma {:induction false} NoScoresNoPoints(tiers: seq<Tier>)
    ensures RawTotal(tiers, map[]) == 0.0
    decreases |tiers|
  {
    if tiers != [] {
      NoScoresNoPoints(tiers[..|tiers| - 1]);
    }
  }

  /** The grades from worst to best. */
  const GradeNames: seq<string> := ["F", "D", "D+", "C-", "C", "C+", "B-", "B", "B+", "A-", "A", "A+"]

  /** The lowest score of each grade above F, in the same order. */
  const GradeThresholds: seq<real> := [40.0, 45.0, 50.0, 55.0, 60.0, 65.0, 70.0, 75.0, 80.0, 85.0, 90.0]

  /** `get_score_grade(score)` of utils/scoring.py. */
  function ScoreGrade(score: real): string
  {
    if score >= 90.0 then "A+"
    else if score >= 85.0 then "A"
    else if score >= 80.0 then "A-"
    else if score >= 75.0 then "B+"
    else if score >= 70.0 then "B"
    else if score >= 65.0 then "B-"
    else if score >= 60.0 then "C+"
    else if score >= 55.0 then "C"
    else if score >= 50.0 then "C-"
    else if score >= 45.0 then "D+"
    else if score >= 40.0 then "D"
    else "F"
  }

  /** How many of the thresholds the score reaches. */
  function Level(thresholds: seq<real>, score: real): (n: nat)
    ensures n <= |thresholds|
  {
    if thresholds == [] then 0
    else (if score >= thresholds[0] then 1 else 0) + Level(thresholds[1..], score)
  }

  /** Reaching a threshold at a lower score means reaching it at a higher one. */
  lemma {:induction false} LevelMonotone(thresholds: seq<real>, s: real, t: real)
    requires s <= t
    ensures Level(thresholds, s) <= Level(thresholds, t)
  {
    if thresholds != [] {
      LevelMonotone(thresholds[1..], s, t);
    }
  }

  /** Against ascending thresholds, a score that reaches the first `k` and
      none after them reaches exactly `k`. */
  lemma {:induction false} LevelOfBand(thresholds: seq<real>, score: real, k: nat)
    requires forall i, j | 0 <= i < j < |thresholds| :: thresholds[i] < thresholds[j]
    requires k <= |thresholds|
    requires k == 0 || thresholds[k - 1] <= score
    requires k == |thresholds| || score < thresholds[k]
    ensures Level(thresholds, score) == k
  {
    if thresholds != [] {
      var rest := thresholds[1..];
      if k == 0 {
        LevelOfBand(rest, score, 0);
      } else {
        assert k - 1 == 0 || rest[k - 2] == thresholds[k - 1];
        LevelOfBand(rest, score, k - 1);
      }
    }
  }

  /** The grade is the name of the band the score reaches: the if-chain read
      as a table. */
  lemma GradeByLevel(score: real)
    ensures ScoreGrade(score) == GradeNames[Level(GradeThresholds, score)]
  {
    var ths := GradeThresholds;
    var k: nat := if score >= 90.0 then 11 else if score >= 85.0 then 10
      else if score >= 80.0 then 9 else if score >= 75.0 then 8
      else if score >= 70.0 then 7 else if score >= 65.0 then 6
      else if score >= 60.0 then 5 else if score >= 55.0 then 4
      else if score >= 50.0 then 3 else if score >= 45.0 then 2
      else if score >= 40.0 then 1 else 0;
    LevelOfBand(ths, score, k);
  }

  /** A higher score never gets a worse grade; below 40 is exactly F and
      90 or more is exactly A+. */
  lemma GradeMonotone(s: real, t: real)
    requires s <= t
    ensures ScoreGrade(s) == GradeNames[Level(GradeThresholds, s)]
    ensures ScoreGrade(t) == GradeNames[Level(GradeThresholds, t)]
    ensures Level(GradeThresholds, s) <= Level(GradeThresholds, t)
    ensures ScoreGrade(s) == "F" <==> s < 40.0
    ensures ScoreGrade(s) == "A+" <==> s >= 90.0
  {
    GradeByLevel(s);
    GradeByLevel(t);
    LevelMonotone(GradeThresholds, s, t);
  }

  const Green: string := "#10B981"
  const Blue: string := "#3B82F6"
  const Amber: string := "#F59E0B"
  const Red: string := "#EF4444"

  /** `get_score_color(score)` of utils/scoring.py. */
  function ScoreColor(score: real): string
  {
    if score >= 80.0 then Green
    else if score >= 60.0 then Blue
    else if score >= 40.0 then Amber
    else Red
  }

  /** The four colour bands, and how they line up with the grades: green
      exactly for the A grades, red exactly for F. */
  lemma ColorBands(score: real)
    ensures ScoreColor(score) == Green <==> 80.0 <= score
    ensures ScoreColor(score) == Blue <==> 60.0 <= score < 80.0
    ensures ScoreColor(score) == Amber <==> 40.0 <= score < 60.0
    ensures ScoreColor(score) == Red <==> score < 40.0
    ensures ScoreColor(score) == Green <==> ScoreGrade(score)[0] == 'A'
    ensures ScoreColor(score) == Red <==> ScoreGrade(score) == "F"
  {
  }
}
