/** The score helpers of utils/styles.py: its own colour bands, its copy of
    the grade if-chain, the grade badge class and the percentages drawn by
    the progress bar and the score circle. */
module Styles {
  import opened Optional
  import Scoring

  const Green: string := "#059669"
  const Blue: string := "#2563EB"
  const Amber: string := "#D97706"
  const Red: string := "#DC2626"

  /** `get_score_color(score)` of utils/styles.py. */
  function ScoreColor(score: real): string
  {
    if score >= 80.0 then Green
    else if score >= 60.0 then Blue
    else if score >= 40.0 then Amber
    else Red
  }

  /** The same four bands as the scoring module's colours, in darker shades. */
  lemma ColorBands(score: real)
    ensures ScoreColor(score) == Green <==> Scoring.ScoreColor(score) == Scoring.Green
    ensures ScoreColor(score) == Blue <==> Scoring.ScoreColor(score) == Scoring.Blue
    ensures ScoreColor(score) == Amber <==> Scoring.ScoreColor(score) == Scoring.Amber
    ensures ScoreColor(score) == Red <==> Scoring.ScoreColor(score) == Scoring.Red
  {
  }

  /** `get_score_grade(score)` of utils/styles.py. */
  function ScoreGrade(score: real): string
  {
    if score >= 90.0 then "A+"
    else if score >= 85.0 then "A"
    else if score >= 80.0 then "A-"
    else if score >= 75.0 then "B+"
    else if score >= 70.0 then "B"
    else if score >= 65.0 then "B-"
    else if score >= 60.0 then "C+"
    else if score >= 55.0 then "C"
    else if score >= 50.0 then "C-"
    else if score >= 45.0 then "D+"
    else if score >= 40.0 then "D"
    else "F"
  }

  /** The two copies of the grade chain agree on every score. */
  lemma GradesAgree(score: real)
    ensures ScoreGrade(score) == Scoring.ScoreGrade(score)
  {
  }

  /** `get_grade_class(grade)`: by the grade's first letter. */
  function GradeClass(grade: string): string
  {
    if |grade| > 0 && grade[0] == 'A' then "score-a"
    else if |grade| > 0 && grade[0] == 'B' then "score-b"
    else if |grade| > 0 && grade[0] == 'C' then "score-c"
    else if |grade| > 0 && grade[0] == 'D' then "score-d"
    else "score-f"
  }

  /** Composed with the grade, the badge class is "score-f" exactly below 40,
      and every grade of the table gets the class of its letter. */
  lemma GradeClassOfScore(score: real)
    ensures GradeClass(ScoreGrade(score)) == "score-f" <==> score < 40.0
    ensures GradeClass(ScoreGrade(score)) == "score-a" <==> score >= 80.0
  {
  }

  /** The percentage of `render_progress_bar(value, max_value)`. */
  function ProgressPercentage(value: real, maxValue: real): (p: real)
    ensures p <= 100.0
    ensures maxValue <= 0.0 ==> p == 0.0
    ensures maxValue > 0.0 && 0.0 <= value ==> 0.0 <= p
    ensures maxValue > 0.0 && value <= maxValue ==> p == value / maxValue * 100.0
    ensures maxValue > 0.0 && value >= maxValue ==> p == 100.0
  {
    if maxValue <= 0.0 then 0.0
    else
      RatioBounds(value, maxValue);
      Scoring.Min(value / maxValue * 100.0, 100.0)
  }

  /** The ratio of a value to a positive maximum reaches 1 exactly when the
      value reaches the maximum, and is non-negative for a non-negative value. */
  lemma RatioBounds(value: real, maxValue: real)
    requires maxValue > 0.0
    ensures value <= maxValue ==> value / maxValue * 100.0 <= 100.0
    ensures value >= maxValue ==> value / maxValue * 100.0 >= 100.0
    ensures value >= 0.0 ==> value / maxValue * 100.0 >= 0.0
    ensures value < 0.0 ==> value / maxValue * 100.0 < 0.0
  {
    var q := value / maxValue;
    assert q * maxValue == value;
    if value <= maxValue {
      assert q <= 1.0;
    }
    if value >= maxValue {
      assert q >= 1.0;
    }
  }

  /** A negative value draws a negative width: the bar is capped above only. */
  lemma ProgressNotClampedBelow(value: real, maxValue: real)
    requires maxValue > 0.0 && value < 0.0
    ensures ProgressPercentage(value, maxValue) == value / maxValue * 100.0 < 0.0
    ensures ProgressColor(value, maxValue) == Red
  {
    RatioBounds(value, maxValue);
  }

  /** For instance, -5 out of 10 draws -50%. */
  lemma ProgressNotClampedBelowExample()
    ensures ProgressPercentage(-5.0, 10.0) == -50.0
  {
    ProgressNotClampedBelow(-5.0, 10.0);
  }

  /** The progress bar's colour is the colour band of its percentage. */
  function ProgressColor(value: real, maxValue: real): (c: string)
    ensures maxValue <= 0.0 ==> c == Red
    ensures maxValue > 0.0 && value >= maxValue ==> c == Green
  {
    ScoreColor(ProgressPercentage(value, maxValue))
  }

  /** The percentage of `render_score_circle(score, max_score)`; a zero
      `max_score` raises ZeroDivisionError, here `None`. */
  function CirclePercentage(score: real, maxScore: real): (p: Option<real>)
    ensures p.None? <==> maxScore == 0.0
    ensures p.Some? ==> p.value <= 100.0
    ensures p.Some? && maxScore > 0.0 && 0.0 <= score ==> 0.0 <= p.value
    ensures p.Some? && maxScore > 0.0 && score <= maxScore ==> p.value == score / maxScore * 100.0
  {
    if maxScore == 0.0 then None
    else if maxScore > 0.0 then
      RatioBounds(score, maxScore);
      Some(Scoring.Min(score / maxScore * 100.0, 100.0))
    else Some(Scoring.Min(score / maxScore * 100.0, 100.0))
  }

  /** Every total score lands on the default 100-point circle within [0, 100]. */
  lemma CircleOfTotal(scores: Scoring.Scores)
    ensures var p := CirclePercentage(Scoring.TotalScore(scores), 100.0);
      p.Some? && 0.0 <= p.value <= 100.0
  {
  }
}
