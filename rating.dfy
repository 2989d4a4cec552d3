/**
 * The seven category scores of a rating and the overall rating derived from
 * them: the mean of the seven scores rounded to one decimal place
 * (backend/server.py, RatingCategories and calculate_overall_rating).
 */
module Rating {

  /** RatingCategories: seven scores, each demanded to lie in [0, 10]. */
  datatype Ratings = Ratings(
    story: real,
    acting: real,
    direction: real,
    musicSound: real,
    cinematography: real,
    actionStunts: real,
    emotionalImpact: real)

  const MinScore: real := 0.0
  const MaxScore: real := 10.0
  const CategoryCount: real := 7.0

  predicate InScoreRange(x: real) {
    MinScore <= x <= MaxScore
  }

  /** The `ge=0, le=10` constraint on every one of the seven fields. */
  predicate ScoresInRange(r: Ratings) {
    && InScoreRange(r.story)
    && InScoreRange(r.acting)
    && InScoreRange(r.direction)
    && InScoreRange(r.musicSound)
    && InScoreRange(r.cinematography)
    && InScoreRange(r.actionStunts)
    && InScoreRange(r.emotionalImpact)
  }

  function Total(r: Ratings): real {
    r.story + r.acting + r.direction + r.musicSound
      + r.cinematography + r.actionStunts + r.emotionalImpact
  }

  function Mean(r: Ratings): real {
    Total(r) / CategoryCount
  }

  /**
   * The integer nearest to `x`; a value exactly half-way between two
   * integers goes to the even one (Python's `round`).
   */
  function RoundHalfEven(x: real): (n: int)
    ensures -0.5 <= n as real - x <= 0.5
    ensures (n as real - x == 0.5 || x - n as real == 0.5) ==> n % 2 == 0
  {
    var f := x.Floor;
    var d := x - f as real;
    if d < 0.5 then f
    else if d > 0.5 then f + 1
    else if f % 2 == 0 then f
    else f + 1
  }

  /** `round(x, 1)`: `x` rounded to a whole number of tenths. */
  function RoundTenth(x: real): (y: real)
    ensures -0.05 <= y - x <= 0.05
    ensures (y * 10.0).Floor as real == y * 10.0
    ensures (y - x == 0.05 || x - y == 0.05) ==> (y * 10.0).Floor % 2 == 0
  {
    RoundHalfEven(x * 10.0) as real / 10.0
  }

  /** calculate_overall_rating: the mean of the seven scores, to one decimal. */
  function OverallRating(r: Ratings): (v: real)
    ensures -0.05 <= v - Mean(r) <= 0.05
    ensures (v * 10.0).Floor as real == v * 10.0
    ensures (v - Mean(r) == 0.05 || Mean(r) - v == 0.05) ==> (v * 10.0).Floor % 2 == 0
  {
    RoundTenth(Mean(r))
  }

  /**
   * The two properties of the ensures clauses of RoundHalfEven determine
   * its result: any integer within one half of `x` that is even on a tie is
   * the rounded value.
   */
  lemma RoundHalfEvenUnique(x: real, m: int)
    requires -0.5 <= m as real - x <= 0.5
    requires (m as real - x == 0.5 || x - m as real == 0.5) ==> m % 2 == 0
    ensures m == RoundHalfEven(x)
  {
  }

  /** Scores in [0, 10] have an overall rating in [0, 10], as MovieTVShow demands. */
  lemma OverallRatingInRange(r: Ratings)
    requires ScoresInRange(r)
    ensures InScoreRange(OverallRating(r))
  {
  }

  /** The overall rating is within half a tenth of the exact mean. */
  lemma OverallRatingNearMean(r: Ratings)
    ensures -0.05 <= OverallRating(r) - Mean(r) <= 0.05
  {
  }

  function Uniform(s: real): Ratings {
    Ratings(s, s, s, s, s, s, s)
  }

  /**
   * When all seven scores are the same whole number of tenths, the overall
   * rating is that score: all zeros give 0 and all tens give 10.
   */
  lemma UniformOverallRating(s: real, tenths: int)
    requires s == tenths as real / 10.0
    ensures OverallRating(Uniform(s)) == s
  {
  }

  lemma AllZeroAndAllTenScores()
    ensures OverallRating(Uniform(0.0)) == 0.0
    ensures OverallRating(Uniform(10.0)) == 10.0
  {
    assert Mean(Uniform(0.0)) == 0.0;
    assert Mean(Uniform(10.0)) == 10.0;
    RoundHalfEvenUnique(0.0, 0);
    RoundHalfEvenUnique(100.0, 100);
  }

  /**
   * An exact tie at tenths goes to the even tenth: seven scores of 0.25 give
   * 0.2 and seven scores of 0.75 give 0.8.
   */
  lemma TieGoesToEvenTenth()
    ensures OverallRating(Uniform(0.25)) == 0.2
    ensures OverallRating(Uniform(0.75)) == 0.8
  {
  }

  /**
   * The create example: scores 9.5, 9.0, 9.8, 9.2, 9.7, 8.9, 8.5 total 64.6,
   * whose seventh is 9.228..., so the overall rating is 9.2.
   */
  lemma CreateExampleRating()
    ensures OverallRating(Ratings(9.5, 9.0, 9.8, 9.2, 9.7, 8.9, 8.5)) == 9.2
  {
  }

  /**
   * The update example: scores 9.0, 8.5, 9.3, 8.8, 9.2, 8.4, 8.0 total 61.2,
   * whose seventh is 8.742..., so the overall rating is 8.7.
   */
  lemma UpdateExampleRating()
    ensures OverallRating(Ratings(9.0, 8.5, 9.3, 8.8, 9.2, 8.4, 8.0)) == 8.7
  {
  }
}
