/** The probability engine adapter (app.py:264-294, 346-347): it builds the
    one-row feature record from the match settings and the live state and
    hands it to the pre-trained classifier. The classifier is a parameter:
    its internals are not modelled. */
module Prediction {
  import opened Chase
  import opened Scoring

  datatype Option<T> = None | Some(value: T)

  /** The columns of the data frame passed to the classifier (app.py:280-290). */
  datatype FeatureRow = FeatureRow(
    battingTeam: string, bowlingTeam: string, city: string,
    currentScore: int, runsLeft: int, ballsLeft: int, wicketsLeft: int,
    crr: real, rrr: real)

  /** The classifier's two class probabilities for one row, or None when it raises. */
  type Predictor = FeatureRow -> Option<(real, real)>

  /** What the results column shows. */
  datatype Display =
    | ModelNotFound                        // the pickle could not be loaded (app.py:264-265)
    | InvalidScenario                      // the guarded block raised (app.py:346-347)
    | Probabilities(loss: real, win: real) // class 0 is the bowling side winning (app.py:293-294)

  /** The feature derivation of app.py:270-277. */
  function Features(batting: string, bowling: string, city: string, s: Snapshot): (row: FeatureRow)
    ensures row.currentScore == s.score
    ensures row.runsLeft == RunsLeft(s.target, s.score) && row.currentScore + row.runsLeft == s.target
    ensures row.wicketsLeft + s.wickets == AllOut
    ensures row.ballsLeft + TotalBalls(s.overs, s.balls) == InningsBalls
    ensures row.crr == CurrentRunRate(s.score, TotalBalls(s.overs, s.balls))
    ensures row.rrr == RequiredRunRate(row.runsLeft, row.ballsLeft)
    ensures (row.battingTeam, row.bowlingTeam, row.city) == (batting, bowling, city)
  {
    var totalBalls := TotalBalls(s.overs, s.balls);
    var ballsLeft := BallsLeft(s.overs, s.balls);
    var runsLeft := RunsLeft(s.target, s.score);
    FeatureRow(batting, bowling, city, s.score, runsLeft, ballsLeft, WicketsLeft(s.wickets),
               CurrentRunRate(s.score, totalBalls), RequiredRunRate(runsLeft, ballsLeft))
  }

  /** One prediction cycle: no classifier, a classifier that raises, or its two
      probabilities unpacked as (loss, win) for the batting side. */
  function Predict(pipe: Option<Predictor>, batting: string, bowling: string, city: string, s: Snapshot): (d: Display)
    ensures d.ModelNotFound? <==> pipe.None?
    ensures d.InvalidScenario? <==> pipe.Some? && pipe.value(Features(batting, bowling, city, s)).None?
    ensures d.Probabilities? ==> pipe.Some? && pipe.value(Features(batting, bowling, city, s)) == Some((d.loss, d.win))
  {
    match pipe
    case None => ModelNotFound
    case Some(predictor) =>
      match predictor(Features(batting, bowling, city, s))
      case None => InvalidScenario
      case Some((loss, win)) => Probabilities(loss, win)
  }

  /** Within the widget ranges a ball is always left, so the required run rate
      is a genuine ratio and every remaining count is in range. */
  lemma InputBoundsGiveDefinedRates(batting: string, bowling: string, city: string, s: Snapshot)
    requires WithinInputBounds(s)
    ensures var row := Features(batting, bowling, city, s);
      1 <= row.ballsLeft <= InningsBalls && 0 <= row.wicketsLeft <= AllOut &&
      row.rrr * (row.ballsLeft as real) == (row.runsLeft * BallsPerOver) as real &&
      row.crr >= 0.0
  {
  }

  /** A live ball moves the features by exactly what it adds: one ball fewer,
      `runs` fewer needed, `wkt` fewer wickets in hand. */
  lemma StepMovesFeatures(batting: string, bowling: string, city: string, s: Snapshot, runs: int, wkt: int)
    requires !Decided(s)
    ensures var before := Features(batting, bowling, city, s);
      var after := Features(batting, bowling, city, Step(s, runs, wkt));
      after.ballsLeft == before.ballsLeft - 1 &&
      after.runsLeft == before.runsLeft - runs &&
      after.wicketsLeft == before.wicketsLeft - wkt &&
      after.currentScore == before.currentScore + runs
  {
  }

  /** The default session: 80 needed off 60 balls with 8 wickets in hand,
      at a current rate of 10 and a required rate of 8. */
  lemma DefaultFeatures(batting: string, bowling: string, city: string)
    ensures Features(batting, bowling, city, Default) ==
      FeatureRow(batting, bowling, city, 100, 80, 60, 8, 10.0, 8.0)
  {
  }

  /** The required run rate goes negative once the target is passed with balls
      left; a six from one run short is enough, and the guard lets it through. */
  lemma RequiredRateNegativeAfterOvertaking(batting: string, bowling: string, city: string)
    ensures var s := Snapshot(179, 2, 10, 0, 180);
      var t := Step(s, Six.Runs(), Six.Wicket());
      WithinInputBounds(s) && !Decided(s) && Decided(t) &&
      Features(batting, bowling, city, t).rrr < 0.0
  {
  }
}
