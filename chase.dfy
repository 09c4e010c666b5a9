/** Chase statistics derived from the live scoring state (app.py:270-277).
    A T20 innings lasts 20 overs of six balls, and a side is all out at ten
    wickets. The two run rates are Python float divisions; here they are
    exact ratios over `real`, with no floating-point rounding. */
module Chase {

  const BallsPerOver := 6
  const InningsBalls := 120
  const AllOut := 10

  /** Legal deliveries bowled so far. */
  function TotalBalls(overs: int, balls: int): (n: int)
    ensures 0 <= balls < BallsPerOver ==> n / BallsPerOver == overs && n % BallsPerOver == balls
  {
    overs * BallsPerOver + balls
  }

  /** Deliveries remaining in a 20-over innings (zero or negative once it has run out). */
  function BallsLeft(overs: int, balls: int): (n: int)
    ensures n <= 0 <==> TotalBalls(overs, balls) >= InningsBalls
    ensures 0 <= overs < 20 && 0 <= balls < BallsPerOver ==> 1 <= n <= InningsBalls
  {
    InningsBalls - TotalBalls(overs, balls)
  }

  /** Runs still needed to reach the target (zero or negative once it is reached). */
  function RunsLeft(target: int, score: int): (r: int)
    ensures r <= 0 <==> score >= target
    ensures r > 0 ==> score + r == target
  {
    target - score
  }

  /** Wickets in hand. */
  function WicketsLeft(wickets: int): (w: int)
    ensures w <= 0 <==> wickets >= AllOut
    ensures 0 <= wickets <= AllOut ==> 0 <= w <= AllOut
  {
    AllOut - wickets
  }

  /** Current run rate: runs per six balls bowled, or 0 before the first ball. */
  function CurrentRunRate(score: int, totalBalls: int): (crr: real)
    ensures totalBalls <= 0 ==> crr == 0.0
    ensures totalBalls > 0 ==> crr * (totalBalls as real) == (score * BallsPerOver) as real
    ensures crr >= 0.0 <==> (score >= 0 || totalBalls <= 0)
  {
    if totalBalls > 0 then score as real / (totalBalls as real / BallsPerOver as real) else 0.0
  }

  /** Required run rate: runs needed per six balls left, or 0 when no balls are left. */
  function RequiredRunRate(runsLeft: int, ballsLeft: int): (rrr: real)
    ensures ballsLeft <= 0 ==> rrr == 0.0
    ensures ballsLeft > 0 ==> rrr * (ballsLeft as real) == (runsLeft * BallsPerOver) as real
    ensures rrr >= 0.0 <==> (runsLeft >= 0 || ballsLeft <= 0)
  {
    if ballsLeft > 0 then (runsLeft * BallsPerOver) as real / ballsLeft as real else 0.0
  }
}
