/** The session-scoped live match state (app.py:184-204, 229-250): five
    integer fields that the what-if buttons and the number inputs overwrite
    in place. */
module Session {
  import opened Chase
  import opened Scoring

  class MatchState {
    var score: int
    var wickets: int
    var overs: int
    var balls: int
    var target: int

    /** The fields as a value, to state updates through `Scoring.Step`. */
    function View(): Snapshot
      reads this
    {
      Snapshot(score, wickets, overs, balls, target)
    }

    /** A fresh session starts from the defaults (app.py:184-188). */
    constructor ()
      ensures View() == Default
      ensures Consistent(View()) && WithinInputBounds(View()) && !Decided(View())
    {
      score := 100;
      wickets := 2;
      overs := 10;
      balls := 0;
      target := 180;
    }

    /** update_match (app.py:192-204): a no-op once the innings is decided;
        otherwise add the runs and the wicket and bowl one ball. */
    method UpdateMatch(runs: int, wkt: int)
      modifies this
      ensures View() == Step(old(View()), runs, wkt)
      ensures target == old(target)
      ensures old(Decided(View())) ==> View() == old(View())
      ensures !old(Decided(View())) ==>
        score == old(score) + runs && wickets == old(wickets) + wkt &&
        TotalBalls(overs, balls) == old(TotalBalls(overs, balls)) + 1
    {
      if wickets >= 10 || score >= target {
        return;
      }
      score := score + runs;
      wickets := wickets + wkt;
      balls := balls + 1;
      if balls == 6 {
        balls := 0;
        overs := overs + 1;
      }
    }

    /** One what-if button press (app.py:357-373); it keeps the session consistent. */
    method Press(o: BallOutcome)
      modifies this
      ensures View() == Step(old(View()), o.Runs(), o.Wicket())
      ensures old(Consistent(View())) ==> Consistent(View())
    {
      if Consistent(View()) {
        StepKeepsConsistent(View(), o);
      }
      UpdateMatch(o.Runs(), o.Wicket());
    }

    /** The target input, whose widget accepts values of at least 1 (app.py:229). */
    method SetTarget(t: int)
      requires t >= 1
      modifies this
      ensures View() == old(View()).(target := t)
    {
      target := t;
    }

    /** The four live inputs (app.py:236-252). Each widget returns a value in
        its range; a widget whose stored value is out of range raises instead,
        and the assignments from there on are skipped (`rejected`). */
    method EnterLiveInput(newScore: int, newWickets: int, newOvers: int, newBalls: int) returns (rejected: bool)
      requires newScore >= 0 && 0 <= newWickets <= AllOut
      requires 0 <= newOvers <= 19 && 0 <= newBalls < BallsPerOver
      modifies this
      ensures View() == LiveInput(old(View()), newScore, newWickets, newOvers, newBalls)
      ensures rejected <==> !old(InWidgetRanges(View()))
      ensures !rejected && target >= 1 ==> WithinInputBounds(View())
      ensures old(Consistent(View())) ==> Consistent(View())
    {
      rejected := true;
      if score < 0 {
        return;
      }
      score := newScore;
      if wickets < 0 || wickets > 10 {
        return;
      }
      wickets := newWickets;
      if overs < 0 || overs > 19 {
        return;
      }
      overs := newOvers;
      if balls < 0 || balls > 5 {
        return;
      }
      balls := newBalls;
      rejected := false;
    }
  }
}
