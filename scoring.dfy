/** The ball-by-ball scoring rule of the live match (app.py:184-204), stated on
    values. `Step` is the specification that `Session.MatchState.UpdateMatch`
    is proved against; the lemmas below say what one ball, and a run of balls,
    does to the state. */
module Scoring {
  import opened Chase

  /** The five session fields update_match reads or writes. */
  datatype Snapshot = Snapshot(score: int, wickets: int, overs: int, balls: int, target: int)

  /** Session defaults when a session starts (app.py:184-188). */
  const Default := Snapshot(100, 2, 10, 0, 180)

  /** The five what-if buttons and the (runs, wicket) pair each passes (app.py:357-373). */
  datatype BallOutcome = Dot | Single | Four | Six | Out {
    /** Runs the button adds: nothing on a dot or a dismissal. */
    function Runs(): (r: nat)
      ensures r <= 6
      ensures r == 0 <==> (Dot? || Out?)
    {
      match this
      case Dot => 0
      case Single => 1
      case Four => 4
      case Six => 6
      case Out => 0
    }

    /** Wickets the button adds: one on a dismissal, otherwise none. */
    function Wicket(): (w: nat)
      ensures w <= 1
      ensures w == 1 <==> Out?
    {
      if Out? then 1 else 0
    }
  }

  /** The innings is decided: all out, or the target reached (app.py:194). */
  predicate Decided(s: Snapshot): (d: bool)
    ensures d <==> WicketsLeft(s.wickets) <= 0 || RunsLeft(s.target, s.score) <= 0
  {
    s.wickets >= AllOut || s.score >= s.target
  }

  /** What update_match(runs, wkt) does to the session (app.py:192-204). */
  function Step(s: Snapshot, runs: int, wkt: int): (t: Snapshot)
    ensures t.target == s.target
    ensures Decided(s) ==> t == s
    ensures !Decided(s) ==>
      (t.score == s.score + runs && t.wickets == s.wickets + wkt &&
       TotalBalls(t.overs, t.balls) == TotalBalls(s.overs, s.balls) + 1)
  {
    if Decided(s) then s
    else if s.balls + 1 == BallsPerOver then
      s.(score := s.score + runs, wickets := s.wickets + wkt, overs := s.overs + 1, balls := 0)
    else
      s.(score := s.score + runs, wickets := s.wickets + wkt, balls := s.balls + 1)
  }

  /** Ranges every reachable session keeps under the five buttons. */
  predicate Consistent(s: Snapshot) {
    s.score >= 0 && 0 <= s.wickets <= AllOut && s.overs >= 0 &&
    0 <= s.balls < BallsPerOver && s.target >= 1
  }

  /** The ranges the number-input widgets accept (app.py:229, 239-250). */
  predicate WithinInputBounds(s: Snapshot) {
    Consistent(s) && s.overs <= 19
  }

  /** The current values that the four live-input widgets accept without
      raising (app.py:239-250); target aside, the same as WithinInputBounds. */
  predicate InWidgetRanges(s: Snapshot) {
    s.score >= 0 && 0 <= s.wickets <= AllOut && 0 <= s.overs <= 19 && 0 <= s.balls < BallsPerOver
  }

  /** The live-input block (app.py:236-252): the widgets render in order, each
      with the stored value as its value. The first one whose stored value is
      out of its range raises, the handler at app.py:251-252 catches it, and the
      widgets after it neither render nor write. */
  function LiveInput(s: Snapshot, newScore: int, newWickets: int, newOvers: int, newBalls: int): (t: Snapshot)
    ensures t.target == s.target
    ensures InWidgetRanges(s) ==> t == Snapshot(newScore, newWickets, newOvers, newBalls, s.target)
    ensures !InWidgetRanges(s) ==> t.balls == s.balls
    ensures s.score >= 0 && 0 <= s.wickets <= AllOut && !(0 <= s.overs <= 19) ==>
      t == s.(score := newScore, wickets := newWickets)
  {
    if s.score < 0 then s
    else if !(0 <= s.wickets <= AllOut) then s.(score := newScore)
    else if !(0 <= s.overs <= 19) then s.(score := newScore, wickets := newWickets)
    else if !(0 <= s.balls < BallsPerOver) then s.(score := newScore, wickets := newWickets, overs := newOvers)
    else Snapshot(newScore, newWickets, newOvers, newBalls, s.target)
  }

  /** Live input with in-range values keeps a consistent session consistent. */
  lemma LiveInputKeepsConsistent(s: Snapshot, newScore: int, newWickets: int, newOvers: int, newBalls: int)
    requires Consistent(s)
    requires newScore >= 0 && 0 <= newWickets <= AllOut && 0 <= newOvers <= 19 && 0 <= newBalls < BallsPerOver
    ensures Consistent(LiveInput(s, newScore, newWickets, newOvers, newBalls))
  {
  }

  /** Once the overs pass 19, nothing brings them back: a ball never lowers
      them, and the live inputs stop writing overs and balls (the overs widget
      raises first), while score and wickets edits still go through. */
  lemma OversPastNineteenStay(s: Snapshot, runs: int, wkt: int,
                              newScore: int, newWickets: int, newOvers: int, newBalls: int)
    requires Consistent(s) && s.overs > 19
    ensures Step(s, runs, wkt).overs >= s.overs
    ensures var t := LiveInput(s, newScore, newWickets, newOvers, newBalls);
      t.overs == s.overs && t.balls == s.balls && t.score == newScore && t.wickets == newWickets
  {
  }

  lemma DefaultWithinInputBounds()
    ensures WithinInputBounds(Default) && !Decided(Default)
    ensures BallsLeft(Default.overs, Default.balls) == 60
  {
  }

  /** Once decided, an update changes nothing, whatever it is given. */
  lemma StepDecidedIsNoOp(s: Snapshot, runs: int, wkt: int)
    requires Decided(s)
    ensures Step(s, runs, wkt) == s
  {
  }

  /** A live update adds the runs and the wicket, and never touches the target. */
  lemma StepLiveAddsRunsAndWicket(s: Snapshot, runs: int, wkt: int)
    requires !Decided(s)
    ensures Step(s, runs, wkt).score == s.score + runs
    ensures Step(s, runs, wkt).wickets == s.wickets + wkt
    ensures Step(s, runs, wkt).target == s.target
  {
  }

  /** A live update bowls exactly one ball, so one fewer is left, even past
      the end of the 20 overs; this holds for any stored ball count. */
  lemma StepBowlsOneBall(s: Snapshot, runs: int, wkt: int)
    requires !Decided(s)
    ensures TotalBalls(Step(s, runs, wkt).overs, Step(s, runs, wkt).balls) == TotalBalls(s.overs, s.balls) + 1
    ensures BallsLeft(Step(s, runs, wkt).overs, Step(s, runs, wkt).balls) == BallsLeft(s.overs, s.balls) - 1
  {
  }

  /** The over rolls over after its sixth ball, so the ball count stays in [0, 5]. */
  lemma StepRollsOver(s: Snapshot, runs: int, wkt: int)
    requires !Decided(s) && 0 <= s.balls < BallsPerOver
    ensures var t := Step(s, runs, wkt);
      0 <= t.balls < BallsPerOver &&
      t.balls == (s.balls + 1) % BallsPerOver &&
      (t.overs == s.overs + 1 <==> s.balls + 1 == BallsPerOver) &&
      (t.overs == s.overs <==> s.balls + 1 != BallsPerOver)
  {
  }

  /** Each button keeps the session consistent: wickets cannot pass ten because
      the guard stops updates at ten and a button adds at most one. */
  lemma StepKeepsConsistent(s: Snapshot, o: BallOutcome)
    requires Consistent(s)
    ensures Consistent(Step(s, o.Runs(), o.Wicket()))
  {
  }

  /** The widget bound of 19 completed overs is not kept: a dot ball from
      19.5 overs yields 20 overs, with no balls left and the innings still live. */
  lemma StepLeavesInputBounds()
    ensures var s := Snapshot(100, 2, 19, 5, 180);
      WithinInputBounds(s) &&
      Step(s, 0, 0) == Snapshot(100, 2, 20, 0, 180) &&
      !WithinInputBounds(Step(s, 0, 0)) &&
      BallsLeft(20, 0) == 0 && !Decided(Step(s, 0, 0))
  {
  }

  /** The session after pressing the buttons in order. */
  function Replay(s: Snapshot, outcomes: seq<BallOutcome>): (r: Snapshot)
    ensures r.target == s.target
    ensures r.score >= s.score && r.wickets >= s.wickets
    ensures TotalBalls(r.overs, r.balls) >= TotalBalls(s.overs, s.balls)
    decreases |outcomes|
  {
    if outcomes == [] then s
    else Replay(Step(s, outcomes[0].Runs(), outcomes[0].Wicket()), outcomes[1..])
  }

  /** A decided innings stays exactly as it is, whatever buttons are pressed. */
  lemma {:induction false} ReplayDecidedIsNoOp(s: Snapshot, outcomes: seq<BallOutcome>)
    requires Decided(s)
    ensures Replay(s, outcomes) == s
    decreases |outcomes|
  {
    if outcomes != [] {
      ReplayDecidedIsNoOp(s, outcomes[1..]);
    }
  }

  /** Consistency holds after any sequence of button presses. */
  lemma {:induction false} ReplayKeepsConsistent(s: Snapshot, outcomes: seq<BallOutcome>)
    requires Consistent(s)
    ensures Consistent(Replay(s, outcomes))
    decreases |outcomes|
  {
    if outcomes != [] {
      StepKeepsConsistent(s, outcomes[0]);
      ReplayKeepsConsistent(Step(s, outcomes[0].Runs(), outcomes[0].Wicket()), outcomes[1..]);
    }
  }

  /** Only wickets or the target end an innings: dot balls alone never decide
      it, and each one bowls a ball, so the count runs past 120 without bound. */
  lemma {:induction false} ReplayDotsNeverDecide(s: Snapshot, n: nat)
    requires !Decided(s)
    ensures var t := Replay(s, seq(n, _ => Dot));
      !Decided(t) && t.score == s.score && t.wickets == s.wickets &&
      TotalBalls(t.overs, t.balls) == TotalBalls(s.overs, s.balls) + n
    decreases n
  {
    if n > 0 {
      var dots := seq(n, _ => Dot);
      var t := Step(s, 0, 0);
      assert dots[0] == Dot && dots[1..] == seq(n - 1, _ => Dot);
      ReplayDotsNeverDecide(t, n - 1);
    }
  }
}
