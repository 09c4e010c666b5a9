# IPL win predictor: live scoring core

This project is a Dafny model of the live-match core of a Streamlit dashboard that shows win probabilities for an IPL run chase. The model covers four things:

- **Session state** (`Session.MatchState`): five integers (`score`, `wickets`, `overs`, `balls`, `target`). They start at 100/2/10/0/180. `UpdateMatch` (the source's `update_match`) changes them in place. It does nothing once the innings is decided, meaning ten wickets are down or the target is reached. Otherwise it adds the runs and the wicket and bowls one ball. After the sixth ball of an over it sets `balls` back to 0 and adds one to `overs`. The method is proved against the value-level specification `Scoring.Step`. The five what-if buttons (dot, single, four, six, out) are `Scoring.BallOutcome`, and `Scoring.Replay` is a run of button presses.
- **Chase statistics** (`Chase`, `Prediction.Features`): balls bowled, balls left out of 120, runs left, wickets left, and the current and required run rates. Each rate is 0 when its denominator is not positive.
- **Prediction adapter** (`Prediction.Predict`): it builds the one-row feature record and passes it to the classifier. The classifier is a function parameter. The result is one of three cases: the model could not be loaded, the scenario is invalid, or a (loss, win) probability pair.
- **Team dropdowns** (`Teams`): the sorted team list, and the bowling options, which are that list with the batting side removed.

Run rates are exact `real` ratios. Python's float division is not reproduced.

Two behaviours of the code are worth knowing:

- **Negative required run rate.** The code divides `runs_left * 6` by `balls_left` whenever balls are left, so the required run rate is negative once the score passes the target with balls left. A six from one run short does this: the guard checks the state before the ball, not after it. `Prediction.RequiredRateNegativeAfterOvertaking` shows this case.
- **Past 20 overs.** The guard never looks at balls left, so an innings can run past 20 overs. `Scoring.StepLeavesInputBounds` and `Scoring.ReplayDotsNeverDecide` show this. The model does not assume the widget ranges survive an update. From then on the overs widget raises on every render, so the overs and balls inputs stop writing, and only score and wickets can still be edited (`Scoring.OversPastNineteenStay`).

## Model

| member | source | states |
|---|---|---|
| `Chase.TotalBalls` | app.py:270 | with a ball count in [0,5], the total divided by six gives back the overs and the remainder gives back the balls |
| `Chase.BallsLeft` | app.py:271 | no balls are left exactly when 120 or more have been bowled; within 0-19 overs and 0-5 balls, 1 to 120 balls are left |
| `Chase.RunsLeft` | app.py:272 | no runs are needed exactly when the score has reached the target; otherwise score plus runs left is the target |
| `Chase.WicketsLeft` | app.py:273 | no wickets are in hand exactly when ten are down; with 0-10 down, 0-10 are in hand |
| `Chase.CurrentRunRate` | app.py:276 | 0 before the first ball; otherwise the rate times the balls bowled equals six times the score (runs per over); non-negative exactly when the score is non-negative or no ball is bowled |
| `Chase.RequiredRunRate` | app.py:277 | 0 when no balls are left; otherwise the rate times the balls left equals six times the runs left; non-negative exactly when runs left is non-negative or no balls are left |
| `Scoring.BallOutcome.Runs` | app.py:357-369 | a button adds at most six runs, and none exactly for the dot and the dismissal |
| `Scoring.BallOutcome.Wicket` | app.py:373 | a button adds at most one wicket, and one exactly for the dismissal |
| `Scoring.Decided` | app.py:194 | the innings is decided exactly when no wickets are in hand or no runs are needed |
| `Scoring.Step` | app.py:192-204 | the target never changes; a decided state is returned unchanged; a live one gains exactly the runs and the wicket and has exactly one more ball bowled (details in `StepRollsOver`) |
| `Scoring.Replay` | app.py:357-373 | after any sequence of button presses the target is the same, score and wickets have not gone down, and balls bowled have not gone down |
| `Scoring.LiveInput` | app.py:236-252 | the target is kept; with every stored value in its widget's range all four fields take the entered values; with overs out of range only score and wickets are written, and overs and balls stay as they were |
| `Scoring.LiveInputKeepsConsistent` | app.py:239-250 | live input with in-range values keeps a consistent session consistent |
| `Scoring.OversPastNineteenStay` | app.py:246-252 | once overs pass 19, a ball never lowers them, and live input writes score and wickets but leaves overs and balls unchanged |
| `Scoring.DefaultWithinInputBounds` | app.py:184-188 | the session defaults are within the widget ranges, the innings is live, and 60 balls are left |
| `Scoring.StepDecidedIsNoOp` | app.py:194-195 | with ten wickets down or the target reached, an update leaves all five fields unchanged for any runs and wicket |
| `Scoring.StepLiveAddsRunsAndWicket` | app.py:197-198 | a live update adds exactly the runs to the score and the wicket to the wickets, and keeps the target |
| `Scoring.StepBowlsOneBall` | app.py:201-204 | a live update raises balls bowled by exactly one and lowers balls left by exactly one, whatever the stored ball count |
| `Scoring.StepRollsOver` | app.py:201-204 | from a ball count in [0,5], the new count is (balls+1) mod 6 and stays in [0,5]; overs go up by one if and only if that was the sixth ball, and are otherwise unchanged |
| `Scoring.StepKeepsConsistent` | app.py:192-204 | each of the five button outcomes keeps score ≥ 0, wickets in [0,10], overs ≥ 0, balls in [0,5] and target ≥ 1 |
| `Scoring.StepLeavesInputBounds` | app.py:246 | from 19.5 overs, a dot ball gives 20 overs with no balls left and the innings still live, outside the 19-over input bound |
| `Scoring.ReplayDecidedIsNoOp` | app.py:194-195 | once decided, any sequence of button presses leaves the state as it is |
| `Scoring.ReplayKeepsConsistent` | app.py:357-373 | any sequence of button presses keeps the consistency ranges |
| `Scoring.ReplayDotsNeverDecide` | app.py:194 | from a live state, n dot balls keep it live with score and wickets unchanged and balls bowled up by exactly n, so nothing stops at 120 balls |
| `Session.MatchState.constructor` | app.py:184-188 | a new session holds the defaults 100/2/10/0/180, which are consistent, within the input ranges and live |
| `Session.MatchState.UpdateMatch` | app.py:192-204 | the new fields are `Step` of the old ones: unchanged if decided, otherwise score and wickets increased by the arguments and one ball bowled; target never changes |
| `Session.MatchState.Press` | app.py:357-373 | a button press is `update_match` with that button's runs and wicket, and it keeps the state consistent |
| `Session.MatchState.SetTarget` | app.py:229 | a target of at least 1 replaces the stored target and nothing else |
| `Session.MatchState.EnterLiveInput` | app.py:236-252 | the new fields are `LiveInput` of the old ones; it reports a rejection exactly when a stored value lies outside its widget's range; an accepted edit leaves the state within the input ranges, and a consistent state stays consistent |
| `Prediction.Features` | app.py:270-290 | the current score column is the session score and runs left is target minus score, wickets left plus wickets is ten, balls left plus balls bowled is 120, and the two rates are the guarded rates of those quantities; the team and city columns are passed through unchanged |
| `Prediction.Predict` | app.py:264-294 | reports a missing model if and only if none is loaded; reports an invalid scenario if and only if the classifier fails on the feature row; otherwise shows exactly the classifier's (class 0, class 1) pair as (loss, win) |
| `Prediction.InputBoundsGiveDefinedRates` | app.py:270-277 | within the widget ranges, balls left is in [1,120] and wickets left is in [0,10]; the required rate is a true ratio and the current rate is non-negative |
| `Prediction.StepMovesFeatures` | app.py:270-273 | a live ball lowers balls left by one, runs left by the runs and wickets left by the wicket, and raises the score column by the runs |
| `Prediction.DefaultFeatures` | app.py:270-277 | the default session gives 80 runs left, 60 balls left, 8 wickets left, a current rate of 10 and a required rate of 8 |
| `Prediction.RequiredRateNegativeAfterOvertaking` | app.py:277 | a six at 179 chasing 180 passes the guard, decides the innings and gives a negative required run rate |
| `Teams.TeamListSortedAndDistinct` | app.py:163-167 | the team list holds exactly the ten names of the source literal (same multiset), sorted in Python's string order and pairwise distinct, so it is `sorted` of that literal |
| `Teams.BowlingOptions` | app.py:226 | a team is offered if and only if it is in the list and is not the batting side; the options are the list's entries with every copy of the batting side removed |
| `Teams.BowlingOptionsSorted` | app.py:226 | filtering a sorted list leaves it sorted (the order is kept) |
| `Teams.DropsExactlyOne` | app.py:226 | in a list of distinct teams that holds the batting side, the options are exactly one shorter |
| `Teams.SelectionFromSortedList` | app.py:225-226 | with the batting side at index 2 or later of a sorted list, the options are sorted and one shorter, and option 1 is the list's entry 1, which differs from the batting side |
| `Teams.DefaultSelection` | app.py:225-226 | the default batting side (index 5) is Mumbai Indians; the bowling dropdown offers nine sorted teams, and its default (index 1) is Delhi Capitals, which is not the batting side |

## Left out

- Chase.CurrentRunRate: an exact real ratio; the IEEE-754 rounding of Python's float division is not modelled.
- Chase.RequiredRunRate: an exact real ratio; float rounding is not modelled.
- Prediction.Predict: only a failure of the classifier leads to an invalid scenario. A failure while rendering the result (app.py:300-345) would do the same in the source and is not modelled, because rendering is not modelled.
- Loading the pickled model (app.py:152-160) is file I/O. The model is the `Option<Predictor>` parameter of `Predict`.
- The classifier's internals and `predict_proba` (app.py:292) are an opaque external collaborator. Its promise that the two probabilities sum to 1 is not modelled either.
- Probability display: percentage rounding, `:.1f` formatting, the probability bar, and the 0.6/0.4 commentary thresholds (app.py:300-345). These are float presentation of the classifier's output.
- The Streamlit page (config, CSS, columns, headers, `st.rerun`) is presentation. The team colour table (app.py:175-181) is cosmetic.
- The city list (app.py:169-173) is not modelled. The venue is an arbitrary string in the feature row.
- Widget clamping by `st.number_input` is library behaviour. Each widget's return value is in its range, and this appears as the preconditions of `SetTarget` and `EnterLiveInput`. When a widget's stored value is out of range the widget raises, and `EnterLiveInput` models that as a rejection.
- The try/except around the live inputs (app.py:236-252) is modelled by `Scoring.LiveInput`, including the partial write: the assignments before the raising widget happen, and those after it are skipped. Only the error notice (app.py:252) is left out.
- Session.MatchState.Press: the what-if buttons render only when a classifier is loaded (the `else` branch of app.py:264-266, buttons at app.py:349-376). The method does not carry that condition. Without a classifier, only the number inputs change the state.
