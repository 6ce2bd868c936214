# Cricket match simulation engine, modelled in Dafny

This project models the simulation engine of a small limited-overs cricket
simulator, `Main.py`. Two teams each bat one innings, ball by ball. On each ball
the umpire compares the batter's batting skill with the bowler's bowling skill,
both scaled by the pitch conditions. A tie in skill is a dismissal. A batter who
survives scores between 0 and 6 runs, drawn at random. A dismissed batter is
replaced by the next one in the batting order. If nobody is left, the innings
ends at once. After every sixth ball the over is counted and a new bowler is
drawn from the bowling team's roster. The team that scores strictly more wins;
on a tie the second team is declared the winner by a margin of 0.

Layout, one module per component:

- `wrappers.dfy` (`Wrappers`): `Option`, which stands for Python's value-or-`None`.
- `players.dfy` (`Players`): the `Player` and `Field` records.
- `random_source.dfy` (`RandomSource`): the random source that replaces Python's
  global generator. It is an arbitrary stream `draws: nat -> nat` read through a
  cursor. `randint(lo, hi)` yields `lo + d % (hi - lo + 1)` and `choice(pool)`
  yields `pool[d % |pool|]`. The class `Random` does the same in place, moving
  its cursor.
- `teams.dfy` (`Teams`): the class `Team` with its batting order and bowler pool.
  `Dispatch` is one `sending_next_player` as a value, and `Deal` is k of them.
- `umpires.dfy` (`Umpires`): the outcome predictor, and the class `Umpire` with
  its three counters.
- `commentary.dfy` (`Commentary`): the ball description. The innings tests it for
  the ending `"OUT!"`.
- `innings.dfy` (`Innings`): the innings as a pure state machine. `Deliver` is the
  outcome half of a ball. `NextBall` is the over-boundary half. `Ball` is one pass
  of the loop and `Play` is the whole loop. The lemmas state what the loop
  guarantees.
- `matches.dfy` (`Matches`): the verdict (`Decide`), the whole match as a value
  (`PlayMatch`), and the class `Match`. `Match.PlayInnings` is the loop of
  `play_innings`, proved to compute exactly `Play`. `Match.Bowl` is one pass of
  that loop's body, proved to compute exactly `Ball`. `Match.StartMatch` is
  proved to compute exactly `PlayMatch`.

Behaviours of the code that the model keeps as they are:

- A tied match goes to the second team with margin 0 (Main.py:278-282).
  `Matches.DecideSwap` states it.
- If the batting order is empty and `total_overs > 0`, the first ball reads
  `None.batting` (Main.py:134) and crashes. The model makes a non-empty batting
  order a precondition of an innings.
- The overs counted during an innings never exceed `total_overs`
  (Main.py:297, 314-317). `Matches.InningsBounds` proves it.
- `start_match` does not zero the counters before the first innings. So the
  first team's score includes whatever the umpire already held. A fresh `Match`
  starts at zero, but a second `start_match` on the same match does not. The
  model keeps this: `PlayMatch` takes the counters found at the start.
- An all-out innings dismisses every batter but counts one wicket fewer. The
  last dismissal finds nobody to send in, so the loop breaks before
  `update_wickets` (Main.py:303-307). `Innings.PlayWickets` and
  `Matches.InningsBounds` state this exactly.

## Model

| member | source | states |
|---|---|---|
| `RandomSource.RandIntAt` | Main.py:311 | a run draw from `randint(0, 6)` lies in the closed range [lo, hi] |
| `RandomSource.ChoiceAt` | Main.py:69 | a drawn bowler is an element of the pool |
| `RandomSource.RandIntReachesEveryValue` | Main.py:311 | every value of the range is produced by some stream, so the stream does not narrow the outcomes |
| `RandomSource.ChoiceReachesEveryIndex` | Main.py:69 | every pool element is chosen by some stream |
| `RandomSource.Random.constructor` | Main.py:2 | the injected source starts at the head of its stream (cursor 0) |
| `RandomSource.Random.RandInt` | Main.py:311 | returns a value in [lo, hi] (the stream's draw) and consumes one draw |
| `RandomSource.Random.Choice` | Main.py:69 | returns an element of the pool (the stream's draw) and consumes one draw |
| `Teams.Dispatch` | Main.py:51-60 | a non-empty order yields its first element and leaves exactly the rest; an empty order yields None and is left unchanged |
| `Teams.Deal` | Main.py:58-60 | the batters sent by k successive dispatches, followed by the order left, make up exactly the original order |
| `Teams.DealInRosterOrder` | Main.py:58-60 | k successive dispatches send the first min(k, n) batters in roster order and leave exactly the remaining suffix |
| `Teams.Team.constructor` | Main.py:28-40 | the batting order starts as a copy of the roster, and the bowler pool starts empty |
| `Teams.Team.SendingNextPlayer` | Main.py:51-60 | pops the front of the batting order, or returns None and leaves an empty order unchanged |
| `Teams.Team.ChooseBowler` | Main.py:62-69 | returns a member of the bowler pool |
| `Umpires.PredictOutcome` | Main.py:123-138 | on a positive pitch, NOT OUT exactly when batting > bowling; on a zero pitch always OUT; on a negative pitch, NOT OUT exactly when batting < bowling; it reads no state |
| `Umpires.TieIsOut` | Main.py:134-138 | equal batting and bowling skills give OUT on any pitch |
| `Umpires.MonotoneInBatting` | Main.py:134-138 | on a non-negative pitch, raising the batting skill never turns NOT OUT into OUT |
| `Umpires.Umpire.constructor` | Main.py:90-100 | all three counters start at zero |
| `Umpires.Umpire.UpdateScore` | Main.py:102-109 | adds the runs to the score; wickets and overs are unchanged |
| `Umpires.Umpire.UpdateWickets` | Main.py:111-115 | adds one wicket; score and overs are unchanged |
| `Umpires.Umpire.UpdateOvers` | Main.py:117-121 | adds one over; score and wickets are unchanged |
| `Commentary.BallDescription` | Main.py:162-169 | the description starts with the batter's name and has more after it |
| `Commentary.EndsWithOutIffDismissed` | Main.py:162-169 | whatever the batter's name, the description ends with "OUT!" exactly when the outcome is OUT, so the innings' string test is the outcome test |
| `Innings.Start` | Main.py:292-295 | the innings starts at ball 1 of over 0, with the counters found and a bowler drawn from the pool; a non-empty order sends its first batter and keeps the rest |
| `Innings.Deliver` | Main.py:303-312 | the outcome half of a ball adds 0 to 6 runs and at most one wicket; the ball number, over, bowler and over counter are unchanged |
| `Innings.NextBall` | Main.py:314-322 | the bookkeeping half of a ball counts the ball and keeps the ball number in 1..6; batter, order, runs and wickets are unchanged, and the bowler stays a member of the pool |
| `Innings.Ball` | Main.py:298-322 | one pass of the loop bowls one ball, moves on by at most one over, never lengthens the order and adds 0 to 6 runs |
| `Innings.Play` | Main.py:297-322 | the loop never goes back in balls or overs and never lengthens the order; if it ends with a batter at the crease, all overs were bowled |
| `Innings.StartAtHead` | Main.py:292-295 | the innings starts at ball 1 of over 0 with an opening batter, and its bowler is drawn from the pool |
| `Innings.BallScoring` | Main.py:303-312 | a NOT OUT ball adds 0 to 6 runs and no wicket; an OUT ball adds no runs, and adds one wicket and the next batter exactly when the order is not empty |
| `Innings.BallOverBoundary` | Main.py:314-322 | the over and the umpire's over counter advance exactly after the sixth ball of an over, and then a bowler is drawn again from the pool (it may be the same player); on every other ball the bowler stays; ball numbers stay in 1..6 |
| `Innings.PlayStep` | Main.py:297-322 | one pass of the loop keeps the innings' final state, or is that final state when the order ran out |
| `Innings.PlayEnds` | Main.py:297-322 | the innings ends either with all overs bowled after exactly 6 × total_overs balls, or all-out with an empty order before that; never more than 6 × total_overs balls |
| `Innings.PlayWickets` | Main.py:303-307 | wickets added = batters taken off the waiting order, and the order left is a suffix, so the final all-out dismissal is not counted |
| `Innings.PlayRuns` | Main.py:310-312 | the score never decreases and grows by at most 6 per ball bowled |
| `Innings.PlayOvers` | Main.py:314-318 | the umpire's over counter moves in step with the loop's over number, and the bowler stays a member of the pool |
| `Innings.NeverDismissedBatsThrough` | Main.py:297-312 | a batter no bowler in the pool can dismiss bats through all overs: no wicket falls, and the order is untouched |
| `Innings.SteadyScoring` | Main.py:310-312 | with no dismissal possible and every run draw equal to k, the score grows by exactly k per ball |
| `Matches.Decide` | Main.py:278-282 | the first team wins exactly when strictly ahead; the margin is the absolute difference and is never negative |
| `Matches.DecideSwap` | Main.py:278-282 | except on a tie, swapping the scores swaps the winner and keeps the margin; a tie is a win for the second team by 0 |
| `Matches.PlayMatch` | Main.py:248-282 | the two scores are the final scores of the two innings; the margin is never negative, and the first team wins exactly when strictly ahead |
| `Matches.InningsBounds` | Main.py:284-322 | from its start, an innings adds between 0 and 36 × total_overs runs; it adds at most n - 1 wickets (exactly n - 1 when all-out), where n is the number of batters; the overs counted equal the loop's over and are at most total_overs; all overs are bowled unless all-out |
| `Matches.MatchBounds` | Main.py:248-282 | the second innings is scored from zero; in each innings the runs added lie in [0, 36 × total_overs], the wickets added in [0, n - 1] and the overs added in [0, total_overs]; the margin is abs(score1 - score2) |
| `Matches.AllFoursOneOverTie` | Main.py:248-322 | a one-over match between undismissable two-player sides with every draw a 4: both sides make 24 for 0 in 1 over, and the second side wins by 0 |
| `Matches.Match.constructor` | Main.py:231-246 | a fresh umpire on the match's field, with zeroed counters |
| `Matches.Match.PlayInnings` | Main.py:284-322 | the loop computes exactly `Innings.Play` from the counters, order and stream it finds. The score grows by 0 to 36 × total_overs, wickets by at most n - 1, and overs by at most total_overs, with exactly total_overs unless all-out. The loop invariant keeps the umpire's over counter equal to the loop's over |
| `Matches.Match.Bowl` | Main.py:298-322 | one pass of the loop body computes exactly `Innings.Ball`, and reports the all-out `break` |
| `Matches.Match.StartMatch` | Main.py:248-282 | resets both batting orders and bowler pools to the rosters; plays the two innings with the counters zeroed in between; returns the two scores and the verdict, which equal `PlayMatch` |

## Left out

- Printing and the commentator's formatting (`describe_game`, `describe_start`,
  `describe_end`, `current_info`, `describe_final_result` and the prints in the
  loop). These are presentation only. Only the ball description the innings
  tests is modelled.
- `describe_final_result` is passed the module-level `team1.name` and
  `team2.name` (Main.py:280, 282), not the match's own teams. This affects only
  the printed name. The model returns the winning side.
- Captain selection (`select_captain`, Main.py:42-49, 252-253). It does not
  affect the play. Its two draws from the generator are not taken from the
  stream. Since the stream is arbitrary, this loses no sequence of outcomes.
- Python's `random` module. It becomes the injected stream described above; its
  uniform distribution is not modelled.
- Floating-point rounding of the skill products. Skills and pitch conditions
  are exact reals.
- The unused attributes `fielding`, `running`, `experience`, `size`,
  `fan_ratio` and `home_advantage`. No code reads them.
- The hard-coded rosters and the module-level script (Main.py:326-363). These
  are data and the entry point.
- Crash paths become preconditions. An innings needs a non-empty batting order
  (otherwise `None.batting` is read at Main.py:134). It also needs a non-empty
  bowler pool (otherwise `random.choice([])` is called at Main.py:69).
  `start_match` needs non-empty rosters for the same reasons.
- Matches.Match.StartMatch: requires the two teams to be different objects.
  With one team object on both sides, the second innings would start from
  whatever the first innings left of the shared batting order. That case is
  not modelled.
- Matches.Match.PlayInnings: `total_overs` is a natural number. Python would
  accept a negative value and bowl no ball.
- The match's own `field` attribute is kept, but the predictor reads the
  umpire's copy, as in the source.
