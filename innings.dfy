/**
 * The innings of `Match.play_innings` (Main.py:284-322) as a pure state
 * machine: `Ball` is one pass of its loop body and `Play` runs the loop to
 * its end. The method `Matches.Match.PlayInnings` is proved to compute
 * exactly `Play`; the lemmas below state what the loop guarantees.
 */
module Innings {
  import opened Wrappers
  import opened Players
  import opened Umpires
  import Teams
  import RandomSource

  /**
   * The loop's variables: the ball number within the over, the over number,
   * the batter at the crease (None once the order ran out), the bowler, the
   * batting order still waiting, the umpire's counters, the position in the
   * random stream, and `balls`, the balls bowled so far (which the source
   * does not keep; it exists to state bounds).
   */
  datatype State = State(ballCount: int, over: nat, batsman: Option<Player>, bowler: Player,
                         order: seq<Player>, board: Board, cursor: nat, balls: nat)

  /** The state before the loop: bowler drawn first, then the opening batter sent. */
  function Start(order: seq<Player>, pool: seq<Player>, draws: nat -> nat, cursor: nat, board: Board): (s: State)
    requires pool != []
    ensures s.ballCount == 1 && s.over == 0 && s.balls == 0 && s.board == board
    ensures s.bowler in pool && s.cursor == cursor + 1
    ensures order != [] ==> s.batsman == Some(order[0]) && s.order == order[1..]
  {
    var (batsman, rest) := Teams.Dispatch(order);
    State(1, 0, batsman, RandomSource.ChoiceAt(draws, cursor, pool), rest, board, cursor + 1, 0)
  }

  /**
   * The outcome half of a ball (Main.py:303-312). A dismissal sends the next
   * batter and counts a wicket, or, when nobody is left, leaves the batter
   * None without counting it. A survived ball scores a draw from [0, 6].
   */
  function Deliver(field: Field, draws: nat -> nat, s: State): (t: State)
    requires s.batsman.Some?
    ensures t.ballCount == s.ballCount && t.over == s.over && t.bowler == s.bowler && t.balls == s.balls
    ensures t.board.overs == s.board.overs
    ensures s.board.scores <= t.board.scores <= s.board.scores + 6
    ensures s.board.wickets <= t.board.wickets <= s.board.wickets + 1
  {
    if PredictOutcome(field, s.batsman.value, s.bowler) == Out then
      var (next, rest) := Teams.Dispatch(s.order);
      if next.None? then s.(batsman := None)
      else s.(batsman := next, order := rest, board := s.board.(wickets := s.board.wickets + 1))
    else
      var runs := RandomSource.RandIntAt(draws, s.cursor, 0, 6);
      s.(board := s.board.(scores := s.board.scores + runs), cursor := s.cursor + 1)
  }

  /**
   * The bookkeeping half of a ball (Main.py:314-322): after the sixth ball of
   * an over the over is counted, the ball number restarts at 1 and a new
   * bowler is drawn; otherwise the ball number moves on.
   */
  function NextBall(pool: seq<Player>, draws: nat -> nat, s: State): (t: State)
    requires pool != []
    ensures t.batsman == s.batsman && t.order == s.order && t.balls == s.balls + 1
    ensures t.board.scores == s.board.scores && t.board.wickets == s.board.wickets
    ensures 1 <= s.ballCount <= 6 ==> 1 <= t.ballCount <= 6
    ensures s.bowler in pool ==> t.bowler in pool
  {
    if s.ballCount > 5 then
      s.(ballCount := 1, over := s.over + 1, board := s.board.(overs := s.board.overs + 1),
         bowler := RandomSource.ChoiceAt(draws, s.cursor, pool), cursor := s.cursor + 1,
         balls := s.balls + 1)
    else
      s.(ballCount := s.ballCount + 1, balls := s.balls + 1)
  }

  /** One pass of the loop body; a dismissal with nobody left ends the innings at once. */
  function Ball(field: Field, pool: seq<Player>, draws: nat -> nat, s: State): (t: State)
    requires s.batsman.Some? && pool != []
    ensures t.balls == s.balls + 1 && s.over <= t.over <= s.over + 1 && |t.order| <= |s.order|
    ensures s.board.scores <= t.board.scores <= s.board.scores + 6
  {
    var played := Deliver(field, draws, s);
    if played.batsman.None? then played.(balls := s.balls + 1) else NextBall(pool, draws, played)
  }

  /** The loop `while over < total_overs`, leaving early when the batting order runs out. */
  function Play(field: Field, pool: seq<Player>, draws: nat -> nat, totalOvers: nat, s: State): (r: State)
    requires s.batsman.Some? && pool != [] && 1 <= s.ballCount <= 6
    ensures s.balls <= r.balls && s.over <= r.over && |r.order| <= |s.order|
    ensures r.batsman.Some? ==> r.over >= totalOvers
    decreases totalOvers - s.over, 6 - s.ballCount
  {
    if s.over < totalOvers then
      var t := Ball(field, pool, draws, s);
      if t.batsman.None? then t else Play(field, pool, draws, totalOvers, t)
    else s
  }

  /**
   * The shape of the state at every loop head: ball numbers run 1..6, and
   * every completed over is exactly six balls; once the overs are used up
   * the ball number is back at 1.
   */
  ghost predicate AtHead(s: State, totalOvers: nat)
  {
    && s.batsman.Some?
    && 1 <= s.ballCount <= 6
    && s.over <= totalOvers
    && (s.over == totalOvers ==> s.ballCount == 1)
    && s.balls == 6 * s.over + s.ballCount - 1
  }

  lemma StartAtHead(order: seq<Player>, pool: seq<Player>, draws: nat -> nat, cursor: nat, board: Board, totalOvers: nat)
    requires order != [] && pool != []
    ensures AtHead(Start(order, pool, draws, cursor, board), totalOvers)
    ensures Start(order, pool, draws, cursor, board).bowler in pool
  {
  }

  /**
   * One ball by outcome: a survived ball adds between 0 and 6 runs and no
   * wicket; a dismissal adds no runs, and one wicket exactly when a
   * replacement batter was available (taken from the front of the order).
   */
  lemma BallScoring(field: Field, pool: seq<Player>, draws: nat -> nat, s: State)
    requires s.batsman.Some? && pool != []
    ensures var t := Ball(field, pool, draws, s);
      && t.balls == s.balls + 1
      && (PredictOutcome(field, s.batsman.value, s.bowler) == NotOut ==>
            && s.board.scores <= t.board.scores <= s.board.scores + 6
            && t.board.wickets == s.board.wickets
            && t.batsman == s.batsman && t.order == s.order)
      && (PredictOutcome(field, s.batsman.value, s.bowler) == Out ==>
            && t.board.scores == s.board.scores
            && (s.order == [] <==> t.batsman.None?)
            && (s.order == [] ==> t.board == s.board && t.order == [])
            && (s.order != [] ==>
                  t.board.wickets == s.board.wickets + 1 && t.batsman == Some(s.order[0]) && t.order == s.order[1..]))
  {
  }

  /**
   * The over boundary: while the innings goes on, the over advances (and
   * the umpire's over counter with it, and a bowler is drawn from the pool)
   * exactly after the sixth ball; on any other ball the bowler stays.
   */
  lemma BallOverBoundary(field: Field, pool: seq<Player>, draws: nat -> nat, totalOvers: nat, s: State)
    requires AtHead(s, totalOvers) && s.over < totalOvers && pool != []
    requires Ball(field, pool, draws, s).batsman.Some?
    ensures var t := Ball(field, pool, draws, s);
      && AtHead(t, totalOvers)
      && (t.over == s.over + 1 <==> s.ballCount == 6)
      && (t.over != s.over ==> t.bowler in pool && t.board.overs == s.board.overs + 1)
      && (t.over == s.over ==> t.bowler == s.bowler && t.board.overs == s.board.overs)
  {
  }

  /** One turn of the loop leaves the innings' final state unchanged. */
  lemma PlayStep(field: Field, pool: seq<Player>, draws: nat -> nat, totalOvers: nat, s: State)
    requires AtHead(s, totalOvers) && s.over < totalOvers && pool != []
    ensures var t := Ball(field, pool, draws, s);
      && (t.batsman.None? ==> Play(field, pool, draws, totalOvers, s) == t)
      && (t.batsman.Some? ==> AtHead(t, totalOvers) && Play(field, pool, draws, totalOvers, t) == Play(field, pool, draws, totalOvers, s))
  {
    if Ball(field, pool, draws, s).batsman.Some? {
      BallOverBoundary(field, pool, draws, totalOvers, s);
    }
  }

  /**
   * The innings always ends, in one of two ways: all overs bowled (then
   * exactly 6 * totalOvers balls were faced), or the order ran out on a
   * dismissal before that. Either way at most 6 * totalOvers balls are bowled.
   */
  lemma {:induction false} PlayEnds(field: Field, pool: seq<Player>, draws: nat -> nat, totalOvers: nat, s: State)
    requires AtHead(s, totalOvers) && pool != []
    ensures var r := Play(field, pool, draws, totalOvers, s);
      && (r.batsman.Some? ==> r.over == totalOvers && r.ballCount == 1 && r.balls == 6 * totalOvers)
      && (r.batsman.None? ==> r.order == [] && r.over < totalOvers && r.balls == 6 * r.over + r.ballCount)
      && s.balls <= r.balls <= 6 * totalOvers
    decreases totalOvers - s.over, 6 - s.ballCount
  {
    if s.over < totalOvers {
      var t := Ball(field, pool, draws, s);
      if t.batsman.Some? {
        BallOverBoundary(field, pool, draws, totalOvers, s);
        PlayEnds(field, pool, draws, totalOvers, t);
      } else {
        BallScoring(field, pool, draws, s);
      }
    }
  }

  /**
   * Wickets count the replacements sent: every counted wicket took one
   * batter off the waiting order, and what is left is a suffix of it. So
   * the final dismissal of an all-out innings is not counted.
   */
  lemma {:induction false} PlayWickets(field: Field, pool: seq<Player>, draws: nat -> nat, totalOvers: nat, s: State)
    requires s.batsman.Some? && pool != [] && 1 <= s.ballCount <= 6
    ensures var r := Play(field, pool, draws, totalOvers, s);
      && r.board.wickets - s.board.wickets == |s.order| - |r.order|
      && |r.order| <= |s.order| && r.order == s.order[|s.order| - |r.order|..]
    decreases totalOvers - s.over, 6 - s.ballCount
  {
    if s.over < totalOvers {
      var t := Ball(field, pool, draws, s);
      BallScoring(field, pool, draws, s);
      if t.batsman.Some? {
        PlayWickets(field, pool, draws, totalOvers, t);
        var r := Play(field, pool, draws, totalOvers, t);
        if t.order != s.order {
          assert t.order == s.order[1..];
          assert s.order[|s.order| - |r.order|..] == t.order[|t.order| - |r.order|..];
        }
      }
    }
  }

  /** Runs never decrease and grow by at most 6 per ball bowled. */
  lemma {:induction false} PlayRuns(field: Field, pool: seq<Player>, draws: nat -> nat, totalOvers: nat, s: State)
    requires s.batsman.Some? && pool != [] && 1 <= s.ballCount <= 6
    ensures var r := Play(field, pool, draws, totalOvers, s);
      && s.balls <= r.balls
      && s.board.scores <= r.board.scores <= s.board.scores + 6 * (r.balls - s.balls)
    decreases totalOvers - s.over, 6 - s.ballCount
  {
    if s.over < totalOvers {
      var t := Ball(field, pool, draws, s);
      BallScoring(field, pool, draws, s);
      if t.batsman.Some? {
        PlayRuns(field, pool, draws, totalOvers, t);
      }
    }
  }

  /**
   * The umpire's over counter moves in step with the loop's over number,
   * and the bowler at the end is still one drawn from the pool.
   */
  lemma {:induction false} PlayOvers(field: Field, pool: seq<Player>, draws: nat -> nat, totalOvers: nat, s: State)
    requires AtHead(s, totalOvers) && pool != [] && s.bowler in pool
    ensures var r := Play(field, pool, draws, totalOvers, s);
      && r.board.overs - s.board.overs == r.over - s.over
      && r.bowler in pool
    decreases totalOvers - s.over, 6 - s.ballCount
  {
    if s.over < totalOvers {
      var t := Ball(field, pool, draws, s);
      if t.batsman.Some? {
        BallOverBoundary(field, pool, draws, totalOvers, s);
        PlayOvers(field, pool, draws, totalOvers, t);
      }
    }
  }

  /**
   * A batter no bowler of the pool can dismiss bats through every over: the
   * innings ends by overs, not by the order running out, and no wicket falls.
   */
  lemma {:induction false} NeverDismissedBatsThrough(field: Field, pool: seq<Player>, draws: nat -> nat, totalOvers: nat, s: State)
    requires AtHead(s, totalOvers) && pool != [] && s.bowler in pool
    requires forall w :: w in pool ==> PredictOutcome(field, s.batsman.value, w) == NotOut
    ensures var r := Play(field, pool, draws, totalOvers, s);
      && r.batsman == s.batsman && r.over == totalOvers
      && r.board.wickets == s.board.wickets && r.order == s.order
    decreases totalOvers - s.over, 6 - s.ballCount
  {
    if s.over < totalOvers {
      var t := Ball(field, pool, draws, s);
      BallScoring(field, pool, draws, s);
      BallOverBoundary(field, pool, draws, totalOvers, s);
      NeverDismissedBatsThrough(field, pool, draws, totalOvers, t);
    }
  }

  /**
   * When no bowler can dismiss the opening batter and the stream always
   * yields `k` runs, the innings faces exactly 6 * totalOvers balls and
   * scores k runs off each.
   */
  lemma {:induction false} SteadyScoring(field: Field, pool: seq<Player>, draws: nat -> nat, totalOvers: nat, s: State, k: int)
    requires AtHead(s, totalOvers) && pool != [] && s.bowler in pool
    requires forall w :: w in pool ==> PredictOutcome(field, s.batsman.value, w) == NotOut
    requires forall c :: RandomSource.RandIntAt(draws, c, 0, 6) == k
    ensures var r := Play(field, pool, draws, totalOvers, s);
      r.board.scores == s.board.scores + k * (r.balls - s.balls)
    decreases totalOvers - s.over, 6 - s.ballCount
  {
    if s.over < totalOvers {
      var t := Ball(field, pool, draws, s);
      assert RandomSource.RandIntAt(draws, s.cursor, 0, 6) == k;
      assert t.board.scores == s.board.scores + k;
      BallOverBoundary(field, pool, draws, totalOvers, s);
      SteadyScoring(field, pool, draws, totalOvers, t, k);
      var r := Play(field, pool, draws, totalOvers, t);
      var d := r.balls - t.balls;
      assert r.balls - s.balls == d + 1;
      assert k * (d + 1) == k * d + k;
    }
  }

}
