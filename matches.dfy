/**
 * The match (Main.py:230-322): two innings with the roles swapped, the
 * counters zeroed in between, and the winner and margin decided from the
 * two scores.
 */
module Matches {
  import opened Wrappers
  import opened Players
  import opened Umpires
  import opened Innings
  import Teams
  import RandomSource
  import Commentary

  datatype Side = First | Second

  /** The declared result: the winning side and the margin it won by. */
  datatype Verdict = Verdict(winner: Side, margin: int)

  /**
   * The final outcome of `start_match`: the first team wins only when it is
   * strictly ahead; otherwise the second team is declared the winner. The
   * margin is the absolute difference, so a tie goes to the second team by 0.
   */
  function Decide(score1: int, score2: int): (v: Verdict)
    ensures v.winner == First <==> score1 > score2
    ensures v.margin >= 0
    ensures v.margin == if score1 < score2 then score2 - score1 else score1 - score2
  {
    if score1 > score2 then Verdict(First, score1 - score2) else Verdict(Second, score2 - score1)
  }

  /**
   * Apart from a tie, the verdict does not depend on which side batted
   * first: swapping the scores swaps the winner and keeps the margin. A tie
   * is the one case where batting order decides: the side batting second wins by 0.
   */
  lemma DecideSwap(score1: int, score2: int)
    ensures score1 != score2 ==>
      Decide(score2, score1).margin == Decide(score1, score2).margin &&
      Decide(score2, score1).winner != Decide(score1, score2).winner
    ensures score1 == score2 ==> Decide(score1, score2) == Decide(score2, score1) == Verdict(Second, 0)
  {
  }

  /** Everything `start_match` determines: both innings' final states, the two scores and the verdict. */
  datatype MatchOutcome = MatchOutcome(first: State, second: State, score1: int, score2: int, verdict: Verdict)

  /**
   * `start_match` as a value. The first team bats against the second team's
   * full roster as bowlers, starting from whatever the counters hold; its
   * score is captured, the counters are zeroed, and the second team bats
   * against the first team's roster, continuing the same random stream.
   */
  function PlayMatch(field: Field, players1: seq<Player>, players2: seq<Player>, draws: nat -> nat,
                     totalOvers: nat, cursor: nat, board: Board): (m: MatchOutcome)
    requires players1 != [] && players2 != []
    ensures m.score1 == m.first.board.scores && m.score2 == m.second.board.scores
    ensures m.verdict.margin >= 0 && (m.verdict.winner == First <==> m.score1 > m.score2)
  {
    var first := Play(field, players2, draws, totalOvers, Start(players1, players2, draws, cursor, board));
    var second := Play(field, players1, draws, totalOvers, Start(players2, players1, draws, first.cursor, Board(0, 0, 0)));
    MatchOutcome(first, second, first.board.scores, second.board.scores, Decide(first.board.scores, second.board.scores))
  }

  /**
   * What one innings from `Start` guarantees: the runs added lie in
   * [0, 36 * totalOvers], the wickets added are at most one fewer than the
   * batters in the order (exactly that many when the order ran out), the
   * overs counted equal the loop's over number and never exceed totalOvers,
   * and the innings lasts all overs unless the order ran out.
   */
  lemma {:induction false} InningsBounds(field: Field, order: seq<Player>, pool: seq<Player>, draws: nat -> nat,
                                         totalOvers: nat, cursor: nat, board: Board)
    requires order != [] && pool != []
    ensures var r := Play(field, pool, draws, totalOvers, Start(order, pool, draws, cursor, board));
      && board.scores <= r.board.scores <= board.scores + 36 * totalOvers
      && board.wickets <= r.board.wickets && r.board.wickets - board.wickets <= |order| - 1
      && (r.batsman.None? ==> r.board.wickets - board.wickets == |order| - 1 && r.order == [])
      && r.board.overs - board.overs == r.over <= totalOvers
      && (r.batsman.Some? ==> r.over == totalOvers)
      && r.balls <= 6 * totalOvers
      && r.bowler in pool
  {
    var s := Start(order, pool, draws, cursor, board);
    StartAtHead(order, pool, draws, cursor, board, totalOvers);
    PlayEnds(field, pool, draws, totalOvers, s);
    PlayWickets(field, pool, draws, totalOvers, s);
    PlayRuns(field, pool, draws, totalOvers, s);
    PlayOvers(field, pool, draws, totalOvers, s);
    var r := Play(field, pool, draws, totalOvers, s);
    assert 6 * (r.balls - s.balls) <= 36 * totalOvers;
  }

  /**
   * The match-level guarantees: the second innings is scored from zero, each
   * innings stays within its bounds, and the verdict's margin is the
   * absolute difference of the two scores.
   */
  lemma MatchBounds(field: Field, players1: seq<Player>, players2: seq<Player>, draws: nat -> nat,
                    totalOvers: nat, cursor: nat, board: Board)
    requires players1 != [] && players2 != []
    ensures var m := PlayMatch(field, players1, players2, draws, totalOvers, cursor, board);
      && board.scores <= m.score1 <= board.scores + 36 * totalOvers
      && 0 <= m.score2 <= 36 * totalOvers
      && board.wickets <= m.first.board.wickets && m.first.board.wickets - board.wickets <= |players1| - 1
      && board.overs <= m.first.board.overs && m.first.board.overs - board.overs <= totalOvers
      && 0 <= m.second.board.wickets <= |players2| - 1
      && 0 <= m.second.board.overs <= totalOvers
      && m.verdict.margin == (if m.score1 < m.score2 then m.score2 - m.score1 else m.score1 - m.score2)
  {
    InningsBounds(field, players1, players2, draws, totalOvers, cursor, board);
    var first := Play(field, players2, draws, totalOvers, Start(players1, players2, draws, cursor, board));
    InningsBounds(field, players2, players1, draws, totalOvers, first.cursor, Board(0, 0, 0));
  }

  /**
   * A one-over match between two-player sides whose batters can never be
   * dismissed, with every run draw a 4: each side makes 6 * 4 = 24 for no
   * wicket in 1 over, and the tie is declared a win for the second side by 0.
   */
  lemma AllFoursOneOverTie(a1: Player, a2: Player, b1: Player, b2: Player)
    requires a1.batting == a2.batting == b1.batting == b2.batting == 1.0
    requires a1.bowling == a2.bowling == b1.bowling == b2.bowling == 0.0
    ensures var m := PlayMatch(Field(1.0), [a1, a2], [b1, b2], (_: nat) => 4, 1, 0, Board(0, 0, 0));
      && m.first.board == Board(24, 0, 1) && m.second.board == Board(24, 0, 1)
      && m.verdict == Verdict(Second, 0)
  {
    var field, draws := Field(1.0), (_: nat) => 4;
    var s1 := Start([a1, a2], [b1, b2], draws, 0, Board(0, 0, 0));
    StartAtHead([a1, a2], [b1, b2], draws, 0, Board(0, 0, 0), 1);
    NeverDismissedBatsThrough(field, [b1, b2], draws, 1, s1);
    SteadyScoring(field, [b1, b2], draws, 1, s1, 4);
    PlayEnds(field, [b1, b2], draws, 1, s1);
    PlayOvers(field, [b1, b2], draws, 1, s1);
    var first := Play(field, [b1, b2], draws, 1, s1);
    var s2 := Start([b1, b2], [a1, a2], draws, first.cursor, Board(0, 0, 0));
    StartAtHead([b1, b2], [a1, a2], draws, first.cursor, Board(0, 0, 0), 1);
    NeverDismissedBatsThrough(field, [a1, a2], draws, 1, s2);
    SteadyScoring(field, [a1, a2], draws, 1, s2, 4);
    PlayEnds(field, [a1, a2], draws, 1, s2);
    PlayOvers(field, [a1, a2], draws, 1, s2);
  }

  class Match {
    const team1: Teams.Team
    const team2: Teams.Team
    const field: Field
    const umpire: Umpire
    const totalOvers: nat
    /** The injected random source standing for Python's global generator. */
    const rng: RandomSource.Random

    /** `Match.__init__`: a fresh umpire on the match's field, counters at zero. */
    constructor (team1: Teams.Team, team2: Teams.Team, field: Field, totalOvers: nat, rng: RandomSource.Random)
      ensures this.team1 == team1 && this.team2 == team2 && this.field == field
      ensures this.totalOvers == totalOvers && this.rng == rng
      ensures fresh(umpire) && umpire.field == field && umpire.Counters() == Board(0, 0, 0)
    {
      this.team1 := team1;
      this.team2 := team2;
      this.field := field;
      this.totalOvers := totalOvers;
      this.rng := rng;
      umpire := new Umpire(field);
    }

    /**
     * `play_innings`: the ball-by-ball loop. It computes exactly the innings
     * `Play` describes, from the counters and random stream it finds; the
     * bounds follow from the lemmas about `Play`.
     */
    method PlayInnings(battingTeam: Teams.Team, bowlingTeam: Teams.Team)
      requires battingTeam.battingOrder != [] && bowlingTeam.bowlers != []
      modifies battingTeam`battingOrder, umpire`scores, umpire`wickets, umpire`overs, rng`cursor
      ensures var r := Play(umpire.field, bowlingTeam.bowlers, rng.draws, totalOvers,
                            Start(old(battingTeam.battingOrder), bowlingTeam.bowlers, rng.draws,
                                  old(rng.cursor), old(umpire.Counters())));
        umpire.Counters() == r.board && battingTeam.battingOrder == r.order && rng.cursor == r.cursor
      ensures old(umpire.scores) <= umpire.scores <= old(umpire.scores) + 36 * totalOvers
      ensures umpire.wickets - old(umpire.wickets) <= |old(battingTeam.battingOrder)| - 1
      ensures umpire.overs - old(umpire.overs) <= totalOvers
      ensures battingTeam.battingOrder != [] ==> umpire.overs - old(umpire.overs) == totalOvers
    {
      ghost var pool := bowlingTeam.bowlers;
      ghost var board0 := umpire.Counters();
      var ballCount := 1;
      var over: nat := 0;
      var bowler := bowlingTeam.ChooseBowler(rng);
      var batsman := battingTeam.SendingNextPlayer();
      ghost var balls: nat := 0;
      ghost var cur := Start(old(battingTeam.battingOrder), pool, rng.draws, old(rng.cursor), board0);
      ghost var final := Play(umpire.field, pool, rng.draws, totalOvers, cur);
      StartAtHead(old(battingTeam.battingOrder), pool, rng.draws, old(rng.cursor), board0, totalOvers);

      while over < totalOvers
        invariant bowlingTeam.bowlers == pool
        invariant cur == State(ballCount, over, batsman, bowler, battingTeam.battingOrder, umpire.Counters(), rng.cursor, balls)
        invariant AtHead(cur, totalOvers)
        invariant umpire.overs == board0.overs + over
        invariant Play(umpire.field, pool, rng.draws, totalOvers, cur) == final
        decreases totalOvers - over, 6 - ballCount
      {
        PlayStep(umpire.field, pool, rng.draws, totalOvers, cur);
        var allOut;
        allOut, ballCount, over, batsman, bowler := Bowl(battingTeam, bowlingTeam, ballCount, over, batsman.value, bowler, cur);
        balls := balls + 1;
        cur := Ball(umpire.field, pool, rng.draws, cur);
        if allOut {
          break;
        }
      }
      assert cur == final;
      InningsBounds(umpire.field, old(battingTeam.battingOrder), pool, rng.draws, totalOvers, old(rng.cursor), board0);
    }

    /**
     * One pass of the body of the `play_innings` loop: the ball's outcome is
     * applied to the batting order and the counters, then the over boundary
     * is handled. `allOut` is the `break` taken when a dismissal finds the
     * batting order empty; the new loop variables are those of `Ball`.
     */
    method Bowl(battingTeam: Teams.Team, bowlingTeam: Teams.Team, ballCount: int, over: nat,
                batsman: Player, bowler: Player, ghost s: State)
      returns (allOut: bool, ballCount': int, over': nat, batsman': Option<Player>, bowler': Player)
      requires bowlingTeam.bowlers != []
      requires s == State(ballCount, over, Some(batsman), bowler, battingTeam.battingOrder, umpire.Counters(), rng.cursor, s.balls)
      modifies battingTeam`battingOrder, umpire`scores, umpire`wickets, umpire`overs, rng`cursor
      ensures var t := Ball(umpire.field, bowlingTeam.bowlers, rng.draws, s);
        && allOut == t.batsman.None?
        && t == State(ballCount', over', batsman', bowler', battingTeam.battingOrder, umpire.Counters(), rng.cursor, s.balls + 1)
    {
      ballCount', over', bowler' := ballCount, over, bowler;
      allOut := false;
      var outcome := PredictOutcome(umpire.field, batsman, bowler);
      var description := Commentary.BallDescription(batsman, outcome);
      Commentary.EndsWithOutIffDismissed(batsman, outcome);
      if Commentary.EndsWith(description, "OUT!") {
        batsman' := battingTeam.SendingNextPlayer();
        if batsman'.None? {
          allOut := true;
          return;
        }
        umpire.UpdateWickets();
      } else {
        batsman' := Some(batsman);
        var runs := rng.RandInt(0, 6);
        umpire.UpdateScore(runs);
      }
      assert Deliver(umpire.field, rng.draws, s)
          == State(ballCount, over, batsman', bowler, battingTeam.battingOrder, umpire.Counters(), rng.cursor, s.balls);
      if ballCount' > 5 {
        over' := over' + 1;
        umpire.UpdateOvers();
        bowler' := bowlingTeam.ChooseBowler(rng);
        ballCount' := 0;
      }
      ballCount' := ballCount' + 1;
    }

    /**
     * `start_match`: both batting orders and bowler pools become copies of
     * the full rosters, the first team bats, its score is captured, the
     * counters are zeroed, the second team bats, and the verdict is decided.
     */
    method StartMatch() returns (score1: int, score2: int, verdict: Verdict)
      requires team1 != team2
      requires team1.players != [] && team2.players != []
      modifies team1`battingOrder, team1`bowlers, team2`battingOrder, team2`bowlers
      modifies umpire`scores, umpire`wickets, umpire`overs, rng`cursor
      ensures team1.bowlers == team1.players && team2.bowlers == team2.players
      ensures var m := PlayMatch(umpire.field, team1.players, team2.players, rng.draws, totalOvers,
                                 old(rng.cursor), old(umpire.Counters()));
        && score1 == m.score1 && score2 == m.score2 && verdict == m.verdict
        && team1.battingOrder == m.first.order && team2.battingOrder == m.second.order
        && umpire.Counters() == m.second.board && rng.cursor == m.second.cursor
      ensures verdict.margin >= 0 && (verdict.winner == First <==> score1 > score2)
    {
      team1.battingOrder := team1.players;
      team2.battingOrder := team2.players;
      team1.bowlers := team1.players;
      team2.bowlers := team2.players;

      PlayInnings(team1, team2);
      score1 := umpire.scores;

      umpire.scores := 0;
      umpire.wickets := 0;
      umpire.overs := 0;
      PlayInnings(team2, team1);
      score2 := umpire.scores;

      verdict := Decide(score1, score2);
    }
  }
}
