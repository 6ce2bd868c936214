/**
 * The umpire (Main.py:89-138): the scoreboard counters for the batting
 * side and the per-ball outcome predictor.
 */
module Umpires {
  import opened Players

  /** The two strings `predict_outcome` returns: "OUT" and "NOT OUT". */
  datatype Outcome = Out | NotOut

  /**
   * `predict_outcome`: the batter survives exactly when the batting skill
   * scaled by the pitch strictly exceeds the bowling skill scaled by the
   * pitch. It reads only the umpire's field, so it is a function of it.
   */
  function PredictOutcome(field: Field, batsman: Player, bowler: Player): (o: Outcome)
    ensures field.pitchConditions > 0.0 ==> (o == NotOut <==> batsman.batting > bowler.bowling)
    ensures field.pitchConditions == 0.0 ==> o == Out
    ensures field.pitchConditions < 0.0 ==> (o == NotOut <==> batsman.batting < bowler.bowling)
  {
    ScaledOrder(field.pitchConditions, batsman.batting, bowler.bowling);
    if batsman.batting * field.pitchConditions > bowler.bowling * field.pitchConditions then NotOut else Out
  }

  /** Scaling by a positive factor keeps a strict order, by a negative one reverses it. */
  lemma ScaledOrder(p: real, x: real, y: real)
    ensures p > 0.0 ==> (x * p > y * p <==> x > y)
    ensures p < 0.0 ==> (x * p > y * p <==> x < y)
  {
  }

  /** Equal skills are a dismissal whatever the pitch: the tie favours the bowler. */
  lemma TieIsOut(field: Field, batsman: Player, bowler: Player)
    requires batsman.batting == bowler.bowling
    ensures PredictOutcome(field, batsman, bowler) == Out
  {
  }

  /**
   * On a pitch with non-negative conditions a better batter never fares
   * worse: raising the batting skill cannot turn NOT OUT into OUT.
   */
  lemma MonotoneInBatting(field: Field, batsman: Player, better: Player, bowler: Player)
    requires field.pitchConditions >= 0.0
    requires batsman.batting <= better.batting
    requires PredictOutcome(field, batsman, bowler) == NotOut
    ensures PredictOutcome(field, better, bowler) == NotOut
  {
    ScaledOrder(field.pitchConditions, batsman.batting, bowler.bowling);
    ScaledOrder(field.pitchConditions, better.batting, bowler.bowling);
  }

  /** The three counters as a value. */
  datatype Board = Board(scores: int, wickets: int, overs: int)

  class Umpire {
    const field: Field
    var scores: int
    var wickets: int
    var overs: int

    /** `Umpire.__init__`: all three counters start at zero. */
    constructor (field: Field)
      ensures this.field == field
      ensures scores == 0 && wickets == 0 && overs == 0
    {
      this.field := field;
      scores, wickets, overs := 0, 0, 0;
    }

    /** The counters as a Board value. */
    function Counters(): Board
      reads this
    {
      Board(scores, wickets, overs)
    }

    /** `update_score`: adds the runs; wickets and overs are untouched. */
    method UpdateScore(runs: int)
      modifies this`scores
      ensures scores == old(scores) + runs
      ensures wickets == old(wickets) && overs == old(overs)
    {
      scores := scores + runs;
    }

    /** `update_wickets`: one more wicket; scores and overs are untouched. */
    method UpdateWickets()
      modifies this`wickets
      ensures wickets == old(wickets) + 1
      ensures scores == old(scores) && overs == old(overs)
    {
      wickets := wickets + 1;
    }

    /** `update_overs`: one more over; scores and wickets are untouched. */
    method UpdateOvers()
      modifies this`overs
      ensures overs == old(overs) + 1
      ensures scores == old(scores) && wickets == old(wickets)
    {
      overs := overs + 1;
    }
  }
}
