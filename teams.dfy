/**
 * A team (Main.py:27-69): its fixed roster, the batting order it sends
 * batters from, and the pool its bowlers are drawn from.
 */
module Teams {
  import opened Wrappers
  import opened Players
  import RandomSource

  /**
   * One `sending_next_player` on a batting order, as a value: the batter
   * sent (None when the order is exhausted) and the order left behind.
   */
  function Dispatch(order: seq<Player>): (r: (Option<Player>, seq<Player>))
    ensures order == [] <==> r.0 == None
    ensures order == [] ==> r.1 == order
    ensures r.0.Some? ==> r.0.value == order[0] && r.1 == order[1..]
  {
    if |order| > 0 then (Some(order[0]), order[1..]) else (None, order)
  }

  /** `k` successive dispatches: the batters sent, in the order sent, and the order left. */
  function Deal(order: seq<Player>, k: nat): (r: (seq<Player>, seq<Player>))
    ensures r.0 + r.1 == order
    decreases k
  {
    if k == 0 then ([], order)
    else
      var (next, rest) := Dispatch(order);
      var (sent, left) := Deal(rest, k - 1);
      if next.Some? then ([next.value] + sent, left) else (sent, left)
  }

  /**
   * Successive calls hand out batters in roster order: after `k` calls the
   * first `min(k, |order|)` batters have been sent, and exactly the
   * remaining suffix is left.
   */
  lemma {:induction false} DealInRosterOrder(order: seq<Player>, k: nat)
    ensures var n := if k < |order| then k else |order|;
            Deal(order, k) == (order[..n], order[n..])
  {
    if k > 0 {
      DealInRosterOrder(Dispatch(order).1, k - 1);
      if order != [] {
        var n := if k < |order| then k else |order|;
        assert order[..n] == [order[0]] + order[1..][..n - 1];
        assert order[n..] == order[1..][n - 1..];
      }
    }
  }

  class Team {
    const name: string
    const players: seq<Player>
    var battingOrder: seq<Player>
    var bowlers: seq<Player>

    /** `Team.__init__`: the batting order starts as a copy of the roster, the bowler pool empty. */
    constructor (name: string, players: seq<Player>)
      ensures this.name == name && this.players == players
      ensures battingOrder == players && bowlers == []
    {
      this.name := name;
      this.players := players;
      battingOrder := players;
      bowlers := [];
    }

    /**
     * `sending_next_player`: pops the front of the batting order, or
     * returns None and leaves the order alone when it is empty.
     */
    method SendingNextPlayer() returns (p: Option<Player>)
      modifies this`battingOrder
      ensures (p, battingOrder) == Dispatch(old(battingOrder))
      ensures old(battingOrder) != [] ==> p == Some(old(battingOrder)[0]) && battingOrder == old(battingOrder)[1..]
      ensures old(battingOrder) == [] ==> p == None && battingOrder == []
    {
      if |battingOrder| > 0 {
        p := Some(battingOrder[0]);
        battingOrder := battingOrder[1..];
        return;
      }
      p := None;
    }

    /** `choose_bowler`: a uniform draw from the bowler pool (Python raises on an empty pool). */
    method ChooseBowler(rng: RandomSource.Random) returns (b: Player)
      requires bowlers != []
      modifies rng`cursor
      ensures b in bowlers
      ensures b == RandomSource.ChoiceAt(rng.draws, old(rng.cursor), bowlers)
      ensures rng.cursor == old(rng.cursor) + 1
    {
      b := rng.Choice(bowlers);
    }
  }
}
