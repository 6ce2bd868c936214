/**
 * The injected random source that replaces Python's global `random` module.
 * A source is an arbitrary stream of natural numbers `draws` read through a
 * cursor; every draw consumes one element. Since `draws` is arbitrary, every
 * sequence of outcomes the real generator could produce is some stream.
 */
module RandomSource {

  /** The value `random.randint(lo, hi)` yields when the stream stands at `cursor`. */
  function RandIntAt(draws: nat -> nat, cursor: nat, lo: int, hi: int): (r: int)
    requires lo <= hi
    ensures lo <= r <= hi
  {
    lo + draws(cursor) % (hi - lo + 1)
  }

  /** The element `random.choice(pool)` yields when the stream stands at `cursor`. */
  function ChoiceAt<T>(draws: nat -> nat, cursor: nat, pool: seq<T>): (x: T)
    requires pool != []
    ensures x in pool
  {
    pool[draws(cursor) % |pool|]
  }

  /** Every value of the range can be drawn: the stream does not restrict outcomes. */
  lemma RandIntReachesEveryValue(cursor: nat, lo: int, hi: int, v: int)
    requires lo <= v <= hi
    ensures RandIntAt((_: nat) => (v - lo) as nat, cursor, lo, hi) == v
  {
  }

  /** Every element of the pool can be chosen. */
  lemma ChoiceReachesEveryIndex<T>(cursor: nat, pool: seq<T>, i: nat)
    requires i < |pool|
    ensures ChoiceAt((_: nat) => i, cursor, pool) == pool[i]
  {
  }

  class Random {
    const draws: nat -> nat
    var cursor: nat

    constructor (draws: nat -> nat)
      ensures this.draws == draws && cursor == 0
    {
      this.draws := draws;
      cursor := 0;
    }

    /** `random.randint(lo, hi)`: a value of the closed range; Python raises when lo > hi. */
    method RandInt(lo: int, hi: int) returns (r: int)
      requires lo <= hi
      modifies this`cursor
      ensures lo <= r <= hi
      ensures r == RandIntAt(draws, old(cursor), lo, hi)
      ensures cursor == old(cursor) + 1
    {
      r := lo + draws(cursor) % (hi - lo + 1);
      cursor := cursor + 1;
    }

    /** `random.choice(pool)`: an element of the pool; Python raises on an empty pool. */
    method Choice<T>(pool: seq<T>) returns (x: T)
      requires pool != []
      modifies this`cursor
      ensures x in pool
      ensures x == ChoiceAt(draws, old(cursor), pool)
      ensures cursor == old(cursor) + 1
    {
      x := pool[draws(cursor) % |pool|];
      cursor := cursor + 1;
    }
  }
}
