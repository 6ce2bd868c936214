/**
 * The one piece of the commentator the innings depends on: the ball
 * description (Main.py:162-169), whose ending "OUT!" is what the innings
 * tests to detect a dismissal (Main.py:303).
 */
module Commentary {
  import opened Players
  import opened Umpires

  /** The text `describe_ball` builds for an outcome. */
  function BallDescription(batsman: Player, outcome: Outcome): (d: string)
    ensures |d| > |batsman.name| && d[..|batsman.name|] == batsman.name
  {
    if outcome == Out then batsman.name + " is OUT!" else batsman.name + " plays the shot."
  }

  predicate EndsWith(s: string, suffix: string)
  {
    |suffix| <= |s| && s[|s| - |suffix|..] == suffix
  }

  /**
   * Whatever the batter is called, the description ends with "OUT!" exactly
   * when the outcome is a dismissal, so the innings may branch on the outcome.
   */
  lemma {:induction false} EndsWithOutIffDismissed(batsman: Player, outcome: Outcome)
    ensures EndsWith(BallDescription(batsman, outcome), "OUT!") <==> outcome == Out
  {
    var s := BallDescription(batsman, outcome);
    if outcome == Out {
      assert s[|s| - 4..] == " is OUT!"[4..];
    } else {
      assert s[|s| - 1] == '.';
    }
  }
}
