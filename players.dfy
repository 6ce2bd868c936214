/**
 * The static records of the simulation: a player and the field.
 * Only the attributes the simulation engine reads are kept; skills and
 * pitch conditions are exact reals (no IEEE rounding).
 */
module Players {
  /** A player (Main.py:5-24): a display name and the two skills the predictor reads. */
  datatype Player = Player(name: string, bowling: real, batting: real)

  /** The field (Main.py:72-86): only the pitch conditions feed the predictor. */
  datatype Field = Field(pitchConditions: real)
}
