/**
  Values that the game manager and the board pass around but whose classes
  (PlayerName, Difficulty, Configuration, Bin, GameConstants) are not part of
  this model. Each is given the smallest shape the manager and the board need.
 */
module Teddy {

  /** The two players of a game. */
  datatype PlayerName = Player1 | Player2

  /** The opponent of a player. */
  function Other(p: PlayerName): (q: PlayerName)
    ensures q != p
  {
    if p == Player1 then Player2 else Player1
  }

  /** The two difficulty values the game manager assigns. */
  datatype Difficulty = Easy | Hard

  /** A board configuration: the number of teddy bears left in each bin, in bin order. */
  type Configuration = seq<nat>

  /**
    A configuration is empty when no bin holds a bear. The Configuration class
    is not part of this model; this reading of its Empty property is an assumption.
   */
  predicate Empty(c: Configuration)
  {
    forall i :: 0 <= i < |c| ==> c[i] == 0
  }

  /** Total number of bears on the board. */
  function Sum(c: Configuration): nat
  {
    if |c| == 0 then 0 else c[0] + Sum(c[1..])
  }

  /** A configuration is empty exactly when it holds no bears at all. */
  lemma {:induction false} EmptyIffNoBears(c: Configuration)
    ensures Empty(c) <==> Sum(c) == 0
  {
    if |c| > 0 {
      EmptyIffNoBears(c[1..]);
      assert Empty(c) <==> c[0] == 0 && Empty(c[1..]) by {
        if c[0] == 0 && Empty(c[1..]) {
          forall i | 0 <= i < |c| ensures c[i] == 0 {
            if i > 0 { assert c[i] == c[1..][i - 1]; }
          }
        }
      }
    }
  }

  /** A bin on the board; only its displayed bear count is modelled. */
  datatype Bin = Bin(count: int)

  /** The game constants the board draws its ranges from. */
  datatype Constants = Constants(minBins: int, maxBins: int, maxBearsPerBin: int)
  {
    /**
      The constants' values are not part of this model; the board is assumed
      to be configured with at least one bin and at least one bear per bin.
     */
    predicate Valid()
    {
      1 <= minBins <= maxBins && 1 <= maxBearsPerBin
    }
  }

  /**
    The outcome of an operation that can end in an index-out-of-range
    exception: either it returned normally with `value`, or the exception left
    the operation with `state` holding everything written before it was thrown.
   */
  datatype Result<T> = Ok(value: T) | OutOfRange(state: T)
  {
    /** The state after the operation, however it ended. */
    function After(): T
    {
      match this
      case Ok(v) => v
      case OutOfRange(s) => s
    }
  }
}
