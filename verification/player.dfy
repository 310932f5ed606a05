/** A player of BugHunter: a name fixed at creation and a score that only
    `AddScore` changes. Kotlin's `Int` is 32 bits wide and its `+` wraps
    around, so the score is an `Int32` and addition is `WrappingAdd`. */
module Players {

  /** Kotlin's `Int`: a 32-bit two's-complement integer. */
  newtype Int32 = x: int | -0x8000_0000 <= x < 0x8000_0000

  /** Whether the mathematical sum `a + b` fits in an `Int32`. */
  predicate SumFits(a: Int32, b: Int32) {
    -0x8000_0000 <= a as int + b as int < 0x8000_0000
  }

  /** Kotlin's `+` on `Int`: the one 32-bit value congruent to the
      mathematical sum modulo 2^32, which is the sum itself when it fits. */
  function WrappingAdd(a: Int32, b: Int32): (r: Int32)
    ensures (r as int - (a as int + b as int)) % 0x1_0000_0000 == 0
    ensures SumFits(a, b) ==> r as int == a as int + b as int
  {
    var sum := a as int + b as int;
    if sum < -0x8000_0000 then (sum + 0x1_0000_0000) as Int32
    else if sum < 0x8000_0000 then sum as Int32
    else (sum - 0x1_0000_0000) as Int32
  }

  class Player {
    const name: string
    var score: Int32

    /** `Player(name)`: every player starts with score 0. */
    constructor (name: string)
      ensures this.name == name && score == 0
    {
      this.name := name;
      score := 0;
    }

    /** `score += points`: the score moves by exactly `points` (which may be
        negative), wrapped to 32 bits. */
    method AddScore(points: Int32)
      modifies this
      ensures score == WrappingAdd(old(score), points)
      ensures SumFits(old(score), points) ==> score as int == old(score) as int + points as int
    {
      score := WrappingAdd(score, points);
    }
  }
}
