// The two-valued tile state. The source stores it as a byte and gives the
// door states and the treasure states the same codes.

module CommonStates {

  newtype u8 = x: int | 0 <= x < 256

  datatype CommonState = CommonState(code: u8)

  const UNLOCKED: CommonState := CommonState(1)
  const COLLECTED: CommonState := CommonState(1)
  const LOCKED: CommonState := CommonState(2)
  const UNCOLLECTED: CommonState := CommonState(2)

  /** The state's numeric identifier: 1 for UNLOCKED/COLLECTED, 2 for LOCKED/UNCOLLECTED. */
  function ToId(s: CommonState): (id: nat)
    ensures id < 256
    ensures id == 1 <==> s == UNLOCKED
    ensures id == 2 <==> s == LOCKED
  {
    s.code as nat
  }

  /** Distinct states have distinct ids. */
  lemma ToIdInjective(s: CommonState, t: CommonState)
    requires ToId(s) == ToId(t)
    ensures s == t
  {
  }

  /** The overlapping encoding: a door's UNLOCKED is a treasure's COLLECTED, and so on. */
  lemma StateCodes()
    ensures UNLOCKED == COLLECTED && LOCKED == UNCOLLECTED
    ensures UNLOCKED != LOCKED
    ensures ToId(UNLOCKED) == 1 && ToId(COLLECTED) == 1
    ensures ToId(LOCKED) == 2 && ToId(UNCOLLECTED) == 2
  {
  }
}
