/** What the two event stores have in common when they hand out pages. */
module Paging {

  const MAX_REPLAY_LIMIT: int := 1000

  function Min(a: int, b: int): int {
    if a <= b then a else b
  }

  /** Every request asks for a number of events that the stores accept. */
  ghost predicate ValidLimits(limits: nat -> int) {
    forall n :: 1 <= limits(n) <= MAX_REPLAY_LIMIT
  }
}
