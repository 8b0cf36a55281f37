/** The C library's pseudo-random generator, as the programs use it. The
    generator itself is not modelled: every operation that calls `rand()`
    takes the sequence of values those calls return and the position of its
    first call in that sequence, and gives back the position after its last
    call. */
module Draws {

  /** The value of the k-th call of `rand()`, for k = 0, 1, 2, ... */
  type Stream = nat -> nat

  /** RAND_MAX of the GNU C library. */
  const RandMax: nat := 2147483647
}
