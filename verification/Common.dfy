/** Values that several components share. */
module Common {
  datatype Option<+T> = None | Some(value: T)

  /** PStatus. */
  datatype Status = OK | NotFound | NotSupported | Enforced | Failed

  // the configurations of the rate limiter
  const INIT := 1
  const RATE := 2
  const REFILL := 4

  const TWO_64: nat := 0x1_0000_0000_0000_0000

  /** Unsigned 64-bit values. */
  type Word = n: nat | n < TWO_64
}
