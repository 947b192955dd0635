module FiberIds {

  /** Fiber ids come from a counter; the largest 64-bit value is reserved for "no owner". */
  type FiberId = n: nat | n < 0xFFFF_FFFF_FFFF_FFFF
}
