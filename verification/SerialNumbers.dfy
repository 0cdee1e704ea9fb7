/** Sixteen-bit sequence numbers on their circle. */
module SerialNumbers {
  const SPACE := 0x1_0000
  const HALF := 0x8000

  /** Distance from `b` forward to `a`. */
  function Distance(a: int, b: int): nat { (a - b) % SPACE }

  /** The same distance read as a signed 16-bit number. */
  function Signed(a: int, b: int): int {
    if Distance(a, b) < HALF then Distance(a, b) else Distance(a, b) - SPACE
  }
}
