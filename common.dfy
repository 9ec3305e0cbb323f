/** Types shared by both lock tools: optional values, bytes, 32-bit unsigned
    integers and the way a run of the process ends. */
module Common {

  datatype Option<+T> = None | Some(value: T)

  /** A byte of host or device memory. */
  type Byte = x: int | 0 <= x < 256

  const U32_MAX: int := 0xFFFF_FFFF

  /** `unsigned int` / `uint32_t` of the source. */
  type U32 = x: int | 0 <= x <= U32_MAX

  /** How a run of either tool ends: it returns an exit code, it parks
      forever holding device memory (the sleep loop is a terminal state), or
      an uncaught `std::bad_alloc` terminates it without an exit code of its
      own. */
  datatype Outcome = Exited(code: int) | Parked | Aborted
}
