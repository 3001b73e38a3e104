/** Shared vocabulary: optional values, results, Go-style errors and fixed-width integers. */
module Common {

  datatype Option<+T> = None | Some(value: T)

  datatype Result<+T, +E> = Success(value: T) | Failure(error: E)

  /** An error as the runtime and the library produce them. `Wrapped` is what
      `fmt.Errorf("context: %w", cause)` builds: the cause stays reachable. */
  datatype Error =
    | NotFound                               // errdefs.ErrNotFound
    | Canceled                               // context.Canceled
    | Message(text: string)                  // errors.New(text), or any opaque runtime error
    | Wrapped(context: string, cause: Error)

  /** errdefs.IsNotFound: true when NotFound is anywhere on the wrap chain. */
  predicate IsNotFound(e: Error)
  {
    match e
    case NotFound => true
    case Wrapped(_, cause) => IsNotFound(cause)
    case _ => false
  }

  const Int64Min: int := -0x8000_0000_0000_0000
  const Int64Limit: int := 0x8000_0000_0000_0000
  const UInt32Limit: int := 0x1_0000_0000

  type Int64 = x: int | -0x8000_0000_0000_0000 <= x < 0x8000_0000_0000_0000
  type UInt32 = x: int | 0 <= x < 0x1_0000_0000

  /** Two's-complement wrap-around of Go's int64 arithmetic. */
  function WrapInt64(x: int): (r: Int64)
    ensures Int64Min <= x < Int64Limit ==> r == x
    ensures (r - x) % (2 * Int64Limit) == 0
  {
    (x - Int64Min) % (2 * Int64Limit) + Int64Min
  }

  /** Go's conversion uint32(v) of an int64: keeps the low 32 bits. */
  function LowBits32(v: Int64): (r: UInt32)
    ensures 0 <= v < UInt32Limit ==> r == v
    ensures (r - v) % UInt32Limit == 0
  {
    v % UInt32Limit
  }

  /** A point in time, as nanoseconds on an abstract clock. */
  type Time = int

  /** An opaque New Relic application handle; it is only carried along. */
  type AppHandle = nat
}
