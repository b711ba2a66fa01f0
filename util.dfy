/**
  Vocabulary shared by the buffer and the plans: the transform direction and
  planning flags of the engine, the integer conversions the planners apply to
  extents, and the `std::invalid_argument` errors the plan factories throw.
 */
module Util {

  /** `size_t` on the 64-bit targets the library is built for. */
  const SIZE_LIMIT: int := 0x1_0000_0000_0000_0000
  type SizeT = x: nat | x < SIZE_LIMIT

  /** Range of the engine's `int` parameters. */
  const INT_MIN: int := -0x8000_0000
  const INT_MAX: int := 0x7fff_ffff
  const INT_MODULUS: int := 0x1_0000_0000

  /** The engine's sign convention. */
  const FFTW_FORWARD: int := -1
  const FFTW_BACKWARD: int := 1

  /**
    A value of the `Direction` enumeration. The enumeration is backed by an
    integer, so a caller can cast any integer into it; `OutOfRange` carries
    such a value.
   */
  datatype Direction = Forward | Backward | OutOfRange(code: int)

  /** The integer that represents a direction. */
  function DirectionCode(d: Direction): int {
    match d
    case Forward => FFTW_FORWARD
    case Backward => FFTW_BACKWARD
    case OutOfRange(c) => c
  }

  /** The check of `dft`: the value equals one of the two enumerators. */
  predicate IsValidDirection(d: Direction) {
    DirectionCode(d) == FFTW_FORWARD || DirectionCode(d) == FFTW_BACKWARD
  }

  /** Planning effort, passed to the engine unchanged. */
  datatype Flags = Estimate | Measure | Patient

  /**
    The engine's bit for each flag (FFTW_ESTIMATE, FFTW_MEASURE, FFTW_PATIENT);
    `Flags` is an unscoped enumeration, so this is what reaches the planners.
   */
  function FlagsCode(f: Flags): nat {
    match f
    case Estimate => 64
    case Measure => 0
    case Patient => 32
  }

  /** A complex element: two doubles, modelled as reals. */
  datatype Complex = Complex(re: real, im: real)

  datatype Option<+T> = None | Some(value: T)

  /** The message of the `std::invalid_argument` that a check throws. */
  datatype Error = MismatchedBufferSizes | InvalidDirection | ExtentsDontMatch

  /** Either the value a call returns or the exception it throws. */
  datatype Result<+T> = Ok(value: T) | Err(error: Error) {
    predicate IsFailure() {
      Err?
    }

    function PropagateFailure<U>(): Result<U>
      requires Err?
    {
      Err(error)
    }

    function Extract(): T
      requires Ok?
    {
      value
    }
  }

  /**
    The conversion `int(x)` of a `size_t` to a 32-bit `int`: the value of the
    same residue modulo 2^32 that lies in the `int` range (C++20 semantics).
   */
  function IntOfSize(x: nat): (r: int)
    ensures INT_MIN <= r <= INT_MAX
    ensures (x - r) % INT_MODULUS == 0
    ensures x <= INT_MAX ==> r == x
  {
    var m := x % INT_MODULUS;
    if m <= INT_MAX then m else m - INT_MODULUS
  }

  /** The C++ quotient `a / 2` on `int`, which truncates toward zero. */
  function HalfTowardZero(a: int): (q: int)
    ensures a >= 0 ==> 0 <= a - 2 * q <= 1
    ensures a < 0 ==> -1 <= a - 2 * q <= 0
  {
    if a >= 0 then a / 2 else -((-a) / 2)
  }
}
