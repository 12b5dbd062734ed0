/** The Option type and the 32-bit bounds shared by the modules of the model. */
module Common {

  datatype Option<T> = None | Some(value: T)

  /** The largest value of a 32-bit signed `int` (INT_MAX). */
  const IntMax: int := 0x7fff_ffff

  /** The smallest value of a 32-bit signed `int` (INT_MIN). */
  const IntMin: int := -0x8000_0000
}
