/** The 4x4 matrix Mat4 of include/Math/Matrix.h, only as far as the camera and
    the object need it: a value with sixteen entries read by (row, column).
    The storage order (the `major` flag) is not modelled: Entry names the
    element at (row, column) whatever the layout. */
module Matrices {

  type Mat4 = m: seq<real> | |m| == 16 witness seq(16, _ => 0.0)

  /** operator()(row, col) */
  function Entry(m: Mat4, row: nat, col: nat): real
    requires row < 4 && col < 4
  {
    m[4 * row + col]
  }

  /** Mat4::identity(): ones on the diagonal, zeros elsewhere. */
  function Identity(): (m: Mat4)
    ensures forall row, col :: 0 <= row < 4 && 0 <= col < 4 ==>
      Entry(m, row, col) == if row == col then 1.0 else 0.0
  {
    seq(16, k => if k % 5 == 0 then 1.0 else 0.0)
  }
}
