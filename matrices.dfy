/** Dense matrices of exact scalars, reduced to what the dense output looks at:
    the shape, and the entries of a column. */
module Matrices {

  datatype RawMatrix = RawMatrix(rows: nat, cols: nat, data: seq<real>)

  /** A matrix always holds exactly rows * cols entries. */
  type Matrix = m: RawMatrix | |m.data| == m.rows * m.cols witness RawMatrix(0, 0, [])

  /** `m` is a single-column matrix with `d` rows. */
  predicate IsColumnOf(m: Matrix, d: nat)
  {
    m.cols == 1 && m.rows == d
  }

  /** The column vector whose entries are `entries`. */
  function Column(entries: seq<real>): (m: Matrix)
    ensures IsColumnOf(m, |entries|) && m.data == entries
  {
    RawMatrix(|entries|, 1, entries)
  }
}
