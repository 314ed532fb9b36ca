/** API/wfb_types.h: error codes, and floats as they arrive from the link. */
module WfbTypes {
  datatype Err = None | BadState | Range | Count | Crc | Time | Bounds | Endpoint | Speed

  /** A received float. */
  datatype Num = Value(v: real) | Infinite(positive: bool) | Nan

  /** Comparisons with a finite number; NaN fails each of them. */
  predicate AtMost(n: Num, x: real) { if n.Value? then n.v <= x else n.Infinite? && !n.positive }

  predicate AtLeast(n: Num, x: real) { if n.Value? then n.v >= x else n.Infinite? && n.positive }

  predicate Below(n: Num, x: real) { if n.Value? then n.v < x else n.Infinite? && !n.positive }

  /** A path lasting until top is over at t; NaN ends it too. */
  predicate Ended(t: Num, top: real) { t.Nan? || AtLeast(t, top) }

  /** floorf(v) == v for a finite v. */
  predicate IsInt(n: Num) { n.Value? && n.v.Floor as real == n.v }

  datatype Lifecycle = Empty | Loading | Ready | Executing | Done
}
