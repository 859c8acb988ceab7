/** Small value types shared by the two viewers. */
module Common {

  datatype Option<+T> = None | Some(value: T)

  /** A point or an offset in CSS pixels: the `{ x, y }` records of both viewers. */
  datatype Vec = Vec(x: real, y: real)

  const Origin := Vec(0.0, 0.0)

  function Abs(r: real): (a: real)
    ensures a >= 0.0 && (a == r || a == -r)
  {
    if r < 0.0 then -r else r
  }

  /** `Math.max(lo, Math.min(hi, v))`, the clamp both viewers apply to a new zoom. */
  function Clamp(v: real, lo: real, hi: real): (r: real)
    ensures lo <= hi ==> lo <= r <= hi
    ensures lo <= v <= hi ==> r == v
    ensures lo <= hi ==> (r == v || (v < lo && r == lo) || (v > hi && r == hi))
  {
    var below := if v < hi then v else hi;
    if lo > below then lo else below
  }
}
