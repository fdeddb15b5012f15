/** Math.abs, Math.min and Math.max on real numbers. */
module Reals {

  function Abs(x: real): real { if x < 0.0 then -x else x }
  function MinReal(a: real, b: real): real { if a <= b then a else b }
  function MaxReal(a: real, b: real): real { if a >= b then a else b }

}
