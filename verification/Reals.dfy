/** The lesser and the greater of two reals. */
module Reals {
  function Min(x: real, y: real): real { if y < x then y else x }

  function Max(x: real, y: real): real { if x < y then y else x }
}
