/** The numbers that hashed records carry: finite doubles, every one of them a ratio of integers. */
module Numbers {
  function Ratio(p: int, q: int): real
    requires q > 0
  {
    p as real / q as real
  }

  ghost predicate Rational(x: real) { exists p: int, q: int :: q > 0 && Ratio(p, q) == x }

  type Number = x: real | Rational(x) witness Ratio(0, 1)
}
