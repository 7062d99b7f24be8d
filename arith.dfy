/** The integer helpers of Go's `math.Min`/`math.Max` calls, on exact integers. */
module IntOps {

  function Min(a: int, b: int): int
  {
    if a <= b then a else b
  }

  function Max(a: int, b: int): int
  {
    if a <= b then b else a
  }
}
