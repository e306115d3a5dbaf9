/** Natural-number helpers shared by the retry policies and the backend. */
module Numbers {

  /** The smaller of two naturals, as `Math.min` and Python's `min` give it. */
  function Min(a: nat, b: nat): nat
  {
    if a <= b then a else b
  }
}
