/** The scaling and the deterministic draws that both generators share. */
module Sampling {

  /** Python's round: to the nearest integer, halves to the even one. */
  function Round(x: real): (r: int)
    ensures x - 0.5 <= r as real <= x + 0.5
  {
    var f := x.Floor;
    var rest := x - f as real;
    if rest < 0.5 || (rest == 0.5 && f % 2 == 0) then f else f + 1
  }

  function Max(a: int, b: int): int {
    if a < b then b else a
  }

  function Min(a: int, b: int): int {
    if a < b then a else b
  }

  function Scaled(base: nat, scale: real, minimum: int): (n: int)
    requires scale > 0.0
    ensures n >= minimum
    ensures n as real >= base as real * scale - 0.5
    ensures n == minimum || n as real <= base as real * scale + 0.5
  {
    Max(minimum, Round(base as real * scale))
  }

  /**
   * The hash behind det_uniform and the real power function, both arbitrary; hash gives the value
   * of hashint8 after the mask.
   */
  datatype World = World(hash: int -> int, power: (real, real) -> real)

  ghost predicate ValidWorld(w: World) {
    && (forall n :: 0 <= w.hash(n) < 0x8000_0000)
    && (forall u: real, e: real :: 0.0 <= u < 1.0 && e > 0.0 ==> 0.0 <= w.power(u, e) < 1.0)
  }

  function DetUniform(w: World, seed: int, stream: int): real {
    w.hash(seed * 1000003 + stream * 7919) as real / 2147483648.0
  }

  lemma UniformInUnit(w: World, seed: int, stream: int)
    requires ValidWorld(w)
    ensures 0.0 <= DetUniform(w, seed, stream) < 1.0
  {
    var h := w.hash(seed * 1000003 + stream * 7919);
    assert 0 <= h < 0x8000_0000;
  }

  /** floor(u * n), the index drawn by a value of the unit interval. */
  function Draw(u: real, n: int): int {
    (u * n as real).Floor
  }

  lemma DrawInRange(u: real, n: int)
    requires 0.0 <= u < 1.0 && n >= 1
    ensures 0 <= Draw(u, n) < n
  {
    var x := n as real;
    assert 0.0 <= u * x < x;
  }
}
