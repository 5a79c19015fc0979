/** Division, greatest common divisors and modular permutations. */
module NumberTheory {

  // ---------------------------------------------------------------- products and quotients

  lemma MultiplyMonotone(a: int, b: int, d: int)
    requires d >= 0
    ensures a <= b ==> a * d <= b * d
  {
  }

  lemma MultipleBelow(m: int, d: int)
    requires d >= 1 && -d < m * d < d
    ensures m == 0
  {
    MultiplyMonotone(1, m, d);
    MultiplyMonotone(m, -1, d);
  }

  /** The quotient and remainder of Euclidean division are unique. */
  lemma DivisionIsUnique(n: int, d: int, q: int, r: int)
    requires d >= 1 && n == q * d + r && 0 <= r < d
    ensures n / d == q && n % d == r
  {
    var k := n / d;
    MultiplyMonotone(k + 1, q, d);
    MultiplyMonotone(q + 1, k, d);
  }

  /** Integer division keeps bounds. */
  lemma QuotientBounds(n: int, d: int, low: int, high: int)
    requires d >= 1 && low * d <= n < high * d
    ensures low <= n / d < high
  {
    assert n == (n / d) * d + n % d;
    MultiplyMonotone(n / d + 1, low, d);
    MultiplyMonotone(high, n / d, d);
  }

  lemma CeilingDivision(total: int, step: int, parts: nat)
    requires step >= 1 && total >= 0
    requires total <= parts * step && (parts == 0 || (parts - 1) * step < total)
    ensures parts == (total + step - 1) / step
  {
    assert (parts - 1) * step == parts * step - step;
    if parts == 0 {
      assert total == 0;
    }
    DivisionIsUnique(total + step - 1, step, parts, total + step - 1 - parts * step);
  }

  /** Equal remainders mean that the difference is a multiple. */
  lemma EqualRemainders(a: int, b: int, d: int)
    requires d >= 1 && a % d == b % d
    ensures a - b == (a / d - b / d) * d
  {
    assert a == (a / d) * d + a % d && b == (b / d) * d + b % d;
    assert (a / d - b / d) * d == (a / d) * d - (b / d) * d;
  }

  lemma ShiftedRemainder(a: int, q: int, d: int)
    requires d >= 1
    ensures (a + q * d) % d == a % d
  {
    assert a == (a / d) * d + a % d;
    assert (a / d + q) * d == (a / d) * d + q * d;
    DivisionIsUnique(a + q * d, d, a / d + q, a % d);
  }

  // ---------------------------------------------------------------- greatest common divisors

  function Gcd(a: nat, b: nat): nat
    decreases b
  {
    if b == 0 then a else Gcd(b, a % b)
  }

  predicate Coprime(a: nat, b: nat) {
    Gcd(a, b) == 1
  }

  lemma {:induction false} Bezout(a: nat, b: nat) returns (x: int, y: int)
    ensures a * x + b * y == Gcd(a, b)
    decreases b
  {
    if b == 0 {
      x, y := 1, 0;
    } else {
      var u, v := Bezout(b, a % b);
      x, y := v, u - (a / b) * v;
      BezoutStep(a, b, u, v);
    }
  }

  lemma BezoutStep(a: nat, b: nat, u: int, v: int)
    requires b > 0
    ensures b * u + (a % b) * v == a * v + b * (u - (a / b) * v)
  {
    var q := a / b;
    assert a % b == a - b * q;
    assert (a - b * q) * v == a * v - b * q * v;
    assert b * (u - q * v) == b * u - b * (q * v);
    assert b * q * v == b * (q * v);
  }

  lemma FactorStep(a: nat, b: nat, g: nat, q: int, r: int)
    requires b > 0 && b == q * g && a % b == r * g
    ensures a == ((a / b) * q + r) * g
  {
    var k := a / b;
    assert a == k * b + a % b;
    assert k * (q * g) == k * q * g;
    assert (k * q + r) * g == k * q * g + r * g;
  }

  lemma {:induction false} GcdDivides(a: nat, b: nat) returns (p: int, q: int)
    ensures a == p * Gcd(a, b) && b == q * Gcd(a, b)
    decreases b
  {
    if b == 0 {
      p, q := 1, 0;
    } else {
      var r: int;
      q, r := GcdDivides(b, a % b);
      p := (a / b) * q + r;
      FactorStep(a, b, Gcd(b, a % b), q, r);
    }
  }

  lemma UnitFactor(g: nat, k: int)
    requires g * k == 1
    ensures g == 1
  {
    MultiplyMonotone(1, k, g);
    MultiplyMonotone(k, 0, g);
    if g >= 2 && k >= 1 {
      MultiplyMonotone(2, g, k);
    }
  }

  lemma UnitCombination(g: nat, p: int, q: int, x: int, y: int)
    requires (p * g) * x + (q * g) * y == 1
    ensures g == 1
  {
    assert (p * g) * x == g * (p * x) && (q * g) * y == g * (q * y);
    assert g * (p * x + q * y) == g * (p * x) + g * (q * y);
    UnitFactor(g, p * x + q * y);
  }

  /** A combination of two numbers that equals one makes them coprime. */
  lemma CombinationIsCoprime(a: nat, b: nat, x: int, y: int)
    requires a * x + b * y == 1
    ensures Coprime(a, b) && Coprime(b, a)
  {
    var p, q := GcdDivides(a, b);
    UnitCombination(Gcd(a, b), p, q, x, y);
    var u, v := GcdDivides(b, a);
    UnitCombination(Gcd(b, a), u, v, y, x);
  }

  lemma CoprimeSymmetric(a: nat, b: nat)
    ensures Coprime(a, b) <==> Coprime(b, a)
  {
    var x, y := Bezout(a, b);
    if Coprime(a, b) {
      CombinationIsCoprime(a, b, x, y);
    }
    var u, v := Bezout(b, a);
    if Coprime(b, a) {
      CombinationIsCoprime(b, a, u, v);
    }
  }

  /** A factor coprime to the modulus can be cancelled from a multiple. */
  lemma CancelCoprime(stride: nat, size: nat, k: int, q: int) returns (m: int)
    requires size >= 1 && Coprime(stride, size)
    requires k * stride == q * size
    ensures k == m * size
  {
    var x, y := Bezout(stride, size);
    m := q * x + k * y;
    assert k * (stride * x + size * y) == k;
    assert k * (stride * x) == (k * stride) * x;
    assert k * (size * y) == (k * y) * size;
    assert (q * size) * x == (q * x) * size;
    assert (q * x + k * y) * size == (q * x) * size + (k * y) * size;
    assert k * (stride * x + size * y) == k * (stride * x) + k * (size * y);
  }

  // ---------------------------------------------------------------- choosing a stride

  /** Within any window of size consecutive numbers one leaves remainder 1 and is coprime. */
  lemma NextCoprime(size: nat, preferred: nat) returns (k: nat)
    requires size >= 1
    ensures preferred <= k < preferred + size && Coprime(size, k)
  {
    var q := (preferred + size - 2) / size;
    if size == 1 {
      k := preferred;
      CombinationIsCoprime(size, k, 1 - k, 1);
    } else {
      k := q * size + 1;
      assert preferred + size - 2 == q * size + (preferred + size - 2) % size;
      assert size * (-q) == -(q * size);
      CombinationIsCoprime(size, k, -q, 1);
    }
  }

  /** pagila/generator.py, coprime_step: the least number from preferred on coprime to size. */
  method CoprimeStep(size: nat, preferred: nat) returns (step: nat)
    requires size >= 1
    ensures preferred <= step < preferred + size && Coprime(size, step) && Coprime(step, size)
    ensures forall j :: preferred <= j < step ==> !Coprime(size, j)
  {
    var k := NextCoprime(size, preferred);
    step := preferred;
    while Gcd(size, step) != 1
      invariant preferred <= step <= k
      invariant forall j :: preferred <= j < step ==> !Coprime(size, j)
      decreases k - step
    {
      step := step + 1;
    }
    CoprimeSymmetric(size, step);
  }

  /** imdb/generator.py, coprime_stride: the same search with the arguments swapped. */
  method CoprimeStride(preferred: nat, cardinality: nat) returns (stride: nat)
    requires cardinality >= 1
    ensures preferred <= stride < preferred + cardinality && Coprime(stride, cardinality)
    ensures forall j :: preferred <= j < stride ==> !Coprime(j, cardinality)
  {
    var k := NextCoprime(cardinality, preferred);
    CoprimeSymmetric(cardinality, k);
    stride := preferred;
    while Gcd(stride, cardinality) != 1
      invariant preferred <= stride <= k
      invariant forall j :: preferred <= j < stride ==> !Coprime(j, cardinality)
      decreases k - stride
    {
      stride := stride + 1;
    }
  }

  // ---------------------------------------------------------------- modular permutations

  /** The key a row formula 1 + ((g * stride - 1) % size) refers to. */
  function Image(g: int, stride: nat, size: nat): (v: int)
    requires size >= 1
    ensures 1 <= v <= size
  {
    1 + (g * stride - 1) % size
  }

  /** Two keys with the same image differ by a multiple of the size. */
  lemma SameImage(g: int, h: int, stride: nat, size: nat) returns (m: int)
    requires size >= 1 && Coprime(stride, size) && Image(g, stride, size) == Image(h, stride, size)
    ensures g - h == m * size
  {
    EqualRemainders(g * stride - 1, h * stride - 1, size);
    var q := (g * stride - 1) / size - (h * stride - 1) / size;
    assert (g - h) * stride == g * stride - h * stride;
    m := CancelCoprime(stride, size, g - h, q);
  }

  /** On keys that lie less than size apart the image is injective. */
  lemma ImageInjective(g: int, h: int, stride: nat, size: nat)
    requires size >= 1 && Coprime(stride, size) && g - h < size && h - g < size
    requires Image(g, stride, size) == Image(h, stride, size)
    ensures g == h
  {
    var m := SameImage(g, h, stride, size);
    MultipleBelow(m, size);
  }

  /** Every window of size consecutive keys hits every value. */
  lemma ImageOnto(first: int, v: int, stride: nat, size: nat) returns (g: int)
    requires size >= 1 && Coprime(stride, size) && 1 <= v <= size
    ensures first <= g < first + size && Image(g, stride, size) == v
  {
    var x, y := Bezout(stride, size);
    var offset := (v * x - first) % size;
    g := first + offset;
    var q := (v * x - first) / size;
    assert v * x - first == q * size + offset;
    OntoArithmetic(g, v, x, y, q, stride, size);
    ShiftedRemainder(v - 1, -(v * y + q * stride), size);
    DivisionIsUnique(v - 1, size, 0, v - 1);
  }

  lemma OntoArithmetic(g: int, v: int, x: int, y: int, q: int, stride: nat, size: nat)
    requires stride * x + size * y == 1 && g == v * x - q * size
    ensures g * stride - 1 == v - 1 + (-(v * y + q * stride)) * size
  {
    assert g * stride == v * x * stride - q * size * stride;
    assert v * (stride * x + size * y) == v;
    assert v * (stride * x + size * y) == v * x * stride + v * y * size;
    assert (-(v * y + q * stride)) * size == -(v * y * size) - q * stride * size;
    assert q * size * stride == q * stride * size;
  }

  /** The first key of a window that maps to a value is the only one. */
  ghost predicate HitsOnce(first: int, v: int, stride: nat, size: nat)
    requires size >= 1
  {
    exists g :: first <= g < first + size && Image(g, stride, size) == v
      && forall h :: first <= h < first + size && Image(h, stride, size) == v ==> h == g
  }

  /** A coprime stride makes the row formula a bijection on every window of size keys. */
  lemma WindowIsPermutation(first: int, v: int, stride: nat, size: nat)
    requires size >= 1 && Coprime(stride, size) && 1 <= v <= size
    ensures HitsOnce(first, v, stride, size)
  {
    var g := ImageOnto(first, v, stride, size);
    forall h | first <= h < first + size && Image(h, stride, size) == v ensures h == g {
      ImageInjective(g, h, stride, size);
    }
  }
}
