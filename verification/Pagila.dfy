/** The Pagila generator (workload_profiles/pagila/generator.py): sizes, steps and row formulas. */
module Pagila {
  import opened Wrappers
  import opened NumberTheory
  import opened Sampling

  datatype Params = Params(
    stores: int,
    cities: int,
    customers: int,
    addresses: int,
    actors: int,
    films: int,
    inventory: int,
    rentals: int,
    payments: int,
    cityStep: int,
    storeStep: int,
    actorStep: int,
    copyStep: int,
    rounds: int,
    phaseSeconds: int)

  const DAY := 86400
  const WINDOW_DAYS := 181

  /** The sizes the generator derives from the scale; root is the square root of the scale. */
  predicate SizedBy(p: Params, scale: real, root: real)
    requires scale > 0.0
  {
    && p.stores == Max(2, Round(2.0 * if root < 1.0 then 1.0 else root))
    && p.cities == Scaled(600, scale, 50)
    && p.customers == Scaled(600, scale, 100)
    && p.addresses == p.stores + p.stores + p.customers
    && p.actors == Scaled(200, scale, 50)
    && p.films == Scaled(1000, scale, 100)
    && p.inventory == Scaled(4500, scale, p.films * 2)
    && p.rentals == Scaled(16000, scale, 1000)
    && p.payments == Scaled(16500, scale, p.rentals)
  }

  /** How often a copy is rented at most, and how much of the window is left for its first rental. */
  predicate Scheduled(p: Params) {
    && p.inventory >= 1
    && p.rounds == (p.rentals + p.inventory - 1) / p.inventory
    && p.phaseSeconds == (WINDOW_DAYS - (p.rounds - 1) * 9 - 8) * DAY
  }

  predicate Stepped(p: Params) {
    && p.cities >= 1 && p.cityStep >= 0 && Coprime(p.cityStep, p.cities)
    && p.stores >= 1 && p.storeStep >= 0 && Coprime(p.storeStep, p.stores)
    && p.actors >= 1 && p.actorStep >= 0 && Coprime(p.actorStep, p.actors)
    && p.inventory >= 1 && p.copyStep >= 0 && Coprime(p.copyStep, p.inventory)
  }

  /** What every positive scale makes of the sizes. */
  predicate Sized(p: Params) {
    && p.stores >= 2 && p.cities >= 50 && p.customers >= 100 && p.actors >= 50 && p.films >= 100
    && p.addresses == 2 * p.stores + p.customers
    && p.inventory >= 2 * p.films
    && 1000 <= p.rentals <= 5 * p.inventory
    && p.rentals <= p.payments <= 2 * p.rentals
  }

  /** All that the theorems below need of the parameters; BuildParams gives it at every scale. */
  predicate Valid(p: Params) {
    Stepped(p) && Sized(p) && Scheduled(p)
  }

  /**
   * At every positive scale there are at most five rentals for each copy, and one or two payments
   * for each rental.
   */
  lemma ScaleBoundsRatios(p: Params, scale: real, root: real)
    requires scale > 0.0 && SizedBy(p, scale, root)
    ensures Sized(p)
  {
  }

  /** build_load_plan up to its parameters; a scale that is not positive is refused. */
  method BuildParams(scale: real, root: real) returns (r: Option<Params>)
    ensures r.None? <==> scale <= 0.0
    ensures r.Some? ==> SizedBy(r.value, scale, root) && Valid(r.value)
  {
    if scale <= 0.0 {
      return None;
    }
    var stores := Max(2, Round(2.0 * if root < 1.0 then 1.0 else root));
    var cities := Scaled(600, scale, 50);
    var customers := Scaled(600, scale, 100);
    var actors := Scaled(200, scale, 50);
    var films := Scaled(1000, scale, 100);
    var inventory := Scaled(4500, scale, films * 2);
    var rentals := Scaled(16000, scale, 1000);
    var payments := Scaled(16500, scale, rentals);
    var cityStep := CoprimeStep(cities, 53);
    var storeStep := CoprimeStep(stores, 17);
    var actorStep := CoprimeStep(actors, 37);
    var copyStep := CoprimeStep(inventory, 977);
    var rounds := (rentals + inventory - 1) / inventory;
    var phaseSeconds := (WINDOW_DAYS - (rounds - 1) * 9 - 8) * DAY;
    r := Some(Params(stores, cities, customers, stores + stores + customers, actors, films, inventory, rentals,
      payments, cityStep, storeStep, actorStep, copyStep, rounds, phaseSeconds));
    ScaleBoundsRatios(r.value, scale, root);
  }

  // ---------------------------------------------------------------- rentals

  function Copy(p: Params, g: int): int
    requires p.inventory >= 1
  {
    1 + ((g - 1) * p.copyStep) % p.inventory
  }

  /** How often the copy was rented before. */
  function RoundOf(p: Params, g: int): int
    requires p.inventory >= 1
  {
    (g - 1) / p.inventory
  }

  function Start(w: World, p: Params, g: int): int
    requires p.inventory >= 1
  {
    Draw(DetUniform(w, Copy(p, g), 7), p.phaseSeconds) + RoundOf(p, g) * 9 * DAY
  }

  function Return(w: World, p: Params, g: int): int
    requires p.inventory >= 1
  {
    Start(w, p, g) + (1 + g % 8) * DAY
  }

  /** At every positive scale a copy is rented at most five times, so the phase is positive. */
  lemma FewRounds(p: Params)
    requires Sized(p) && Scheduled(p)
    ensures 1 <= p.rounds <= 5 && p.phaseSeconds > 0
  {
    QuotientBounds(p.rentals + p.inventory - 1, p.inventory, 1, 6);
  }

  lemma CeilingCovers(total: int, d: int)
    requires d >= 1
    ensures total <= ((total + d - 1) / d) * d
  {
    var n := total + d - 1;
    assert n == (n / d) * d + n % d;
  }

  lemma RoundInRange(p: Params, g: int)
    requires Sized(p) && Scheduled(p) && 1 <= g <= p.rentals
    ensures 0 <= RoundOf(p, g) < p.rounds
  {
    CeilingCovers(p.rentals, p.inventory);
    QuotientBounds(g - 1, p.inventory, 0, p.rounds);
  }

  /** Different rentals of one copy belong to different rounds. */
  lemma SameCopyOtherRound(p: Params, g: int, h: int)
    requires p.inventory >= 1 && p.copyStep >= 0 && Coprime(p.copyStep, p.inventory)
    requires g != h && Copy(p, g) == Copy(p, h)
    ensures RoundOf(p, g) != RoundOf(p, h)
  {
    EqualRemainders((g - 1) * p.copyStep, (h - 1) * p.copyStep, p.inventory);
    var q := (g - 1) * p.copyStep / p.inventory - (h - 1) * p.copyStep / p.inventory;
    assert (g - h) * p.copyStep == (g - 1) * p.copyStep - (h - 1) * p.copyStep;
    var m := CancelCoprime(p.copyStep, p.inventory, g - h, q);
    SameQuotient(g - 1, h - 1, p.inventory, m);
  }

  /** Numbers with the same quotient that differ by a multiple are equal. */
  lemma SameQuotient(a: int, b: int, d: int, m: int)
    requires d >= 1 && a - b == m * d
    ensures a / d == b / d ==> a == b
  {
    assert a == (a / d) * d + a % d && b == (b / d) * d + b % d;
    if a / d == b / d {
      MultipleBelow(m, d);
    }
  }

  /** Two rentals of the same inventory copy never overlap: all that takes is the coprime copy step. */
  lemma RentalsDoNotOverlap(w: World, p: Params, g: int, h: int)
    requires p.inventory >= 1 && p.copyStep >= 0 && Coprime(p.copyStep, p.inventory)
    requires g != h && Copy(p, g) == Copy(p, h)
    ensures Return(w, p, g) < Start(w, p, h) || Return(w, p, h) < Start(w, p, g)
  {
    SameCopyOtherRound(p, g, h);
    assert Start(w, p, g) - Start(w, p, h) == (RoundOf(p, g) - RoundOf(p, h)) * 9 * DAY;
  }

  /** Every rental begins and ends inside the window of 181 days. */
  lemma RentalInsideWindow(w: World, p: Params, g: int)
    requires ValidWorld(w) && Sized(p) && Scheduled(p) && 1 <= g <= p.rentals
    ensures 0 <= Start(w, p, g) < Return(w, p, g) < WINDOW_DAYS * DAY
  {
    FewRounds(p);
    RoundInRange(p, g);
    UniformInUnit(w, Copy(p, g), 7);
    DrawInRange(DetUniform(w, Copy(p, g), 7), p.phaseSeconds);
  }

  /**
   * The after-data update may leave the latest rental of a copy without a return date; all other
   * rentals of the copy have ended before that one starts.
   */
  lemma OpenRentalIsLast(w: World, p: Params, g: int, h: int)
    requires p.inventory >= 1 && p.copyStep >= 0 && Coprime(p.copyStep, p.inventory)
    requires g != h && Copy(p, g) == Copy(p, h)
    ensures Start(w, p, h) <= Start(w, p, g) ==> Return(w, p, h) < Start(w, p, g)
  {
    RentalsDoNotOverlap(w, p, g, h);
  }

  // ---------------------------------------------------------------- payments

  /** The film of a copy, as inventory, rental and payment rows all compute it. */
  function Film(w: World, p: Params, copy: int): int {
    1 + Draw(w.power(DetUniform(w, copy, 3), 1.35), p.films)
  }

  /** The rental rate in cents. */
  function Rate(w: World, p: Params, rental: int): (cents: int)
    requires p.inventory >= 1
  {
    var film := Film(w, p, Copy(p, rental));
    ((0.99 + w.power(DetUniform(w, film, 1), 1.8) * 5.0) * 100.0 + 0.5).Floor
  }

  function PaidRental(p: Params, payment: int): int
    requires p.rentals >= 1
  {
    1 + (payment - 1) % p.rentals
  }

  /** The amount of a payment in cents; trunc(rate / 2, 2) drops the odd half cent. */
  function Amount(w: World, p: Params, payment: int): int
    requires p.rentals >= 1 && p.inventory >= 1
  {
    var rental := PaidRental(p, payment);
    var rate := Rate(w, p, rental);
    if rental <= p.payments - p.rentals then
      if payment <= p.rentals then rate / 2 else rate - rate / 2
    else rate
  }

  /** Each rental has one or two payments. */
  predicate OneOrTwoEach(p: Params) {
    p.inventory >= 1 && 1 <= p.rentals <= p.payments <= 2 * p.rentals
  }

  /** The payments of a rental are its own number and, for the first ones, one more. */
  lemma PaymentsOfRental(p: Params, rental: int, payment: int)
    requires OneOrTwoEach(p) && 1 <= rental <= p.rentals && 1 <= payment <= p.payments
    ensures PaidRental(p, payment) == rental <==>
      payment == rental || (rental <= p.payments - p.rentals && payment == rental + p.rentals)
  {
    if payment <= p.rentals {
      DivisionIsUnique(payment - 1, p.rentals, 0, payment - 1);
    } else if payment <= 2 * p.rentals {
      DivisionIsUnique(payment - 1, p.rentals, 1, payment - 1 - p.rentals);
    }
  }

  /** The payments of one rental add up to its rate. */
  lemma PaymentsCoverRate(w: World, p: Params, rental: int)
    requires OneOrTwoEach(p) && 1 <= rental <= p.rentals
    ensures Amount(w, p, rental) + (if rental <= p.payments - p.rentals then Amount(w, p, rental + p.rentals) else 0)
      == Rate(w, p, rental)
  {
    PaymentsOfRental(p, rental, rental);
    if rental <= p.payments - p.rentals {
      PaymentsOfRental(p, rental, rental + p.rentals);
    }
  }

  /** f(first + 1) + ... + f(first + n). */
  function SumOf(f: int -> int, first: int, n: nat): int {
    if n == 0 then 0 else SumOf(f, first, n - 1) + f(first + n)
  }

  lemma {:induction false} SumSplits(f: int -> int, first: int, n: nat, m: nat)
    ensures SumOf(f, first, n + m) == SumOf(f, first, n) + SumOf(f, first + n, m)
  {
    if m > 0 {
      SumSplits(f, first, n, m - 1);
    }
  }

  /** One term of g is made of one term of f, or of two for the first extra ones. */
  predicate Covers(f: int -> int, g: int -> int, whole: int, extra: int, k: int) {
    f(k) + (if k <= extra then f(whole + k) else 0) == g(k)
  }

  ghost predicate AllCovered(f: int -> int, g: int -> int, whole: int, extra: int, n: int) {
    forall k :: 1 <= k <= n ==> Covers(f, g, whole, extra, k)
  }

  lemma {:induction false} SumsAgree(f: int -> int, g: int -> int, whole: int, extra: int, n: nat)
    requires extra >= 0
    requires AllCovered(f, g, whole, extra, n)
    ensures SumOf(f, 0, n) + SumOf(f, whole, Min(n, extra)) == SumOf(g, 0, n)
  {
    if n > 0 {
      SumsAgree(f, g, whole, extra, n - 1);
      assert Covers(f, g, whole, extra, n);
    }
  }

  lemma SumsMatch(f: int -> int, g: int -> int, whole: nat, extra: nat)
    requires extra <= whole
    requires AllCovered(f, g, whole, extra, whole)
    ensures SumOf(f, 0, whole + extra) == SumOf(g, 0, whole)
  {
    SumsAgree(f, g, whole, extra, whole);
    SumSplits(f, 0, whole, extra);
  }

  function Amounts(w: World, p: Params): int -> int
    requires OneOrTwoEach(p)
  {
    payment => Amount(w, p, payment)
  }

  function Rates(w: World, p: Params): int -> int
    requires OneOrTwoEach(p)
  {
    rental => Rate(w, p, rental)
  }

  lemma EachRentalCovered(w: World, p: Params, extra: int)
    requires OneOrTwoEach(p) && extra == p.payments - p.rentals
    ensures AllCovered(Amounts(w, p), Rates(w, p), p.rentals, extra, p.rentals)
  {
    var amounts, rates := Amounts(w, p), Rates(w, p);
    forall k | 1 <= k <= p.rentals ensures Covers(amounts, rates, p.rentals, extra, k) {
      PaymentsCoverRate(w, p, k);
    }
  }

  /** Money is conserved: all payments together equal all rental rates together. */
  lemma MoneyIsConserved(w: World, p: Params)
    requires Sized(p)
    ensures OneOrTwoEach(p) && SumOf(Amounts(w, p), 0, p.payments) == SumOf(Rates(w, p), 0, p.rentals)
  {
    var extra := p.payments - p.rentals;
    EachRentalCovered(w, p, extra);
    SumsMatch(Amounts(w, p), Rates(w, p), p.rentals, extra);
  }

  // ---------------------------------------------------------------- other rows

  function Actor(p: Params, film: int, offset: int): int
    requires p.actors >= 1
  {
    1 + (film * 19 + offset * p.actorStep - 1) % p.actors
  }

  /** The actors of a film are distinct, so (film, actor) is a key, and there are at most seven. */
  lemma FilmActorsDistinct(p: Params, film: int, a: int, b: int)
    requires p.actors >= 50 && p.actorStep >= 0 && Coprime(p.actorStep, p.actors)
    requires 1 <= a < b <= 3 + film % 5
    ensures Actor(p, film, a) != Actor(p, film, b) && b <= 7
  {
    if Actor(p, film, a) == Actor(p, film, b) {
      OffsetsDifferByMultiple(film * 19 - 1, p.actorStep, p.actors, a, b);
    }
  }

  lemma OffsetsDifferByMultiple(base: int, step: nat, size: nat, a: int, b: int)
    requires size >= 1 && Coprime(step, size) && a <= b < a + size
    requires (base + a * step) % size == (base + b * step) % size
    ensures a == b
  {
    var x, y := base + b * step, base + a * step;
    EqualRemainders(x, y, size);
    assert (b - a) * step == b * step - a * step;
    var m := CancelCoprime(step, size, b - a, x / size - y / size);
    MultipleBelow(m, size);
  }

  datatype Owner = Store(id: int) | Staff(id: int) | Customer(id: int)

  function AddressOf(p: Params, owner: Owner): int {
    match owner
    case Store(id) => id
    case Staff(id) => p.stores + id
    case Customer(id) => p.stores + p.stores + id
  }

  predicate Exists(p: Params, owner: Owner) {
    match owner
    case Store(id) => 1 <= id <= p.stores
    case Staff(id) => 1 <= id <= p.stores
    case Customer(id) => 1 <= id <= p.customers
  }

  /** Stores, staff and customers use every address exactly once. */
  lemma AddressesUsedOnce(p: Params, address: int) returns (owner: Owner)
    requires p.stores >= 0 && p.customers >= 0 && p.addresses == p.stores + p.stores + p.customers
    requires 1 <= address <= p.addresses
    ensures Exists(p, owner) && AddressOf(p, owner) == address
    ensures forall other :: Exists(p, other) && AddressOf(p, other) == address ==> other == owner
  {
    owner :=
      if address <= p.stores then Store(address)
      else if address <= 2 * p.stores then Staff(address - p.stores)
      else Customer(address - 2 * p.stores);
  }

  function InventoryStore(p: Params, copy: int): int
    requires p.stores >= 1
  {
    1 + (copy - 1) % p.stores
  }

  function RentalStaff(p: Params, g: int): int
    requires p.stores >= 1 && p.inventory >= 1
  {
    1 + (Copy(p, g) - 1) % p.stores
  }

  function RentalCustomer(w: World, p: Params, g: int): int {
    1 + Draw(w.power(DetUniform(w, g, 5), 1.8), p.customers)
  }

  /** A rental names an existing copy and customer, and a clerk of the store that owns the copy. */
  lemma RentalReferencesExist(w: World, p: Params, g: int)
    requires ValidWorld(w) && p.stores >= 1 && p.inventory >= 1 && p.films >= 1 && p.customers >= 1
    ensures 1 <= Copy(p, g) <= p.inventory
    ensures 1 <= RentalCustomer(w, p, g) <= p.customers
    ensures 1 <= RentalStaff(p, g) <= p.stores && RentalStaff(p, g) == InventoryStore(p, Copy(p, g))
    ensures 1 <= Film(w, p, Copy(p, g)) <= p.films
  {
    UniformInUnit(w, Copy(p, g), 3);
    DrawInRange(w.power(DetUniform(w, Copy(p, g), 3), 1.35), p.films);
    UniformInUnit(w, g, 5);
    DrawInRange(w.power(DetUniform(w, g, 5), 1.8), p.customers);
  }
}
