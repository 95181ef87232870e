/**
  Index arithmetic of the project card's image carousel: the two state
  updaters passed to `setCurrentImage` and what follows from repeating them.
  `n` is the number of images of the card's project; an index is always a
  natural number, so the dividends below are non-negative and JavaScript's
  truncating `%` agrees with Dafny's Euclidean `%`.
 */
module CarouselIndex {

  /** The updater of `handleNext`: `(prev + 1) % n`. */
  function NextIndex(prev: nat, n: nat): (r: nat)
    requires n >= 1
    ensures prev < n ==> r < n
    ensures prev < n - 1 ==> r == prev + 1
    ensures prev == n - 1 ==> r == 0
  {
    (prev + 1) % n
  }

  /** The updater of `handlePrev`: `(prev - 1 + n) % n`. */
  function PrevIndex(prev: nat, n: nat): (r: nat)
    requires n >= 1
    ensures prev < n ==> r < n
    ensures 0 < prev < n ==> r == prev - 1
    ensures prev == 0 ==> r == n - 1
  {
    (prev - 1 + n) % n
  }

  /** Going back undoes going forward. */
  lemma PrevAfterNext(i: nat, n: nat)
    requires n >= 1 && i < n
    ensures PrevIndex(NextIndex(i, n), n) == i
  {
    if i == n - 1 {
      assert NextIndex(i, n) == 0;
    } else {
      assert NextIndex(i, n) == i + 1;
    }
  }

  /** Going forward undoes going back. */
  lemma NextAfterPrev(i: nat, n: nat)
    requires n >= 1 && i < n
    ensures NextIndex(PrevIndex(i, n), n) == i
  {
    if i == 0 {
      assert PrevIndex(i, n) == n - 1;
    } else {
      assert PrevIndex(i, n) == i - 1;
    }
  }

  /** The index after `k` calls of `handleNext` starting from `i`. */
  function NextN(i: nat, n: nat, k: nat): (r: nat)
    requires n >= 1 && i < n
    ensures r < n
  {
    if k == 0 then i else NextIndex(NextN(i, n, k - 1), n)
  }

  /** A positive multiple of `n` is at least `n`. */
  lemma {:induction false} PositiveMultiple(d: nat, n: nat)
    requires d >= 1
    ensures d * n >= n
  {
    if d > 1 {
      PositiveMultiple(d - 1, n);
      assert d * n == (d - 1) * n + n;
    }
  }

  /** Euclidean division has one quotient and one remainder. */
  lemma DivModUnique(x: int, q: int, r: int, n: nat)
    requires n >= 1 && 0 <= r < n && x == q * n + r
    ensures x / n == q && x % n == r
  {
    var q0, r0 := x / n, x % n;
    assert x == q0 * n + r0;
    if q > q0 {
      var d := q - q0;
      assert d * n == q * n - q0 * n;
      PositiveMultiple(d, n);
    } else if q < q0 {
      var d := q0 - q;
      assert d * n == q0 * n - q * n;
      PositiveMultiple(d, n);
    }
  }

  /** Adding a multiple of `n` does not change a remainder modulo `n`. */
  lemma ModShift(y: int, q: int, n: nat)
    requires n >= 1
    ensures (q * n + y) % n == y % n
  {
    var q0 := y / n;
    assert y == q0 * n + y % n;
    assert q * n + y == (q + q0) * n + y % n;
    DivModUnique(q * n + y, q + q0, y % n, n);
  }

  /** Reducing the left operand of a sum first does not change the remainder. */
  lemma ModAddLeft(a: int, b: int, n: nat)
    requires n >= 1
    ensures (a % n + b) % n == (a + b) % n
  {
    var q := a / n;
    assert a + b == q * n + (a % n + b);
    ModShift(a % n + b, q, n);
  }

  /** `k` calls of `handleNext` from `i` land on `(i + k) % n`. */
  lemma {:induction false} NextNIsSum(i: nat, n: nat, k: nat)
    requires n >= 1 && i < n
    ensures NextN(i, n, k) == (i + k) % n
  {
    if k == 0 {
      DivModUnique(i, 0, i, n);
    } else {
      NextNIsSum(i, n, k - 1);
      ModAddLeft(i + k - 1, 1, n);
    }
  }

  /** `n` calls of `handleNext` bring the carousel back to where it started. */
  lemma NextNFullCycle(i: nat, n: nat)
    requires n >= 1 && i < n
    ensures NextN(i, n, n) == i
  {
    NextNIsSum(i, n, n);
    ModShift(i, 1, n);
    DivModUnique(i, 0, i, n);
  }

  /** One navigation button press. */
  datatype Direction = Forward | Backward

  /** The index after one press in direction `d`. */
  function Step(i: nat, n: nat, d: Direction): (r: nat)
    requires n >= 1 && i < n
    ensures r < n
  {
    match d
    case Forward => NextIndex(i, n)
    case Backward => PrevIndex(i, n)
  }

  /** The index after a sequence of presses, applied from left to right. */
  function Advance(i: nat, n: nat, ds: seq<Direction>): (r: nat)
    requires n >= 1 && i < n
    ensures r < n
    decreases |ds|
  {
    if ds == [] then i else Advance(Step(i, n, ds[0]), n, ds[1..])
  }

  /** Forward presses minus backward presses. */
  function Net(ds: seq<Direction>): int
    decreases |ds|
  {
    if ds == [] then 0 else (if ds[0] == Forward then 1 else -1) + Net(ds[1..])
  }

  /** One press moves the index by one place around the circle. */
  lemma StepIsShift(i: nat, n: nat, d: Direction)
    requires n >= 1 && i < n
    ensures Step(i, n, d) == (i + (if d == Forward then 1 else -1)) % n
  {
    if d == Backward {
      ModShift(i - 1, 1, n);
    }
  }

  /** Any sequence of presses lands on the start shifted by the net count, modulo `n`. */
  lemma {:induction false} AdvanceIsNetShift(i: nat, n: nat, ds: seq<Direction>)
    requires n >= 1 && i < n
    ensures Advance(i, n, ds) == (i + Net(ds)) % n
    decreases |ds|
  {
    if ds == [] {
      DivModUnique(i, 0, i, n);
    } else {
      var delta := if ds[0] == Forward then 1 else -1;
      StepIsShift(i, n, ds[0]);
      AdvanceIsNetShift(Step(i, n, ds[0]), n, ds[1..]);
      ModAddLeft(i + delta, Net(ds[1..]), n);
    }
  }

  /** The example of five images: four presses forward reach the last one, a fifth wraps to the first. */
  lemma FiveImagesScenario()
    ensures NextN(0, 5, 4) == 4
    ensures NextN(0, 5, 5) == 0
  {
    NextNIsSum(0, 5, 4);
    NextNFullCycle(0, 5);
  }
}
