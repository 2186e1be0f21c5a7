/** The project carousel of the portfolio page: an index into the project list that the
    auto-play interval and the "next" button advance with `(prev + 1) % len` and the
    "previous" button moves back with `(prev - 1 + len) % len`. */
module Carousel {

  /** `ART_DATA.length`: the page lists three projects. */
  const ProjectCount: nat := 3

  /** JavaScript's `%`: the remainder of division truncated toward zero, whose sign is the
      dividend's (Dafny's own `%` is Euclidean and never negative). Only positive
      divisors occur here: the divisor is always the length of the project list. */
  function JsRemainder(a: int, b: int): (r: int)
    requires b > 0
    ensures a >= 0 ==> r == a % b
    ensures a >= 0 ==> 0 <= r < b
    ensures a < 0 ==> -b < r <= 0
  {
    if a >= 0 then a % b else -((-a) % b)
  }

  /** The index after `i`: the auto-play tick and the "next" button. */
  function Next(i: int, n: int): (r: int)
    requires 0 <= i < n
    ensures 0 <= r < n
    ensures i < n - 1 ==> r == i + 1
    ensures i == n - 1 ==> r == 0
  {
    JsRemainder(i + 1, n)
  }

  /** The index before `i`: the "previous" button. */
  function Prev(i: int, n: int): (r: int)
    requires 0 <= i < n
    ensures 0 <= r < n
    ensures 0 < i ==> r == i - 1
    ensures i == 0 ==> r == n - 1
  {
    JsRemainder(i - 1 + n, n)
  }

  /** Going back after going forward returns to the same project. */
  lemma PrevAfterNext(i: int, n: int)
    requires 0 <= i < n
    ensures Prev(Next(i, n), n) == i
  {
  }

  /** Going forward after going back returns to the same project. */
  lemma NextAfterPrev(i: int, n: int)
    requires 0 <= i < n
    ensures Next(Prev(i, n), n) == i
  {
  }

  /** The index after `k` auto-play ticks from `i`. */
  function AutoPlay(i: int, n: int, k: nat): (r: int)
    requires 0 <= i < n
    ensures 0 <= r < n
  {
    if k == 0 then i else Next(AutoPlay(i, n, k - 1), n)
  }

  /** A positive multiple of `n` is at least `n`. */
  lemma MultipleAtLeast(d: int, n: int)
    ensures d >= 1 && n > 0 ==> d * n >= n
  {
    if d >= 1 && n > 0 {
      assert d * n == n + (d - 1) * n;
    }
  }

  /** A multiple of `n` strictly between `-n` and `n` is zero. */
  lemma SmallMultiple(d: int, n: int)
    requires n > 0 && -n < d * n < n
    ensures d == 0
  {
    MultipleAtLeast(d, n);
    MultipleAtLeast(-d, n);
  }

  /** Division with remainder is unique: `q * n + r` with `0 <= r < n` has remainder `r`. */
  lemma RemainderUnique(a: int, n: int, q: int, r: int)
    requires n > 0 && 0 <= r < n && a == q * n + r
    ensures a % n == r
  {
    var q', r' := a / n, a % n;
    assert (q - q') * n == r' - r;
    SmallMultiple(q - q', n);
  }

  /** One more step past `a` lands on the remainder of `a + 1`. */
  lemma StepRemainder(a: nat, n: nat)
    requires n > 0
    ensures Next(a % n, n) == (a + 1) % n
  {
    var q, r := a / n, a % n;
    if r < n - 1 {
      RemainderUnique(a + 1, n, q, r + 1);
    } else {
      RemainderUnique(a + 1, n, q + 1, 0);
    }
  }

  /** After `k` ticks the carousel shows project `(i + k) mod n`: it visits the projects in
      order and is back at the start after `n` ticks. */
  lemma {:induction false} AutoPlayIsModular(i: int, n: int, k: nat)
    requires 0 <= i < n
    ensures AutoPlay(i, n, k) == (i + k) % n
  {
    if k > 0 {
      AutoPlayIsModular(i, n, k - 1);
      StepRemainder(i + k - 1, n);
    }
  }

  /** After one tick per project the carousel is back where it started. */
  lemma FullCycle(i: int, n: int)
    requires 0 <= i < n
    ensures AutoPlay(i, n, n) == i
  {
    AutoPlayIsModular(i, n, n);
    RemainderUnique(i + n, n, 1, i);
  }

  /** The page's three projects: auto-play shows 0, 1, 2 and then 0 again, and "previous" from
      the first project shows the last one. */
  lemma ThreeProjectTour()
    ensures AutoPlay(0, ProjectCount, 1) == 1 && AutoPlay(0, ProjectCount, 2) == 2
    ensures AutoPlay(0, ProjectCount, 3) == 0
    ensures Prev(0, ProjectCount) == 2
  {
    FullCycle(0, ProjectCount);
  }
}
