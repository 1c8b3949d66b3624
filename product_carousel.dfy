/** The product carousel: one product visible at a time, chosen by the
    `currentIndex` state, with previous/next buttons that wrap around and
    one dot per product. */
module ProductCarousel {
  import opened ChatTypes

  /** `handleNext`'s updater. */
  function Next(i: int, n: nat): (r: int)
    requires n >= 1 && 0 <= i < n
    ensures 0 <= r < n
    ensures r == (i + 1) % n
  {
    if i == n - 1 then 0 else i + 1
  }

  /** `handlePrevious`'s updater. */
  function Prev(i: int, n: nat): (r: int)
    requires n >= 1 && 0 <= i < n
    ensures 0 <= r < n
    ensures r == (i - 1) % n
  {
    if i == 0 then n - 1 else i - 1
  }

  /** `k` presses of the next button. */
  function NextTimes(i: int, n: nat, k: nat): (r: int)
    requires n >= 1 && 0 <= i < n
    ensures 0 <= r < n
  {
    if k == 0 then i else Next(NextTimes(i, n, k - 1), n)
  }

  /** Next wraps the last index to 0 and previous wraps 0 to the last. */
  lemma Wraps(n: nat)
    requires n >= 1
    ensures Next(n - 1, n) == 0 && Prev(0, n) == n - 1
  {
  }

  /** Previous undoes next and next undoes previous. */
  lemma NextPrevInverse(i: int, n: nat)
    requires n >= 1 && 0 <= i < n
    ensures Prev(Next(i, n), n) == i
    ensures Next(Prev(i, n), n) == i
  {
  }

  /** Up to a full turn, `k` presses of next advance the index by `k`,
      wrapping once past the end. */
  lemma {:induction false} NextTimesIsRotation(i: int, n: nat, k: nat)
    requires n >= 1 && 0 <= i < n && k <= n
    ensures NextTimes(i, n, k) == if i + k < n then i + k else i + k - n
  {
    if k > 0 {
      NextTimesIsRotation(i, n, k - 1);
    }
  }

  /** `n` presses of next come back to the start. */
  lemma FullTurnReturns(i: int, n: nat)
    requires n >= 1 && 0 <= i < n
    ensures NextTimes(i, n, n) == i
  {
    NextTimesIsRotation(i, n, n);
  }

  /** The item at `index` carries the active class and is not hidden. */
  predicate IsActive(index: int, currentIndex: int) {
    index == currentIndex
  }

  /** Nothing is rendered for an empty list. */
  predicate Renders(products: seq<Product>) {
    |products| > 0
  }

  /** The previous/next buttons and the dots appear only for two or more
      products. */
  predicate ShowControls(products: seq<Product>) {
    |products| > 1
  }

  /** Hiding the controls for a single product loses nothing: with one
      product next and previous would keep the index, and with two or more
      each of them moves it. */
  lemma HiddenControlsWouldBeIdle(products: seq<Product>, i: int)
    requires 0 <= i < |products|
    ensures !ShowControls(products) ==> Next(i, |products|) == i && Prev(i, |products|) == i
    ensures ShowControls(products) ==> Next(i, |products|) != i && Prev(i, |products|) != i
  {
  }

  /** With the index in range, exactly one item is active: the one at the
      index. */
  lemma ExactlyOneActive(currentIndex: int, n: nat)
    requires 0 <= currentIndex < n
    ensures |set k | 0 <= k < n && IsActive(k, currentIndex)| == 1
  {
    assert (set k | 0 <= k < n && IsActive(k, currentIndex)) == {currentIndex};
  }

  /** One mounted carousel over a fixed product list. */
  class Carousel {
    var currentIndex: int
    const products: seq<Product>

    /** The index stays within the list. */
    ghost predicate Valid()
      reads this
    {
      |products| == 0 || 0 <= currentIndex < |products|
    }

    /** Mounting: the index starts at 0. */
    constructor (products: seq<Product>)
      ensures Valid()
      ensures currentIndex == 0 && this.products == products
    {
      currentIndex := 0;
      this.products := products;
    }

    /** The next button. */
    method HandleNext()
      requires Valid() && Renders(products)
      modifies this
      ensures Valid()
      ensures currentIndex == Next(old(currentIndex), |products|)
    {
      currentIndex := if currentIndex == |products| - 1 then 0 else currentIndex + 1;
    }

    /** The previous button. */
    method HandlePrevious()
      requires Valid() && Renders(products)
      modifies this
      ensures Valid()
      ensures currentIndex == Prev(old(currentIndex), |products|)
    {
      currentIndex := if currentIndex == 0 then |products| - 1 else currentIndex - 1;
    }

    /** Dot `k` selects product `k`. */
    method SelectDot(k: int)
      requires 0 <= k < |products|
      modifies this
      ensures Valid()
      ensures currentIndex == k && IsActive(k, currentIndex)
    {
      currentIndex := k;
    }
  }
}
