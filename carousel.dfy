/**
 * `Product.initCarousel` and its arrows: the product cards of one search
 * result, one `active` flag per card, the current index, the `isMoving` lock
 * and the disabled state of both arrows. Every view update sets the lock and
 * schedules one timer that clears it again; a click while it is set, or past
 * an end, does nothing.
 *
 * A click is one method call and the timer firing is `Settle`; scrolling
 * and the card markup are not modelled.
 */
module Carousel {

  /** Where the carousel is: the current card and whether the lock is set. */
  datatype Position = Position(index: nat, moving: bool)

  /** The next arrow's click handler. */
  function NextClick(p: Position, n: nat): Position
  {
    if p.moving || p.index + 1 >= n then p else Position(p.index + 1, true)
  }

  /** The previous arrow's click handler. */
  function PrevClick(p: Position): Position
  {
    if p.moving || p.index == 0 then p else Position(p.index - 1, true)
  }

  /** The lock timer firing. */
  function Settle(p: Position): Position
  {
    p.(moving := false)
  }

  /** Clicks keep the index on a card, and each click moves it by at most one. */
  lemma ClicksStayInRange(p: Position, n: nat)
    requires p.index < n
    ensures NextClick(p, n).index < n && PrevClick(p).index < n
    ensures NextClick(p, n).index - p.index in {0, 1} && p.index - PrevClick(p).index in {0, 1}
  {
  }

  /** A click does something exactly when the lock is clear and there is a card on that side. */
  lemma ClickTakesEffect(p: Position, n: nat)
    ensures NextClick(p, n) != p <==> !p.moving && p.index + 1 < n
    ensures PrevClick(p) != p <==> !p.moving && p.index > 0
    ensures NextClick(p, n) != p ==> NextClick(p, n).moving
    ensures PrevClick(p) != p ==> PrevClick(p).moving
  {
  }

  /** Going forward and, once settled, back again returns to the same card. */
  lemma NextThenPrev(p: Position, n: nat)
    requires !p.moving && p.index + 1 < n
    ensures PrevClick(Settle(NextClick(p, n))) == Position(p.index, true)
  {
  }

  /** `k` clicks on the next arrow, each after the lock has cleared. */
  function Forward(p: Position, n: nat, k: nat): Position
  {
    if k == 0 then p else Settle(NextClick(Forward(p, n, k - 1), n))
  }

  /** From the first card, `k` settled clicks forward reach card `k`, or the last card. */
  lemma {:induction false} ForwardSaturates(n: nat, k: nat)
    requires n >= 1
    ensures Forward(Position(0, false), n, k) == Position(if k < n then k else n - 1, false)
  {
    if k > 0 {
      ForwardSaturates(n, k - 1);
    }
  }

  /** Which cards carry the `active` class when `index` is current. */
  function Highlight(n: nat, index: nat): seq<bool>
  {
    seq(n, i => i == index)
  }

  /** Exactly one card is active, the current one. */
  lemma HighlightOne(n: nat, index: nat)
    requires index < n
    ensures |Highlight(n, index)| == n && Highlight(n, index)[index]
    ensures forall i :: 0 <= i < n && Highlight(n, index)[i] ==> i == index
  {
  }

  /** A carousel of `n >= 1` cards with its arrows, if it has them. */
  class ProductCarousel {
    const n: nat
    const active: array<bool>
    const arrows: bool
    var index: nat
    var moving: bool
    /** Lock timers scheduled and not yet fired. */
    var pendingSettles: nat
    var prevDisabled: bool
    var nextDisabled: bool

    function At(): Position
      reads this
    {
      Position(index, moving)
    }

    /**
     * The carousel's invariant: the index is on a card, exactly that card is
     * active, each arrow is disabled exactly at its end, and a lock timer is
     * pending exactly while the lock is set.
     */
    ghost predicate Valid()
      reads this, active
    {
      && n >= 1 && active.Length == n && (arrows <==> n > 1)
      && index < n && active[..] == Highlight(n, index)
      && (arrows ==> prevDisabled == (index == 0) && nextDisabled == (index == n - 1))
      && pendingSettles == (if moving then 1 else 0)
    }

    /**
     * `initCarousel` on `n` cards: one card is simply made active; more get
     * arrows and a first view update, which sets the lock.
     */
    constructor (n: nat)
      requires n >= 1
      ensures Valid() && fresh(active)
      ensures this.n == n && (arrows <==> n > 1) && index == 0
      ensures moving == arrows
    {
      this.n := n;
      active := new bool[n](_ => false);
      arrows := n > 1;
      index := 0;
      moving := false;
      pendingSettles := 0;
      new;
      if n <= 1 {
        active[0] := true;
        return;
      }
      UpdateView();
    }

    /** `updateView`: lock, mark the current card, set both arrows, schedule the unlock. */
    method UpdateView()
      requires active.Length == n && index < n
      modifies this`moving, this`pendingSettles, this`prevDisabled, this`nextDisabled, active
      ensures moving && pendingSettles == old(pendingSettles) + 1
      ensures active[..] == Highlight(n, index)
      ensures prevDisabled == (index == 0) && nextDisabled == (index == n - 1)
    {
      for i := 0 to n
        modifies active
        invariant forall j :: 0 <= j < i ==> active[j] == (j == index)
      {
        active[i] := i == index;
      }
      prevDisabled := index == 0;
      nextDisabled := index == n - 1;
      moving := true;
      pendingSettles := pendingSettles + 1;
    }

    /** A click on the next arrow. */
    method Next()
      requires Valid() && arrows
      modifies this`index, this`moving, this`pendingSettles, this`prevDisabled, this`nextDisabled, active
      ensures Valid()
      ensures At() == NextClick(old(At()), n)
      ensures At() == old(At()) ==> unchanged(this) && unchanged(active)
    {
      if moving || index >= n - 1 {
        return;
      }
      index := index + 1;
      UpdateView();
    }

    /** A click on the previous arrow. */
    method Prev()
      requires Valid() && arrows
      modifies this`index, this`moving, this`pendingSettles, this`prevDisabled, this`nextDisabled, active
      ensures Valid()
      ensures At() == PrevClick(old(At()))
      ensures At() == old(At()) ==> unchanged(this) && unchanged(active)
    {
      if moving || index <= 0 {
        return;
      }
      index := index - 1;
      UpdateView();
    }

    /** The pending lock timer fires. */
    method Unlock()
      requires Valid() && pendingSettles > 0
      modifies this`moving, this`pendingSettles
      ensures Valid()
      ensures At() == Settle(old(At())) && pendingSettles == 0
    {
      moving := false;
      pendingSettles := pendingSettles - 1;
    }
  }

  /** `initCarousel`'s guard: no products, no carousel. */
  method InitCarousel(n: nat) returns (c: ProductCarousel?)
    ensures n == 0 <==> c == null
    ensures c != null ==> fresh(c) && fresh(c.active) && c.Valid() && c.n == n && c.index == 0
  {
    if n == 0 {
      return null;
    }
    c := new ProductCarousel(n);
  }
}
