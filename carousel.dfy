/**
 * The image carousel the rooms page and the bar-and-restaurant page each
 * define, with the same index arithmetic: an interval and the right arrow
 * advance `current` to `(current + 1) % n`, the left arrow moves it to
 * `(current - 1 + n) % n`, where n is the number of images. With no images
 * both divide by zero and the index becomes NaN.
 */
module ImageCarousel {
  import opened Js

  /** `(i + 1) % n` */
  function Forward(i: Num, n: nat): Num {
    Rem(Plus(i, 1), n)
  }

  /** `(i - 1 + n) % n` */
  function Backward(i: Num, n: nat): Num {
    Rem(Plus(Plus(i, -1), n), n)
  }

  /** An index the carousel can show. */
  predicate InRange(i: Num, n: nat) {
    i.Int? && 0 <= i.i < n
  }

  /** With at least one image, both moves stay in range and undo each other. */
  lemma StepsStayInRange(i: Num, n: nat)
    requires InRange(i, n)
    ensures InRange(Forward(i, n), n) && InRange(Backward(i, n), n)
    ensures Backward(Forward(i, n), n) == i && Forward(Backward(i, n), n) == i
  {
    var k := i.i;
    RingSteps(k, n);
    assert Forward(i, n) == Int(RemInt(k + 1, n));
    assert Backward(i, n) == Int(RemInt(k - 1 + n, n));
  }

  /** Without images the first move turns the index into NaN, and it stays NaN. */
  lemma EmptyCarouselIsNaN(i: Num)
    ensures Forward(i, 0) == NaN && Backward(i, 0) == NaN
    ensures Forward(NaN, 0) == NaN && Backward(NaN, 0) == NaN
  {
  }

  class Carousel {
    const count: nat
    var current: Num

    /** `useState(0)` for a carousel over `count` images. */
    constructor (count: nat)
      ensures this.count == count && current == Int(0)
    {
      this.count := count;
      current := Int(0);
    }

    /** The 4-second interval's update. */
    method Tick()
      modifies this
      ensures current == Forward(old(current), count)
      ensures count > 0 && InRange(old(current), count) ==> InRange(current, count)
    {
      current := Rem(Plus(current, 1), count);
      if count > 0 && InRange(old(current), count) {
        StepsStayInRange(old(current), count);
      }
    }

    /** The right arrow: the same update as the interval. */
    method Next()
      modifies this
      ensures current == Forward(old(current), count)
      ensures count > 0 && InRange(old(current), count) ==> InRange(current, count)
    {
      current := Rem(Plus(current, 1), count);
      if count > 0 && InRange(old(current), count) {
        StepsStayInRange(old(current), count);
      }
    }

    /** The left arrow. */
    method Prev()
      modifies this
      ensures current == Backward(old(current), count)
      ensures count > 0 && InRange(old(current), count) ==> InRange(current, count)
    {
      current := Rem(Plus(current, -1 + count), count);
      assert Plus(Plus(old(current), -1), count) == Plus(old(current), -1 + count);
      if count > 0 && InRange(old(current), count) {
        StepsStayInRange(old(current), count);
      }
    }

    /** Whether the image at `index` is the visible one (`index === current`). */
    predicate Shows(index: nat)
      reads this
    {
      current == Int(index)
    }
  }
}
