/** The image carousel of the home page: an index into three images moved
    forwards and backwards with JavaScript's remainder operator. */
module HomePage {

  const Images: seq<string> := ["/car1.jpg", "/car2.jpg", "/car3.jpg"]

  /** JavaScript's `a % n` for `n > 0`: the remainder of the division truncated
      towards zero, so it takes the sign of `a`. */
  function JsRemainder(a: int, n: int): (r: int)
    requires n > 0
    ensures a >= 0 ==> r == a % n
    ensures a >= 0 ==> 0 <= r < n
    ensures a < 0 ==> -n < r <= 0
  {
    if a >= 0 then a % n else -((-a) % n)
  }

  /** `nextImage`: `(prevIndex + 1) % images.length`. */
  function NextIndex(i: int): (r: int)
    ensures 0 <= i ==> 0 <= r < |Images|
    ensures 0 <= i < |Images| ==> r == (i + 1) % |Images|
  {
    JsRemainder(i + 1, |Images|)
  }

  /** `prevImage`: `(prevIndex - 1 + images.length) % images.length`. */
  function PrevIndex(i: int): (r: int)
    ensures 1 - |Images| <= i ==> 0 <= r < |Images|
    ensures 0 <= i < |Images| ==> r == (i - 1) % |Images|
  {
    JsRemainder(i - 1 + |Images|, |Images|)
  }

  /** From an index in range, going back undoes going forward and going
      forward undoes going back. */
  lemma NextPrevInverse(i: int)
    requires 0 <= i < |Images|
    ensures PrevIndex(NextIndex(i)) == i
    ensures NextIndex(PrevIndex(i)) == i
  {
  }

  /** One full turn of the carousel comes back to the starting image. */
  lemma ThreeNextsReturn(i: int)
    requires 0 <= i < |Images|
    ensures NextIndex(NextIndex(NextIndex(i))) == i
  {
  }

  datatype Move = Forward | Back

  function Step(i: int, m: Move): int {
    match m
    case Forward => NextIndex(i)
    case Back => PrevIndex(i)
  }

  /** The index after a sequence of clicks. */
  function Replay(i: int, moves: seq<Move>): int
    decreases |moves|
  {
    if moves == [] then i else Replay(Step(i, moves[0]), moves[1..])
  }

  /** Forward clicks minus back clicks. */
  function Net(moves: seq<Move>): int
    decreases |moves|
  {
    if moves == [] then 0 else (if moves[0] == Forward then 1 else -1) + Net(moves[1..])
  }

  /** A click moves the index by one, modulo the number of images. */
  lemma StepShift(i: int, m: Move)
    requires 0 <= i < |Images|
    ensures Step(i, m) == (i + (if m == Forward then 1 else -1)) % |Images|
  {
  }

  /** Whatever the clicks, the index stays in range and is the net number of
      forward clicks modulo the number of images: the carousel never shows an
      image that is not there. */
  lemma {:induction false} ReplayPosition(i: int, moves: seq<Move>)
    requires 0 <= i < |Images|
    ensures 0 <= Replay(i, moves) < |Images|
    ensures Replay(i, moves) == (i + Net(moves)) % |Images|
    decreases |moves|
  {
    if moves != [] {
      var m := moves[0];
      var d := if m == Forward then 1 else -1;
      var j := Step(i, m);
      StepShift(i, m);
      ReplayPosition(j, moves[1..]);
      ModAddLeft(i + d, Net(moves[1..]));
    }
  }

  /** Taking the remainder by the number of images before adding changes
      nothing. */
  lemma ModAddLeft(a: int, b: int)
    ensures ((a % |Images|) + b) % |Images| == (a + b) % |Images|
  {
    assert |Images| == 3;
  }

  /** The carousel component's state. */
  class Carousel {
    const images: seq<string>
    var currentIndex: int

    ghost predicate Valid()
      reads this
    {
      images == Images && 0 <= currentIndex < |images|
    }

    /** `useState(0)`. */
    constructor ()
      ensures Valid() && currentIndex == 0
    {
      images := Images;
      currentIndex := 0;
    }

    /** `nextImage`. */
    method NextImage()
      requires Valid()
      modifies this
      ensures Valid()
      ensures currentIndex == NextIndex(old(currentIndex))
    {
      currentIndex := JsRemainder(currentIndex + 1, |images|);
    }

    /** `prevImage`. */
    method PrevImage()
      requires Valid()
      modifies this
      ensures Valid()
      ensures currentIndex == PrevIndex(old(currentIndex))
    {
      currentIndex := JsRemainder(currentIndex - 1 + |images|, |images|);
    }
  }
}
