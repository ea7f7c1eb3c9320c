/**
 * The rotating background: four image slides, one of them active, and an
 * index that an interval timer advances modulo the number of images.
 */
module AnimatedBackground {

  const Images: seq<string> := [
    "https://images.unsplash.com/photo-1477959858617-67f85cf4f1df?q=80&w=2613&auto=format&fit=crop",
    "https://images.unsplash.com/photo-1516912481808-3406841bd33c?q=80&w=2544&auto=format&fit=crop",
    "https://images.unsplash.com/photo-1451187580459-43490279c0fa?q=80&w=2072&auto=format&fit=crop",
    "https://images.unsplash.com/photo-1534088568595-a066f410bcda?q=80&w=2551&auto=format&fit=crop"
  ]

  /** The timer's update `(prev + 1) % IMAGES.length`. */
  function Next(prev: int): (r: int)
    requires 0 <= prev
    ensures 0 <= r < |Images|
    ensures prev < |Images| - 1 ==> r == prev + 1
    ensures prev == |Images| - 1 ==> r == 0
  {
    (prev + 1) % |Images|
  }

  /** The index after `n` ticks from the initial 0. */
  function AfterTicks(n: nat): (r: int)
    ensures 0 <= r < |Images|
  {
    if n == 0 then 0 else Next(AfterTicks(n - 1))
  }

  /** After n ticks the index is n mod 4. */
  lemma {:induction false} AfterTicksIsMod(n: nat)
    ensures AfterTicks(n) == n % |Images|
  {
    if n > 0 {
      AfterTicksIsMod(n - 1);
    }
  }

  /** Four ticks bring back the same slide. */
  lemma FourTicksCycle(n: nat)
    ensures AfterTicks(n + 4) == AfterTicks(n)
  {
    AfterTicksIsMod(n + 4);
    AfterTicksIsMod(n);
  }

  /** One rendered slide: its image and whether it carries the `active` class. */
  datatype Slide = Slide(image: string, active: bool)

  /** The slides `IMAGES.map(...)` renders for a given index. */
  function Slides(current: int): seq<Slide> {
    seq(|Images|, i requires 0 <= i < |Images| => Slide(Images[i], i == current))
  }

  /** One slide per image, in order; for an index in range, exactly that slide is active. */
  lemma ExactlyOneActive(current: int)
    requires 0 <= current < |Images|
    ensures |Slides(current)| == |Images| == 4
    ensures forall i :: 0 <= i < |Images| ==> Slides(current)[i].image == Images[i]
    ensures Slides(current)[current].active
    ensures forall i :: 0 <= i < |Images| && Slides(current)[i].active ==> i == current
  {
  }

  class Background {
    /** The `currentImage` state. */
    var currentImage: int
    /** How many ticks have run since mounting. */
    ghost var ticks: nat

    ghost predicate Valid()
      reads this
    {
      currentImage == AfterTicks(ticks) && 0 <= currentImage < |Images|
    }

    /** Mounting starts at the first slide. */
    constructor ()
      ensures Valid() && currentImage == 0 && ticks == 0
    {
      currentImage := 0;
      ticks := 0;
    }

    /** One interval tick: advance to the next slide, wrapping after the last. */
    method Tick()
      requires Valid()
      modifies this
      ensures Valid()
      ensures currentImage == Next(old(currentImage)) && ticks == old(ticks) + 1
      ensures currentImage == ticks % |Images|
    {
      currentImage := Next(currentImage);
      ticks := ticks + 1;
      AfterTicksIsMod(ticks);
    }
  }
}
