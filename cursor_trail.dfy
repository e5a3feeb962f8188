/** The cursor trail: every mouse move adds a fading dot at the pointer, and the
    oldest dot is removed once more than five are kept, so the page holds at
    most six dots, the most recent ones. */
module Trail {

  datatype Dot = Dot(x: int, y: int)

  /** How many dots may stay before the oldest is removed. */
  const Capacity: nat := 6

  /** The last `n` entries of `s`, or all of them when there are fewer. */
  function Latest<T>(s: seq<T>, n: nat): (r: seq<T>)
    ensures |r| == if |s| < n then |s| else n
    ensures r == s[|s| - |r|..]
  {
    if |s| <= n then s else s[|s| - n..]
  }

  /** `createTrail` on the kept dots: drop the oldest when more than five are
      kept, then add the new one. */
  function Push(trails: seq<Dot>, d: Dot): (r: seq<Dot>)
    ensures |trails| <= Capacity ==> |r| <= Capacity
    ensures |r| > 0 && r[|r| - 1] == d
  {
    (if |trails| > Capacity - 1 then trails[1..] else trails) + [d]
  }

  /** Pushing onto the latest six positions gives the latest six positions of
      the longer history. */
  lemma PushKeepsLatest(moves: seq<Dot>, d: Dot)
    ensures Push(Latest(moves, Capacity), d) == Latest(moves + [d], Capacity)
  {
    var kept := Latest(moves, Capacity);
    var longer := moves + [d];
    if |moves| >= Capacity {
      assert kept[1..] == moves[|moves| - Capacity + 1..];
      assert longer[|longer| - Capacity..] == moves[|moves| - Capacity + 1..] + [d];
    }
  }

  class CursorTrail {
    /** The dots on the page, oldest first. */
    var trails: seq<Dot>
    /** Every position the mouse has moved to, oldest first. */
    ghost var moves: seq<Dot>

    ghost predicate Valid()
      reads this
    {
      trails == Latest(moves, Capacity)
    }

    constructor ()
      ensures Valid() && trails == [] && moves == []
    {
      trails := [];
      moves := [];
    }

    /** A mouse move to (x, y). */
    method CreateTrail(x: int, y: int)
      requires Valid()
      modifies this
      ensures Valid()
      ensures moves == old(moves) + [Dot(x, y)]
      ensures trails == Push(old(trails), Dot(x, y))
      ensures |trails| <= Capacity && trails[|trails| - 1] == Dot(x, y)
    {
      if |trails| > 5 {
        trails := trails[1..];
      }
      trails := trails + [Dot(x, y)];
      PushKeepsLatest(moves, Dot(x, y));
      moves := moves + [Dot(x, y)];
    }
  }
}
