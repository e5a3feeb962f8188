/** The site's random helpers. `Math.random` is not modelled as a distribution:
    every random outcome is an explicit argument (`rolls`), and what is proved holds
    for every value of it. `shuffleArray` sorts by random keys, which yields some
    permutation of its input; `Shuffle` below draws that permutation one element
    at a time, and `ShuffleReachesEveryPermutation` shows that every permutation
    is drawn by some rolls, so nothing is lost by this way of choosing. */
module Random {
  import opened Basics

  /** `shuffleArray`: each roll picks, by its position among the elements left,
      the next element of the result; a missing or out-of-range roll picks the
      first one left. */
  function Shuffle<T>(s: seq<T>, rolls: seq<nat>): (r: seq<T>)
    ensures |r| == |s|
    ensures multiset(r) == multiset(s)
    decreases |s|
  {
    if s == [] then []
    else
      var k := if rolls != [] && rolls[0] < |s| then rolls[0] else 0;
      var rest := s[..k] + s[k + 1..];
      assert s == s[..k] + [s[k]] + s[k + 1..];
      [s[k]] + Shuffle(rest, if rolls == [] then [] else rolls[1..])
  }

  /** Every rearrangement of `s` is what `Shuffle` returns for some rolls. */
  lemma {:induction false} ShuffleReachesEveryPermutation<T>(s: seq<T>, r: seq<T>)
    requires multiset(r) == multiset(s)
    ensures exists rolls :: Shuffle(s, rolls) == r
    decreases |s|
  {
    if s == [] {
      assert |r| == |multiset(r)| == 0;
      assert Shuffle(s, []) == r;
    } else {
      var k := FirstOfPermutation(s, r);
      ShuffleReachesEveryPermutation(s[..k] + s[k + 1..], r[1..]);
      var tail :| Shuffle(s[..k] + s[k + 1..], tail) == r[1..];
      ShuffleFirstRoll(s, r, k, tail);
    }
  }

  /** Where the first element of a permutation of `s` sits in `s`, and what is
      left of both once it is taken out. */
  lemma FirstOfPermutation<T>(s: seq<T>, r: seq<T>) returns (k: nat)
    requires multiset(r) == multiset(s) && s != []
    ensures k < |s| && |r| > 0 && s[k] == r[0]
    ensures multiset(r[1..]) == multiset(s[..k] + s[k + 1..])
  {
    assert |r| == |multiset(r)| == |s| > 0;
    assert r[0] in multiset(s);
    k :| 0 <= k < |s| && s[k] == r[0];
    assert s == s[..k] + [s[k]] + s[k + 1..];
    assert r == [r[0]] + r[1..];
    assert multiset(r[1..]) == multiset(r) - multiset{r[0]};
    assert multiset(s[..k] + s[k + 1..]) == multiset(s) - multiset{s[k]};
  }

  lemma ShuffleFirstRoll<T>(s: seq<T>, r: seq<T>, k: nat, tail: seq<nat>)
    requires k < |s| && |r| > 0 && s[k] == r[0]
    requires Shuffle(s[..k] + s[k + 1..], tail) == r[1..]
    ensures Shuffle(s, [k] + tail) == r
  {
    assert ([k] + tail)[1..] == tail;
    assert [r[0]] + r[1..] == r;
  }

  /** `source.filter(item => !exclude.includes(item))`. */
  function Without<T(==,!new)>(source: seq<T>, exclude: seq<T>): (r: seq<T>)
    ensures multiset(r) <= multiset(source)
    ensures forall x :: x in r <==> x in source && x !in exclude
    ensures forall x :: multiset(r)[x] == if x in exclude then 0 else multiset(source)[x]
  {
    if source == [] then []
    else
      assert source == [source[0]] + source[1..];
      (if source[0] in exclude then [] else [source[0]]) + Without(source[1..], exclude)
  }

  /** The filter keeps the order of what it lets through. */
  lemma {:induction false} WithoutAppend<T(!new)>(xs: seq<T>, ys: seq<T>, exclude: seq<T>)
    ensures Without(xs + ys, exclude) == Without(xs, exclude) + Without(ys, exclude)
  {
    if xs == [] {
      assert xs + ys == ys;
    } else {
      assert (xs + ys)[0] == xs[0] && (xs + ys)[1..] == xs[1..] + ys;
      var head := if xs[0] in exclude then [] else [xs[0]];
      var rest, tail := Without(xs[1..], exclude), Without(ys, exclude);
      calc {
        Without(xs + ys, exclude);
        head + Without(xs[1..] + ys, exclude);
        { WithoutAppend(xs[1..], ys, exclude); }
        head + (rest + tail);
        (head + rest) + tail;
      }
    }
  }

  /** `pickRandomItems`: the first `count` items of a shuffle of the pool left
      after removing `exclude`. */
  function PickRandomItems<T(==,!new)>(source: seq<T>, count: nat, exclude: seq<T>, rolls: seq<nat>): (r: seq<T>)
    ensures |r| == Min(count, |Without(source, exclude)|)
    ensures multiset(r) <= multiset(Without(source, exclude)) <= multiset(source)
    ensures forall x :: x in r ==> x in source && x !in exclude
  {
    var shuffled := Shuffle(Without(source, exclude), rolls);
    var n := Min(count, |shuffled|);
    assert shuffled == shuffled[..n] + shuffled[n..];
    assert forall x :: x in shuffled[..n] ==> x in multiset(shuffled);
    shuffled[..n]
  }

  /** `randomElement` on a non-empty array; `roll` stands for the random index
      (an out-of-range roll picks the first element). */
  function RandomElement<T>(a: seq<T>, roll: nat): (r: T)
    requires |a| > 0
    ensures r in a
  {
    if roll < |a| then a[roll] else a[0]
  }

  /** Every element is drawn by some roll. */
  lemma RandomElementReachesAll<T>(a: seq<T>, i: nat)
    requires i < |a|
    ensures exists roll: nat :: RandomElement(a, roll) == a[i]
  {
    assert RandomElement(a, i) == a[i];
  }
}
