/** The browser-side history kept under the keys `mockTests`, `resumeAnalyses`, `atsChecks`
    and `jobMatches`: a list with the newest record first, cut to the ten most recent.
    All four pages save with the same two statements, `list.unshift(record)` followed by
    `list.slice(0, 10)`, which `Push` models once. */
module History {

  /** The number of records each history keeps. */
  const Capacity: nat := 10

  /** `s.slice(0, n)`: the first `n` elements, or all of them when there are fewer. */
  function Take<T>(s: seq<T>, n: nat): (r: seq<T>)
    ensures |r| == if |s| <= n then |s| else n
    ensures r == s[..|r|]
  {
    if |s| <= n then s else s[..n]
  }

  /** `list.unshift(x); list.slice(0, 10)`. */
  function Push<T>(h: seq<T>, x: T): (r: seq<T>)
    ensures 1 <= |r| <= Capacity
    ensures |r| == if |h| < Capacity then |h| + 1 else Capacity
    ensures r[0] == x
    ensures r[1..] == h[..|r| - 1]
  {
    Take([x] + h, Capacity)
  }

  /** When the history is full, the oldest record is dropped and the other nine keep their order. */
  lemma PushFullDropsOldest<T>(h: seq<T>, x: T)
    requires |h| == Capacity
    ensures Push(h, x) == [x] + h[..Capacity - 1]
    ensures |Push(h, x)| == |h|
  {
  }

  /** The list left by saving the records `xs` one after the other, in that order. */
  function PushAll<T>(h: seq<T>, xs: seq<T>): seq<T>
  {
    if xs == [] then h else Push(PushAll(h, xs[..|xs| - 1]), xs[|xs| - 1])
  }

  function Reversed<T>(s: seq<T>): (r: seq<T>)
    ensures |r| == |s|
    ensures forall i :: 0 <= i < |s| ==> r[i] == s[|s| - 1 - i]
  {
    if s == [] then [] else [s[|s| - 1]] + Reversed(s[..|s| - 1])
  }

  lemma TakeAfterCons<T>(x: T, s: seq<T>, n: nat)
    requires n >= 1
    ensures Take([x] + Take(s, n), n) == Take([x] + s, n)
  {
  }

  /** After any number of saves the history is the saved records, newest first, followed by
      the records that were there before, all cut to the ten most recent. */
  lemma {:induction false} PushAllNewestFirst<T>(h: seq<T>, xs: seq<T>)
    requires xs != []
    ensures PushAll(h, xs) == Take(Reversed(xs) + h, Capacity)
    ensures |PushAll(h, xs)| <= Capacity
  {
    var init, last := xs[..|xs| - 1], xs[|xs| - 1];
    assert Reversed(xs) == [last] + Reversed(init);
    if init == [] {
      assert Reversed(xs) == [last];
    } else {
      PushAllNewestFirst(h, init);
      TakeAfterCons(last, Reversed(init) + h, Capacity);
      assert [last] + (Reversed(init) + h) == Reversed(xs) + h;
    }
  }
}
