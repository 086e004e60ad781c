/** The bounded, ordered log buffer shared by both connection managers. */
module LogBuffer {

  /** `bufferMaxSize`. */
  const Capacity := 1000

  /** `push` followed by one `shift` when the length then exceeds the capacity. */
  function Push<T>(buffer: seq<T>, x: T): (r: seq<T>)
    ensures |buffer| < Capacity ==> r == buffer + [x]
    ensures |buffer| >= Capacity ==> r == buffer[1..] + [x]
  {
    var pushed := buffer + [x];
    if |pushed| > Capacity then pushed[1..] else pushed
  }

  /** Reference definition: the last `n` elements of `s` (all of them when there are fewer). */
  function LastN<T>(s: seq<T>, n: nat): (r: seq<T>)
    ensures |r| == if |s| <= n then |s| else n
    ensures r == s[|s| - |r|..]
  {
    if |s| <= n then s else s[|s| - n..]
  }

  /** One append to a buffer within capacity keeps exactly the most recent entries, in order. */
  lemma PushKeepsMostRecent<T>(buffer: seq<T>, x: T)
    requires |buffer| <= Capacity
    ensures Push(buffer, x) == LastN(buffer + [x], Capacity)
    ensures |Push(buffer, x)| <= Capacity
  {
  }

  /** Appending `xs` one at a time. */
  function PushAll<T>(buffer: seq<T>, xs: seq<T>): seq<T>
    decreases |xs|
  {
    if xs == [] then buffer else PushAll(Push(buffer, xs[0]), xs[1..])
  }

  /** Taking the last `n` of an intermediate result and then appending loses nothing that would survive anyway. */
  lemma LastNAppend<T>(s: seq<T>, t: seq<T>, n: nat)
    ensures LastN(LastN(s, n) + t, n) == LastN(s + t, n)
  {
    var u := LastN(s, n);
    assert s == s[..|s| - |u|] + u;
    assert s + t == s[..|s| - |u|] + (u + t);
  }

  /** Any run of appends to a buffer within capacity leaves exactly the last
      `Capacity` entries of everything ever appended, in their original order. */
  lemma {:induction false} PushAllKeepsMostRecent<T>(buffer: seq<T>, xs: seq<T>)
    requires |buffer| <= Capacity
    ensures PushAll(buffer, xs) == LastN(buffer + xs, Capacity)
    decreases |xs|
  {
    if xs == [] {
      assert buffer + xs == buffer;
    } else {
      var next := Push(buffer, xs[0]);
      PushKeepsMostRecent(buffer, xs[0]);
      calc {
        PushAll(buffer, xs);
        PushAll(next, xs[1..]);
        { PushAllKeepsMostRecent(next, xs[1..]); }
        LastN(next + xs[1..], Capacity);
        { LastNAppend(buffer + [xs[0]], xs[1..], Capacity); }
        LastN(buffer + [xs[0]] + xs[1..], Capacity);
        { assert buffer + [xs[0]] + xs[1..] == buffer + xs; }
        LastN(buffer + xs, Capacity);
      }
    }
  }
}
