/**
 * The chart buffer of all three simulator pages: every tick pushes the newest
 * sample at the end and, once the buffer holds more than 50 entries, shifts one
 * entry off the front.
 */
module SampleBuffer {

  /** Number of samples the chart keeps. */
  const Capacity: nat := 50

  /** Push `x`, then shift the oldest entry off when the buffer has grown past the capacity. */
  function Push<T>(buf: seq<T>, x: T): (r: seq<T>)
    ensures |r| == if |buf| < Capacity then |buf| + 1 else |buf|
    ensures |r| > 0 && r[|r| - 1] == x
  {
    var appended := buf + [x];
    if |appended| > Capacity then appended[1..] else appended
  }

  /** The last `n` entries of `s` (all of `s` when it is shorter), in their original order. */
  function MostRecent<T>(s: seq<T>, n: nat): (r: seq<T>)
    ensures |r| == if |s| <= n then |s| else n
  {
    if |s| <= n then s else s[|s| - n..]
  }

  /** Pushes the entries of `xs` one at a time, first entry first. */
  function PushAll<T>(buf: seq<T>, xs: seq<T>): seq<T>
    decreases |xs|
  {
    if xs == [] then buf else PushAll(Push(buf, xs[0]), xs[1..])
  }

  /** A push keeps a suffix of the old entries followed by the new one: nothing is reordered or invented. */
  lemma PushIsSuffix<T>(buf: seq<T>, x: T)
    ensures Push(buf, x) == (buf + [x])[|buf| + 1 - |Push(buf, x)|..]
  {
  }

  /** One push on a buffer within capacity keeps exactly the most recent samples. */
  lemma PushKeepsMostRecent<T>(buf: seq<T>, x: T)
    requires |buf| <= Capacity
    ensures Push(buf, x) == MostRecent(buf + [x], Capacity)
    ensures |Push(buf, x)| <= Capacity
  {
  }

  /** Taking the most recent entries first and then appending loses nothing that the end result keeps. */
  lemma MostRecentAppend<T>(s: seq<T>, t: seq<T>, n: nat)
    ensures MostRecent(MostRecent(s, n) + t, n) == MostRecent(s + t, n)
  {
    if |s| > n {
      var m := MostRecent(s, n);
      var k := |m + t| - |MostRecent(m + t, n)|;
      var j := |s + t| - |MostRecent(s + t, n)|;
      assert j == k + (|s| - n);
      forall i | 0 <= i < |MostRecent(s + t, n)|
        ensures MostRecent(m + t, n)[i] == MostRecent(s + t, n)[i]
      {
        if k + i < |m| {
          assert (m + t)[k + i] == s[|s| - n + k + i];
        } else {
          assert (m + t)[k + i] == t[k + i - |m|];
        }
      }
    }
  }

  /**
   * However many samples a run pushes, the buffer holds the most recent ones
   * (at most 50), oldest first.
   */
  lemma {:induction false} PushAllKeepsMostRecent<T>(buf: seq<T>, xs: seq<T>)
    requires |buf| <= Capacity
    ensures PushAll(buf, xs) == MostRecent(buf + xs, Capacity)
    decreases |xs|
  {
    if xs == [] {
      assert buf + xs == buf;
    } else {
      var next := Push(buf, xs[0]);
      PushKeepsMostRecent(buf, xs[0]);
      PushAllKeepsMostRecent(next, xs[1..]);
      MostRecentAppend(buf + [xs[0]], xs[1..], Capacity);
      assert buf + [xs[0]] + xs[1..] == buf + xs;
    }
  }

  /** Sixty samples into an empty buffer leave exactly the last fifty. */
  lemma SixtySamplesKeepLastFifty<T>(xs: seq<T>)
    requires |xs| == 60
    ensures PushAll([], xs) == xs[10..]
    ensures |PushAll([], xs)| == 50
  {
    PushAllKeepsMostRecent([], xs);
    assert [] + xs == xs;
  }
}
