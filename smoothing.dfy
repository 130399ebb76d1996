/**
 * The smoothing windows of the analyzers: a `deque(maxlen=5)` (or a list whose
 * oldest entry is popped once it grows past its capacity) and the mean
 * `sum(window) / len(window)` taken right after every push.
 */
module Smoothing {

  /** Python's `sum`, folded from the left. */
  function Sum(s: seq<real>): real
  {
    if s == [] then 0.0 else Sum(s[..|s| - 1]) + s[|s| - 1]
  }

  /** `sum(window) / len(window)`; only ever taken right after a push. */
  function Mean(s: seq<real>): real
    requires |s| > 0
  {
    Sum(s) / (|s| as real)
  }

  /** The last `n` entries of `s` (all of `s` when it is shorter). */
  function Latest(s: seq<real>, n: nat): (r: seq<real>)
    ensures |r| == if |s| <= n then |s| else n
  {
    if |s| <= n then s else s[|s| - n..]
  }

  /**
   * Appending `v` to a window of capacity `cap`: the new value goes at the
   * right end and, once the window is over capacity, the oldest one is dropped.
   */
  function Push(window: seq<real>, v: real, cap: nat): (r: seq<real>)
    requires cap >= 1
    ensures |window| <= cap ==> |r| <= cap
    ensures |window| < cap ==> r == window + [v]
    ensures |r| > 0 && r[|r| - 1] == v
    ensures |window| <= cap ==> r == Latest(window + [v], cap)
  {
    var grown := window + [v];
    if |grown| > cap then grown[1..] else grown
  }

  /** Pushing the values of `vs` one after the other. */
  function PushAll(window: seq<real>, vs: seq<real>, cap: nat): seq<real>
    requires cap >= 1
    decreases |vs|
  {
    if vs == [] then window else PushAll(Push(window, vs[0], cap), vs[1..], cap)
  }

  /** Dropping a prefix that lies outside the last `n` entries changes nothing. */
  lemma LatestOfSuffix(p: seq<real>, u: seq<real>, n: nat)
    requires |u| >= n
    ensures Latest(p + u, n) == Latest(u, n)
  {
    assert (p + u)[|p + u| - n..] == u[|u| - n..];
  }

  lemma LatestOfLatest(s: seq<real>, t: seq<real>, n: nat)
    ensures Latest(Latest(s, n) + t, n) == Latest(s + t, n)
  {
    if |s| > n {
      var k := |s| - n;
      assert s + t == s[..k] + (s[k..] + t);
      LatestOfSuffix(s[..k], s[k..] + t, n);
    }
  }

  /**
   * A window of capacity `cap` always holds exactly the `cap` most recent
   * values pushed into it (all of them while fewer have been pushed).
   */
  lemma {:induction false} PushAllKeepsLatest(window: seq<real>, vs: seq<real>, cap: nat)
    requires cap >= 1 && |window| <= cap
    ensures PushAll(window, vs, cap) == Latest(window + vs, cap)
    decreases |vs|
  {
    if vs == [] {
      assert window + vs == window;
    } else {
      var w' := Push(window, vs[0], cap);
      assert w' == Latest(window + [vs[0]], cap);
      PushAllKeepsLatest(w', vs[1..], cap);
      LatestOfLatest(window + [vs[0]], vs[1..], cap);
      assert window + [vs[0]] + vs[1..] == window + vs;
    }
  }

  /** With one element in the window, the mean is that element. */
  lemma MeanOfOne(v: real)
    ensures Mean([v]) == v
  {
    assert [v][..0] == [];
    assert Sum([v]) == v;
  }

  /** The mean lies between the smallest and the largest value in the window. */
  lemma {:induction false} SumBounds(s: seq<real>, lo: real, hi: real)
    requires forall i :: 0 <= i < |s| ==> lo <= s[i] <= hi
    ensures (|s| as real) * lo <= Sum(s) <= (|s| as real) * hi
    decreases |s|
  {
    if s != [] {
      SumBounds(s[..|s| - 1], lo, hi);
    }
  }

  lemma MeanBounds(s: seq<real>, lo: real, hi: real)
    requires |s| > 0
    requires forall i :: 0 <= i < |s| ==> lo <= s[i] <= hi
    ensures lo <= Mean(s) <= hi
  {
    SumBounds(s, lo, hi);
  }
}
