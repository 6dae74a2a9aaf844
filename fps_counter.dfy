// The frame-rate counter: a rolling window of the last ten frame rates and
// their mean.

module Fps {

  /** The number of samples the window keeps. */
  const Window := 10

  /** The last (at most) n elements of s, in order. */
  function LastN(s: seq<real>, n: nat): (r: seq<real>)
    ensures |r| == if |s| <= n then |s| else n
    ensures r == s[|s| - |r|..]
  {
    if |s| <= n then s else s[|s| - n..]
  }

  function Sum(s: seq<real>): real
  {
    if s == [] then 0.0 else Sum(s[..|s| - 1]) + s[|s| - 1]
  }

  /** The mean of the samples, 0 for none (numpy's mean, or the literal 0). */
  function Mean(s: seq<real>): real
  {
    if s == [] then 0.0 else Sum(s) / |s| as real
  }

  /** The sum of samples that all lie in [lo, hi] lies in [n*lo, n*hi]. */
  lemma {:induction false} SumBounds(s: seq<real>, lo: real, hi: real)
    requires forall i :: 0 <= i < |s| ==> lo <= s[i] <= hi
    ensures |s| as real * lo <= Sum(s) <= |s| as real * hi
    decreases |s|
  {
    if s != [] {
      SumBounds(s[..|s| - 1], lo, hi);
    }
  }

  /** The mean of a non-empty window lies between its smallest and largest sample. */
  lemma MeanBounds(s: seq<real>, lo: real, hi: real)
    requires s != [] && forall i :: 0 <= i < |s| ==> lo <= s[i] <= hi
    ensures lo <= Mean(s) <= hi
  {
    SumBounds(s, lo, hi);
    var n := |s| as real;
    assert n * lo <= Sum(s) <= n * hi;
    assert lo == (n * lo) / n && hi == (n * hi) / n;
  }

  class FPSCounter {
    /** fps_history. */
    var history: seq<real>
    /** Every sample ever given to update, oldest first. */
    ghost var samples: seq<real>

    /** The window holds the last samples, at most ten of them. */
    ghost predicate Valid()
      reads this
    {
      history == LastN(samples, Window)
    }

    constructor()
      ensures Valid() && history == [] && samples == []
    {
      history := [];
      samples := [];
    }

    /** update: the sample is appended, and the oldest one is dropped when the
        window then holds more than ten. */
    method Update(fps: real)
      requires Valid()
      modifies this
      ensures Valid() && samples == old(samples) + [fps]
      ensures |history| <= Window && history[|history| - 1] == fps
      ensures history == if |old(history)| < Window then old(history) + [fps] else old(history)[1..] + [fps]
    {
      history := history + [fps];
      samples := samples + [fps];
      if |history| > Window {
        history := history[1..];
      }
    }

    /** get_average: the mean of the window, 0 when it is empty. */
    function GetAverage(): (avg: real)
      reads this
      ensures history == [] ==> avg == 0.0
      ensures history != [] ==> avg == Sum(history) / |history| as real
    {
      Mean(history)
    }
  }
}
