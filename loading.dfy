/** The loading screen's progress bar: an interval tick adds a random step
    of less than 15 points to the progress and caps it at 100. */
module Loading {
  import opened MathModel

  /** The updater the tick hands to `setProgress`, for the draw r. */
  function NextProgress(prev: real, r: real): (next: real)
    requires IsDraw(r)
    ensures next <= 100.0
    ensures prev <= 100.0 ==> prev <= next
    ensures next < prev + 15.0
    ensures prev == 100.0 ==> next == 100.0
    ensures next == 100.0 <==> prev + r * 15.0 >= 100.0
  {
    var next := prev + r * 15.0;
    if next > 100.0 then 100.0 else next
  }

  /** A sequence of `Math.random()` results. */
  predicate AllDraws(draws: seq<real>)
  {
    forall i :: 0 <= i < |draws| ==> IsDraw(draws[i])
  }

  /** The progress after one tick per draw, starting from 0. */
  function ProgressAfter(draws: seq<real>): real
    requires AllDraws(draws)
    decreases |draws|
  {
    if |draws| == 0 then 0.0
    else NextProgress(ProgressAfter(draws[..|draws| - 1]), draws[|draws| - 1])
  }

  /** The progress stays within [0, 100], never decreases from one tick to
      any later one, and once it is 100 it stays 100. */
  lemma {:induction false} ProgressBoundedAndMonotone(draws: seq<real>, k: nat)
    requires AllDraws(draws) && k <= |draws|
    ensures 0.0 <= ProgressAfter(draws) <= 100.0
    ensures ProgressAfter(draws[..k]) <= ProgressAfter(draws)
    ensures ProgressAfter(draws[..k]) == 100.0 ==> ProgressAfter(draws) == 100.0
    decreases |draws|
  {
    if |draws| > 0 {
      var n := |draws| - 1;
      assert draws[..n][..n] == draws[..n];
      if k <= n {
        assert draws[..k] == draws[..n][..k];
        ProgressBoundedAndMonotone(draws[..n], k);
      } else {
        assert draws[..k] == draws;
        ProgressBoundedAndMonotone(draws[..n], n);
      }
    }
  }

  /** The component's progress state. */
  class LoadingScreen {
    var progress: real

    /** Mounting starts the bar at 0. */
    constructor ()
      ensures progress == 0.0
    {
      progress := 0.0;
    }

    /** One 400 ms interval tick with the draw r. */
    method Tick(r: real)
      requires IsDraw(r)
      modifies this
      ensures progress == NextProgress(old(progress), r)
    {
      var next := progress + r * 15.0;
      progress := if next > 100.0 then 100.0 else next;
    }
  }
}
