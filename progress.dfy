/**
 * The progress bars of StoryProgress: one bar per story, each animating to
 * a target width in percent chosen by comparing its index with the current
 * story's index. The animation itself is presentation.
 */
module Progress {

  /** ProgressBar's target width. */
  function BarTarget(index: int, currentIndex: int, progress: real): real
  {
    if index < currentIndex then 100.0
    else if index == currentIndex then progress * 100.0
    else 0.0
  }

  /** StoryProgress: `Array.from({ length: totalStories })`, a negative length giving no bar. */
  function BarTargets(totalStories: int, currentIndex: int, progress: real): (r: seq<real>)
    ensures |r| == if totalStories > 0 then totalStories else 0
    ensures forall i :: 0 <= i < |r| ==> r[i] == BarTarget(i, currentIndex, progress)
  {
    var n := if totalStories > 0 then totalStories else 0;
    seq(n, i => BarTarget(i, currentIndex, progress))
  }

  /** Completed bars are full, the current bar shows the progress, later bars are empty. */
  lemma BarTargetCases(index: int, currentIndex: int, progress: real)
    ensures index < currentIndex ==> BarTarget(index, currentIndex, progress) == 100.0
    ensures index == currentIndex ==> BarTarget(index, currentIndex, progress) == progress * 100.0
    ensures index > currentIndex ==> BarTarget(index, currentIndex, progress) == 0.0
  {
  }

  /** With progress in [0, 1] every target lies in [0, 100] and the targets never increase left to right. */
  lemma TargetsBoundedAndNonIncreasing(totalStories: int, currentIndex: int, progress: real)
    requires 0.0 <= progress <= 1.0
    ensures var r := BarTargets(totalStories, currentIndex, progress);
      && (forall i :: 0 <= i < |r| ==> 0.0 <= r[i] <= 100.0)
      && (forall i, j :: 0 <= i <= j < |r| ==> r[j] <= r[i])
  {
  }

  /** Full bars count the stories before the current one; the sum of the targets is progress past it. */
  function SumTargets(r: seq<real>): real
  {
    if r == [] then 0.0 else SumTargets(r[..|r| - 1]) + r[|r| - 1]
  }

  lemma {:induction false} SumOfPrefix(n: nat, currentIndex: int, progress: real)
    requires 0 <= currentIndex < n
    ensures SumTargets(BarTargets(n, currentIndex, progress))
      == 100.0 * currentIndex as real + progress * 100.0
    decreases n
  {
    var r := BarTargets(n, currentIndex, progress);
    assert r[..n - 1] == BarTargets(n - 1, currentIndex, progress);
    if n - 1 > currentIndex {
      SumOfPrefix(n - 1, currentIndex, progress);
    } else {
      AllFull(n - 1, currentIndex, progress);
    }
  }

  lemma {:induction false} AllFull(n: nat, currentIndex: int, progress: real)
    requires n <= currentIndex
    ensures SumTargets(BarTargets(n, currentIndex, progress)) == 100.0 * n as real
    decreases n
  {
    if n > 0 {
      var r := BarTargets(n, currentIndex, progress);
      assert r[..n - 1] == BarTargets(n - 1, currentIndex, progress);
      AllFull(n - 1, currentIndex, progress);
    }
  }
}
