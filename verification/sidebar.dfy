/** The wizard's step list and the progress bar derived from the current
    path. Icons, labels' styling and the animation are left out. */
module Sidebar {

  datatype StepEntry = StepEntry(path: string, title: string)

  const Steps: seq<StepEntry> := [
    StepEntry("/dashboard", "Intelligence"),
    StepEntry("/radar", "Ad Radar"),
    StepEntry("/analysis", "Analysis"),
    StepEntry("/jackpots", "Jackpots"),
    StepEntry("/generate", "Generation")
  ]

  /** `steps.findIndex(s => s.path === path)`, searching from `from`. */
  function FindIndex(steps: seq<StepEntry>, path: string, from: nat): (i: int)
    requires from <= |steps|
    ensures -1 <= i < |steps|
    ensures i >= 0 ==> from <= i && steps[i].path == path
    ensures i >= 0 ==> forall j :: from <= j < i ==> steps[j].path != path
    ensures i == -1 <==> forall j :: from <= j < |steps| ==> steps[j].path != path
    decreases |steps| - from
  {
    if from == |steps| then -1
    else if steps[from].path == path then from
    else FindIndex(steps, path, from + 1)
  }

  /** `currentIndex`. */
  function CurrentIndex(path: string): (i: int)
    ensures -1 <= i < |Steps|
    ensures i >= 0 ==> Steps[i].path == path
    ensures i == -1 <==> forall j :: 0 <= j < |Steps| ==> Steps[j].path != path
  {
    FindIndex(Steps, path, 0)
  }

  /** `((currentIndex + 1) / STEPS.length) * 100`. The six values it takes (0 for a path that is no step, then 20 to 100)
      are exact in double precision, so real arithmetic gives the same. */
  function Progress(path: string): (p: real)
    ensures 0.0 <= p <= 100.0
    ensures p == 0.0 <==> forall j :: 0 <= j < |Steps| ==> Steps[j].path != path
    ensures p == 100.0 <==> path == "/generate"
  {
    ((CurrentIndex(path) + 1) as real / |Steps| as real) * 100.0
  }

  /** The step list is dashboard, radar, analysis, jackpots, generate. */
  lemma StepOrder()
    ensures |Steps| == 5
    ensures forall i, j :: 0 <= i < j < |Steps| ==> Steps[i].path != Steps[j].path
    ensures Steps[0].path == "/dashboard" && Steps[4].path == "/generate"
  {
  }

  /** The k-th step shows 20 * (k + 1) percent. */
  lemma ProgressOfStep(k: nat)
    requires k < |Steps|
    ensures CurrentIndex(Steps[k].path) == k
    ensures Progress(Steps[k].path) == 20.0 * (k + 1) as real
  {
    StepOrder();
    var i := CurrentIndex(Steps[k].path);
    assert i >= 0;
    assert i == k;
  }

  /** An unknown path shows 0, the last step shows 100, and the bar grows
      strictly along the steps. */
  lemma ProgressBounds(path: string, a: nat, b: nat)
    requires a < b < |Steps|
    ensures (forall j :: 0 <= j < |Steps| ==> Steps[j].path != path) ==> Progress(path) == 0.0
    ensures Progress("/generate") == 100.0
    ensures Progress(Steps[a].path) < Progress(Steps[b].path)
  {
    ProgressOfStep(4);
    ProgressOfStep(a);
    ProgressOfStep(b);
  }
}
