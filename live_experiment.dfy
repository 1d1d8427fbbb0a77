/**
 * The live experiment card: one of three canned experiments is run as a
 * schedule of step callbacks followed by a completion callback, moving the
 * card from idle to running to complete, and the reset link brings it back
 * to idle. Each scheduled callback is one method call, in schedule order.
 */
module LiveExperiment {
  import opened Optional
  import opened Numeric

  datatype Experiment = Experiment(name: string, steps: seq<string>, result: string, duration: nat)

  const Experiments: seq<Experiment> := [
    Experiment("Follower Gap Analysis",
      ["Collecting Instagram data...", "Analyzing 593,000 follower profiles...", "Computing engagement patterns...",
       "Identifying key gaps...", "Generating recommendations..."],
      "Gap identified: YU is 578K followers behind NYU. Critical action required.", 4000),
    Experiment("TikTok Impact Simulation",
      ["Initializing growth model...", "Simulating 2.28% weekly growth...", "Projecting 6-month trajectory...",
       "Calculating ROI metrics...", "Finalizing predictions..."],
      "TikTok could generate +5,000 followers in 3 months with 4x engagement boost.", 4000),
    Experiment("Optimal Posting Analysis",
      ["Scanning 2.4M data points...", "Analyzing posting times...", "Measuring engagement rates...",
       "Detecting patterns...", "Optimizing schedule..."],
      "Optimal: 12 posts/week, 8 PM Wednesday, 2-3 Reels. Expected +67% engagement.", 4000)
  ]

  /** The experiment a render draws. */
  function Choose(r: real): (e: Experiment)
    requires IsDraw(r)
    ensures e in Experiments && |e.steps| == 5
  {
    Experiments[DrawIndex(r, |Experiments|)]
  }

  /** The progress step `i` of `n` sets: `(i + 1) / n * 100`. */
  function StepProgress(i: nat, n: nat): (p: real)
    requires i < n
    ensures 0.0 < p <= 100.0
    ensures p == 100.0 <==> i == n - 1
  {
    ((i + 1) as real / n as real) * 100.0
  }

  /** Each step moves the bar strictly forward. */
  lemma StepProgressIncreases(i: nat, j: nat, n: nat)
    requires i < j < n
    ensures StepProgress(i, n) < StepProgress(j, n)
  {
  }

  /** The label shown while running: the step at `floor(progress / 100 * n)`, or the first step when that is missing or empty. */
  function StepLabel(e: Experiment, progress: real): (l: string)
    requires |e.steps| > 0 && 0.0 <= progress
    ensures l in e.steps
  {
    var idx := ((progress / 100.0) * |e.steps| as real).Floor;
    if idx < |e.steps| && e.steps[idx] != "" then e.steps[idx] else e.steps[0]
  }

  /** After step `i` has fired the label names the following step; after the last, it falls back to the first. */
  lemma LabelAfterStep(e: Experiment, i: nat)
    requires i < |e.steps|
    requires forall k :: 0 <= k < |e.steps| ==> e.steps[k] != ""
    ensures i < |e.steps| - 1 ==> StepLabel(e, StepProgress(i, |e.steps|)) == e.steps[i + 1]
    ensures i == |e.steps| - 1 ==> StepLabel(e, StepProgress(i, |e.steps|)) == e.steps[0]
  {
    var n := |e.steps| as real;
    var p := StepProgress(i, |e.steps|);
    assert p / 100.0 == (i + 1) as real / n;
    assert ((i + 1) as real / n) * n == (i + 1) as real;
    assert ((p / 100.0) * n).Floor == i + 1;
  }

  lemma LabelAtStart(e: Experiment)
    requires |e.steps| > 0
    ensures StepLabel(e, 0.0) == e.steps[0]
  {
  }

  datatype Status = Idle | Running | Complete

  /** The card's state. `run` is the experiment the running schedule belongs to and `fired` the steps already fired. */
  class Card {
    var status: Status
    var progress: real
    var result: Option<string>
    var run: Option<Experiment>
    var fired: nat

    ghost predicate Valid()
      reads this
    {
      (status == Idle ==> progress == 0.0 && result == None)
      && (status == Running ==>
            run.Some? && |run.value.steps| > 0 && fired <= |run.value.steps| && result == None
            && progress == (if fired == 0 then 0.0 else StepProgress(fired - 1, |run.value.steps|)))
      && (status == Complete ==> run.Some? && result == Some(run.value.result) && progress == 100.0)
    }

    /** The Run button is rendered only while idle. */
    predicate RunButtonShown()
      reads this
    {
      status == Idle
    }

    constructor()
      ensures Valid() && status == Idle && run == None
    {
      status, progress, result, run, fired := Idle, 0.0, None, None, 0;
    }

    /** `runExperiment`: start running `e` with an empty bar and no result. */
    method Start(e: Experiment)
      requires Valid() && RunButtonShown() && |e.steps| > 0
      modifies this
      ensures Valid()
      ensures status == Running && progress == 0.0 && result == None
      ensures run == Some(e) && fired == 0
    {
      status, progress, result := Running, 0.0, None;
      run, fired := Some(e), 0;
    }

    /** The next step's timeout fires. */
    method StepFires()
      requires Valid() && status == Running && fired < |run.value.steps|
      modifies this
      ensures Valid()
      ensures status == Running && run == old(run) && fired == old(fired) + 1
      ensures progress == StepProgress(old(fired), |run.value.steps|) && progress > old(progress)
      ensures progress == 100.0 <==> fired == |run.value.steps|
    {
      if fired > 0 {
        StepProgressIncreases(fired - 1, fired, |run.value.steps|);
      }
      progress := StepProgress(fired, |run.value.steps|);
      fired := fired + 1;
    }

    /** The completion timeout, scheduled by the last step: show the result and hand it to `onComplete` when one is given. */
    method Completes(hasOnComplete: bool) returns (reported: Option<string>)
      requires Valid() && status == Running && fired == |run.value.steps|
      modifies this
      ensures Valid()
      ensures status == Complete && result == Some(run.value.result) && run == old(run)
      ensures reported == (if hasOnComplete then result else None)
    {
      status := Complete;
      result := Some(run.value.result);
      reported := if hasOnComplete then result else None;
    }

    /** "Run another experiment". */
    method Reset()
      requires Valid() && status == Complete
      modifies this
      ensures Valid()
      ensures status == Idle && progress == 0.0 && result == None && RunButtonShown()
    {
      status, progress, result := Idle, 0.0, None;
    }
  }
}
