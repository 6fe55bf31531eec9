/**
 * `HistoryAnalyzer.TopologicalClassifier`: a device is suspicious when one
 * epsilon component of its trajectory lasts longer than the minimum duration
 * and spans more than the minimum diameter, by either diameter measure.
 */
module Classifier {
  import opened Trajectories

  /**
   * The classifier's three thresholds. The constructor stores them as given
   * and checks no range: any reals, negative ones included, make a classifier.
   */
  datatype TopologicalClassifier = TopologicalClassifier(
    epsilonSeconds: real,
    minDiameterMeters: real,
    minDurationSeconds: real)

  /** The classifier every `HistoryAnalyzer` is created with. */
  function DefaultClassifier(): (c: TopologicalClassifier)
    ensures c.epsilonSeconds == 60.0
    ensures c.minDiameterMeters == 300.0
    ensures c.minDurationSeconds == 300.0
  {
    TopologicalClassifier(60.0, 300.0, 300.0)
  }

  /** The test applied to one component; both comparisons are strict. */
  predicate Triggers(c: TopologicalClassifier, component: Component)
  {
    && component.duration > c.minDurationSeconds
    && (component.diameterLowerBound > c.minDiameterMeters || component.diameter > c.minDiameterMeters)
  }

  /** Some component of `components` passes the test. */
  predicate AnyTriggers(c: TopologicalClassifier, components: seq<Component>)
  {
    exists i :: 0 <= i < |components| && Triggers(c, components[i])
  }

  /** The verdict on a trajectory: some epsilon component passes the test. */
  predicate Verdict(c: TopologicalClassifier, trajectory: Trajectory, segment: Segmenter)
  {
    AnyTriggers(c, segment(trajectory, c.epsilonSeconds))
  }

  /**
   * `isSuspicious`: scans the components in order and answers true at the
   * first one that passes the test, false when none does.
   */
  method IsSuspicious(c: TopologicalClassifier, trajectory: Trajectory, segment: Segmenter)
    returns (suspicious: bool)
    ensures suspicious <==> Verdict(c, trajectory, segment)
  {
    var components := segment(trajectory, c.epsilonSeconds);
    for i := 0 to |components|
      invariant forall k :: 0 <= k < i ==> !Triggers(c, components[k])
    {
      var component := components[i];
      if component.duration > c.minDurationSeconds &&
         (component.diameterLowerBound > c.minDiameterMeters || component.diameter > c.minDiameterMeters)
      {
        return true;
      }
    }
    return false;
  }

  /** A trajectory without epsilon components is never suspicious. */
  lemma NoComponentsNeverSuspicious(c: TopologicalClassifier, trajectory: Trajectory, segment: Segmenter)
    requires segment(trajectory, c.epsilonSeconds) == []
    ensures !Verdict(c, trajectory, segment)
  {
  }

  /**
   * The verdict depends only on which components occur, not on their order
   * or on how often each occurs.
   */
  lemma VerdictIgnoresOrder(c: TopologicalClassifier, cs: seq<Component>, ds: seq<Component>)
    requires forall x :: x in cs <==> x in ds
    ensures AnyTriggers(c, cs) <==> AnyTriggers(c, ds)
  {
    if AnyTriggers(c, cs) {
      var i :| 0 <= i < |cs| && Triggers(c, cs[i]);
      assert cs[i] in ds;
      var j :| 0 <= j < |ds| && ds[j] == cs[i];
    }
    if AnyTriggers(c, ds) {
      var j :| 0 <= j < |ds| && Triggers(c, ds[j]);
      assert ds[j] in cs;
      var i :| 0 <= i < |cs| && cs[i] == ds[j];
    }
  }

  /**
   * Raising the minimum duration or the minimum diameter (same epsilon)
   * never turns a "not suspicious" verdict into "suspicious".
   */
  lemma ThresholdsMonotone(lo: TopologicalClassifier, hi: TopologicalClassifier, trajectory: Trajectory, segment: Segmenter)
    requires hi.epsilonSeconds == lo.epsilonSeconds
    requires hi.minDurationSeconds >= lo.minDurationSeconds
    requires hi.minDiameterMeters >= lo.minDiameterMeters
    ensures Verdict(hi, trajectory, segment) ==> Verdict(lo, trajectory, segment)
  {
  }

  /**
   * Strictness in general: once the minimum duration reaches a component's
   * duration, that component no longer triggers, whatever its diameters.
   */
  lemma DurationAtThresholdNeverTriggers(c: TopologicalClassifier, component: Component)
    ensures !Triggers(c.(minDurationSeconds := component.duration), component)
  {
  }

  /**
   * The comparisons are strict: a component exactly at the minimum duration
   * does not count, so raising a threshold can turn "suspicious" into
   * "not suspicious".
   */
  lemma RaisingThresholdCanClearVerdict()
    ensures Triggers(DefaultClassifier(), Component(301.0, 400.0, 0.0))
    ensures !Triggers(TopologicalClassifier(60.0, 300.0, 301.0), Component(301.0, 400.0, 0.0))
  {
  }

  /**
   * When no component's lower bound exceeds its point-estimate diameter,
   * the lower-bound comparison adds nothing to the verdict.
   */
  lemma LowerBoundRedundant(c: TopologicalClassifier, cs: seq<Component>)
    requires forall k :: 0 <= k < |cs| ==> cs[k].diameterLowerBound <= cs[k].diameter
    ensures AnyTriggers(c, cs) <==>
            exists k :: 0 <= k < |cs| && cs[k].duration > c.minDurationSeconds && cs[k].diameter > c.minDiameterMeters
  {
  }

  /**
   * No range check: a classifier with a negative minimum duration exists and
   * flags a component of duration zero.
   */
  lemma NegativeThresholdAccepted()
    ensures Triggers(TopologicalClassifier(60.0, 300.0, -1.0), Component(0.0, 400.0, 0.0))
  {
  }
}
