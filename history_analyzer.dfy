/**
 * `HistoryAnalyzer`: the periodic analysis pass. It classifies every known
 * device, flags the suspicious ones in the store, and then chooses which
 * notification to raise from the number of devices flagged suspicious.
 */
module Analysis {
  import opened Trajectories
  import opened Classifier
  import opened History

  /** Which notification the pass raises; delivery itself is not modelled. */
  datatype Notification =
    | NoNotification
    | SingleDevice(device: DeviceMetadata)
    | MultiDevice(count: nat)

  /**
   * The metadata table after one pass: every device whose trajectory the
   * classifier finds suspicious is flagged, every other record is kept as it was.
   */
  function Analyzed(table: MetadataTable, log: seq<BeaconDetection>, c: TopologicalClassifier, segment: Segmenter)
    : (r: MetadataTable)
    ensures r.Keys == table.Keys
    ensures forall a :: a in table ==>
              && r[a].bluetoothAddress == table[a].bluetoothAddress
              && r[a].isSafe == table[a].isSafe
              && (r[a].isSuspicious <==> table[a].isSuspicious || Verdict(c, Trajectory(DetectionsFor(log, a)), segment))
  {
    map a | a in table ::
      if Verdict(c, Trajectory(DetectionsFor(log, a)), segment) then table[a].(isSuspicious := true) else table[a]
  }

  /**
   * The notification for a table: none without suspicious devices, the one
   * device's record when exactly one is flagged, the count when more are.
   */
  ghost function ExpectedNotification(table: MetadataTable): (n: Notification)
    requires WellKeyed(table)
    ensures n.NoNotification? <==> |SuspiciousDevices(table)| == 0
    ensures n.SingleDevice? <==> |SuspiciousDevices(table)| == 1
    ensures n.MultiDevice? <==> |SuspiciousDevices(table)| > 1
    ensures n.SingleDevice? ==>
              && SuspiciousDevices(table) == {n.device.bluetoothAddress}
              && n.device == table[n.device.bluetoothAddress]
    ensures n.MultiDevice? ==> n.count == |SuspiciousDevices(table)|
  {
    var suspects := SuspiciousDevices(table);
    if |suspects| == 0 then NoNotification
    else if |suspects| == 1 then
      var a :| a in suspects;
      SingletonIs(suspects, a);
      SingleDevice(table[a])
    else MultiDevice(|suspects|)
  }

  /** A set of one element is that element's singleton. */
  lemma SingletonIs<T>(s: set<T>, x: T)
    requires x in s && |s| == 1
    ensures s == {x}
  {
    assert |s - {x}| == 0;
  }

  /** No pass ever clears a "suspicious" flag, and every device found suspicious is flagged. */
  lemma AnalyzedFlagsExactly(table: MetadataTable, log: seq<BeaconDetection>, c: TopologicalClassifier, segment: Segmenter)
    ensures SuspiciousDevices(Analyzed(table, log, c, segment))
            == SuspiciousDevices(table) + set a | a in table && Verdict(c, Trajectory(DetectionsFor(log, a)), segment)
  {
  }

  /** A second pass over an unchanged detection log changes nothing. */
  lemma AnalyzedIdempotent(table: MetadataTable, log: seq<BeaconDetection>, c: TopologicalClassifier, segment: Segmenter)
    ensures Analyzed(Analyzed(table, log, c, segment), log, c, segment) == Analyzed(table, log, c, segment)
  {
  }

  /** A pass never lowers the number of suspicious devices. */
  lemma AnalyzedCountGrows(table: MetadataTable, log: seq<BeaconDetection>, c: TopologicalClassifier, segment: Segmenter)
    ensures |SuspiciousDevices(table)| <= |SuspiciousDevices(Analyzed(table, log, c, segment))|
  {
    SubsetCardinality(SuspiciousDevices(table), SuspiciousDevices(Analyzed(table, log, c, segment)));
  }

  lemma {:induction false} SubsetCardinality<T>(a: set<T>, b: set<T>)
    requires a <= b
    ensures |a| <= |b|
    decreases |a|
  {
    if a != {} {
      var x :| x in a;
      SubsetCardinality(a - {x}, b - {x});
    }
  }

  /**
   * `analyze`: classifies each device of the device list, flags the
   * suspicious ones, then raises the notification the suspicious count calls for.
   */
  method Analyze(history: BeaconHistory, classifier: TopologicalClassifier, segment: Segmenter)
    returns (notice: Notification)
    requires history.Valid()
    modifies history
    ensures history.Valid()
    ensures history.detections == old(history.detections)
    ensures history.metadata == Analyzed(old(history.metadata), old(history.detections), classifier, segment)
    ensures notice == ExpectedNotification(history.metadata)
  {
    ghost var table := history.metadata;
    var devices := history.GetDeviceList();
    ghost var visited: set<Address> := {};
    for i := 0 to |devices|
      invariant history.Valid()
      invariant history.detections == old(history.detections)
      invariant forall k :: 0 <= k < i ==> devices[k].bluetoothAddress in visited
      invariant FlaggedOver(table, history.metadata, visited, history.detections, classifier, segment)
    {
      var address := devices[i].bluetoothAddress;
      ghost var before := history.metadata;
      ClassifyDevice(history, address, classifier, segment);
      FlagStep(table, before, visited, address, history.detections, classifier, segment);
      visited := visited + {address};
    }
    forall a | a in table
      ensures a in visited
    {
      assert table[a] in devices;
    }
    AnalyzedByFlags(table, history.metadata, visited, history.detections, classifier, segment);
    notice := ChooseNotification(history);
  }

  /** The body of `analyze`'s loop: classify one device and flag it when it is suspicious. */
  method ClassifyDevice(history: BeaconHistory, address: Address, classifier: TopologicalClassifier, segment: Segmenter)
    requires history.Valid()
    modifies history
    ensures history.Valid()
    ensures history.detections == old(history.detections)
    ensures history.metadata ==
              if Verdict(classifier, Trajectory(DetectionsFor(history.detections, address)), segment)
              then WithSuspicious(old(history.metadata), address, true) else old(history.metadata)
  {
    var trajectory := history.GetTrajectory(address);
    var suspicious := IsSuspicious(classifier, trajectory, segment);
    if suspicious {
      var _ := history.MarkSuspicious(address, true);
    }
  }

  /**
   * `flagged` is `table` with the devices of `visited` flagged exactly when
   * their trajectory is suspicious.
   */
  ghost predicate FlaggedOver(table: MetadataTable, flagged: MetadataTable, visited: set<Address>,
                              log: seq<BeaconDetection>, c: TopologicalClassifier, segment: Segmenter)
  {
    && flagged.Keys == table.Keys
    && forall a :: a in table ==>
         flagged[a] == if a in visited && Verdict(c, Trajectory(DetectionsFor(log, a)), segment)
                       then table[a].(isSuspicious := true) else table[a]
  }

  /** Classifying one more device extends the flagged part by that device. */
  lemma FlagStep(table: MetadataTable, before: MetadataTable, visited: set<Address>, address: Address,
                 log: seq<BeaconDetection>, c: TopologicalClassifier, segment: Segmenter)
    requires FlaggedOver(table, before, visited, log, c, segment)
    ensures FlaggedOver(table,
                        if Verdict(c, Trajectory(DetectionsFor(log, address)), segment)
                        then WithSuspicious(before, address, true) else before,
                        visited + {address}, log, c, segment)
  {
  }

  /** A table flagged device by device over every known address is the analyzed table. */
  lemma AnalyzedByFlags(table: MetadataTable, flagged: MetadataTable, visited: set<Address>,
                        log: seq<BeaconDetection>, c: TopologicalClassifier, segment: Segmenter)
    requires FlaggedOver(table, flagged, visited, log, c, segment) && table.Keys <= visited
    ensures flagged == Analyzed(table, log, c, segment)
  {
  }

  /**
   * The notification step of `analyze`: counts the suspicious devices and,
   * when there is exactly one, takes it from the suspicious-device list.
   */
  method ChooseNotification(history: BeaconHistory) returns (notice: Notification)
    requires history.Valid()
    ensures notice == ExpectedNotification(history.metadata)
  {
    var suspiciousCount := history.CountSuspiciousDevices();
    if suspiciousCount == 1 {
      var suspects := history.GetSuspiciousDevices();
      ghost var a :| a in SuspiciousDevices(history.metadata);
      assert history.metadata[a] in suspects;
      SingletonIs(SuspiciousDevices(history.metadata), suspects[0].bluetoothAddress);
      notice := SingleDevice(suspects[0]);
    } else if suspiciousCount > 1 {
      notice := MultiDevice(suspiciousCount);
    } else {
      notice := NoNotification;
    }
  }

  /**
   * The background worker: it owns a classifier with the default thresholds
   * and a switch that turns analysis off while logging mode is on.
   */
  class HistoryAnalyzer {
    var analysisEnabled: bool
    const classifier: TopologicalClassifier
    const history: BeaconHistory

    constructor (history: BeaconHistory)
      ensures analysisEnabled
      ensures classifier == DefaultClassifier()
      ensures this.history == history
    {
      analysisEnabled := true;
      classifier := DefaultClassifier();
      this.history := history;
    }

    /** `setLoggingMode`: logging mode on suspends analysis, off resumes it. */
    method SetLoggingMode(loggingModeEnabled: bool)
      modifies this`analysisEnabled
      ensures analysisEnabled == !loggingModeEnabled
    {
      analysisEnabled := !loggingModeEnabled;
    }

    /** `doWork`: one analysis pass when analysis is enabled; otherwise nothing at all. */
    method DoWork(segment: Segmenter) returns (notice: Notification)
      requires history.Valid()
      modifies history
      ensures history.Valid()
      ensures history.detections == old(history.detections)
      ensures analysisEnabled ==>
                && history.metadata == Analyzed(old(history.metadata), old(history.detections), classifier, segment)
                && notice == ExpectedNotification(history.metadata)
      ensures !analysisEnabled ==> history.metadata == old(history.metadata) && notice == NoNotification
    {
      if analysisEnabled {
        notice := Analyze(history, classifier, segment);
      } else {
        notice := NoNotification;
      }
    }
  }
}
