# BLE Doubt: suspicion classifier and device-metadata store

BLE Doubt watches for Bluetooth beacons that keep showing up near the user.
It stores every detection in a log and keeps one metadata record per device.
A background worker, `HistoryAnalyzer`, looks at each device's trajectory.
It cuts the trajectory into epsilon components: runs of detections with no
gap longer than epsilon. A device is suspicious when one component lasts
longer than a minimum duration and spans more than a minimum diameter. The
worker flags suspicious devices in the store, then raises a notification
for one device or for several.

This project models two parts of that system:

- `classifier.dfy` (module `Classifier`): `TopologicalClassifier`, its
  thresholds and its `isSuspicious` loop. The loop is proved against an
  existential verdict, and the verdict's properties are proved as lemmas.
- `beacon_history.dfy` (module `History`): the `BeaconHistory` store. It is
  a class whose fields are the metadata table (a `map` from Bluetooth
  address to record) and the detection log (a `seq`). `isSafe`,
  `markSafe`, `markSuspicious`, `getTrajectory`, `clearAll` and the
  device-list queries are its methods. The table updates are specified by
  functions on the map, and lemmas about those functions give the
  round-trip, idempotence and frame properties.
- `history_analyzer.dfy` (module `Analysis`): the `analyze` pass, the
  notification choice, and the `HistoryAnalyzer` worker class with its
  logging-mode switch and `doWork`.
- `trajectory.dfy` (module `Trajectories`): the value types. A detection,
  a trajectory (the detections of one device), and an epsilon component
  reduced to its three measures: duration, diameter and diameter lower
  bound. `getEpsilonComponents` is a function the callers pass in (type
  `Segmenter`).

The thresholds are `float` fields in the Java code
(HistoryAnalyzer.java:20-22) and `real`s here. `Trajectory` and its getters
are outside the modelled files; component measures are `real`s as well.

The constructor does not reject negative thresholds: it stores whatever it
is given (HistoryAnalyzer.java:24-28); see
`Classifier.NegativeThresholdAccepted`.

## Model

| member | source | states |
|---|---|---|
| `Classifier.DefaultClassifier` | app/src/main/java/hawk/privacy/bledoubt/HistoryAnalyzer.java:17 | The analyzer's classifier has epsilon 60 s, minimum diameter 300 m and minimum duration 300 s |
| `Classifier.NegativeThresholdAccepted` | app/src/main/java/hawk/privacy/bledoubt/HistoryAnalyzer.java:24-28 | The constructor does no range check: a classifier with minimum duration -1 exists and flags a zero-length component |
| `Classifier.IsSuspicious` | app/src/main/java/hawk/privacy/bledoubt/HistoryAnalyzer.java:30-41 | The scan that stops at the first matching component answers true exactly when some component lasts longer than the minimum duration and has a lower-bound or point diameter above the minimum diameter |
| `Classifier.NoComponentsNeverSuspicious` | app/src/main/java/hawk/privacy/bledoubt/HistoryAnalyzer.java:31-40 | A trajectory with no epsilon components is never suspicious |
| `Classifier.VerdictIgnoresOrder` | app/src/main/java/hawk/privacy/bledoubt/HistoryAnalyzer.java:32-38 | Two component lists with the same elements get the same verdict, whatever their order or repetitions |
| `Classifier.ThresholdsMonotone` | app/src/main/java/hawk/privacy/bledoubt/HistoryAnalyzer.java:33-35 | With epsilon unchanged, raising the minimum duration or diameter can only turn a suspicious verdict off, never on |
| `Classifier.DurationAtThresholdNeverTriggers` | app/src/main/java/hawk/privacy/bledoubt/HistoryAnalyzer.java:33 | For every classifier and component: with the minimum duration equal to the component's duration, the component never triggers, whatever its diameters |
| `Classifier.RaisingThresholdCanClearVerdict` | app/src/main/java/hawk/privacy/bledoubt/HistoryAnalyzer.java:33-35 | The comparisons are strict: a 301 s component triggers at minimum 300 s but not at minimum 301 s |
| `Classifier.LowerBoundRedundant` | app/src/main/java/hawk/privacy/bledoubt/HistoryAnalyzer.java:33-35 | If no component's lower bound exceeds its diameter, the verdict is "some component beats the duration and the point diameter" |
| `Analysis.HistoryAnalyzer.constructor` | app/src/main/java/hawk/privacy/bledoubt/HistoryAnalyzer.java:16-17 | A new worker has analysis enabled and the default classifier |
| `Analysis.HistoryAnalyzer.SetLoggingMode` | app/src/main/java/hawk/privacy/bledoubt/HistoryAnalyzer.java:49-51 | Afterwards, analysis is enabled exactly when logging mode is off |
| `Analysis.HistoryAnalyzer.DoWork` | app/src/main/java/hawk/privacy/bledoubt/HistoryAnalyzer.java:64-72 | With analysis enabled it runs one pass; with it disabled the store is untouched and no notification is raised |
| `Analysis.Analyze` | app/src/main/java/hawk/privacy/bledoubt/HistoryAnalyzer.java:75-95 | The table becomes `Analyzed` of the old table, the log is unchanged, and the notification is the one the new suspicious count calls for |
| `Analysis.ClassifyDevice` | app/src/main/java/hawk/privacy/bledoubt/HistoryAnalyzer.java:81-84 | One device is flagged suspicious exactly when the classifier's verdict on its trajectory is true; nothing else changes |
| `Analysis.Analyzed` | app/src/main/java/hawk/privacy/bledoubt/HistoryAnalyzer.java:80-85 | Same devices; safe flags kept; a device ends suspicious iff it was already or its trajectory is suspicious |
| `Analysis.AnalyzedFlagsExactly` | app/src/main/java/hawk/privacy/bledoubt/HistoryAnalyzer.java:80-85 | The suspicious set after a pass is the old suspicious set plus the devices the classifier flags; no flag is cleared |
| `Analysis.AnalyzedIdempotent` | app/src/main/java/hawk/privacy/bledoubt/HistoryAnalyzer.java:80-85 | A second pass over the same detection log leaves the table as the first pass left it |
| `Analysis.AnalyzedCountGrows` | app/src/main/java/hawk/privacy/bledoubt/HistoryAnalyzer.java:80-87 | A pass never lowers the suspicious count |
| `Analysis.ExpectedNotification` | app/src/main/java/hawk/privacy/bledoubt/HistoryAnalyzer.java:87-93 | No notification at count 0; a single-device notification iff the count is 1, carrying that device's record; a multi-device notification iff the count exceeds 1, carrying the count |
| `Analysis.ChooseNotification` | app/src/main/java/hawk/privacy/bledoubt/HistoryAnalyzer.java:87-93 | The count-then-lookup code yields exactly the expected notification for the current table |
| `History.BeaconHistory.constructor` | app/src/main/java/hawk/privacy/bledoubt/BeaconHistory.java:66-69 | The store holds exactly the given tables |
| `History.BeaconHistory.LoadMetadata` | app/src/main/java/hawk/privacy/bledoubt/BeaconHistory.java:84-91 | Lists every stored record, or every suspicious one, each device once |
| `History.BeaconHistory.GetDeviceList` | app/src/main/java/hawk/privacy/bledoubt/BeaconHistory.java:84-91 | Lists every stored record, each device once |
| `History.SuspiciousDevices` | app/src/main/java/hawk/privacy/bledoubt/BeaconHistory.java:101-103 | The known addresses whose record is flagged suspicious, and only those |
| `History.BeaconHistory.CountSuspiciousDevices` | app/src/main/java/hawk/privacy/bledoubt/BeaconHistory.java:101-103 | Returns the number of records flagged suspicious |
| `History.BeaconHistory.GetSuspiciousDevices` | app/src/main/java/hawk/privacy/bledoubt/BeaconHistory.java:128-130 | Lists every record flagged suspicious and no other, each device once |
| `History.BeaconHistory.IsSafe` | app/src/main/java/hawk/privacy/bledoubt/BeaconHistory.java:137-142 | False for an unknown address; otherwise the record's stored safe flag |
| `History.WithSafe` | app/src/main/java/hawk/privacy/bledoubt/BeaconHistory.java:150-159 | Same keys; an unknown address changes nothing; a known one gets the new safe flag, keeps its suspicious flag, and no other record changes |
| `History.BeaconHistory.MarkSafe` | app/src/main/java/hawk/privacy/bledoubt/BeaconHistory.java:150-159 | Succeeds iff the address is known; the table becomes `WithSafe` of the old one; the detection log is unchanged |
| `History.MarkSafeRoundTrip` | app/src/main/java/hawk/privacy/bledoubt/BeaconHistory.java:137-159 | After a successful `markSafe(a, b)`, `isSafe(a)` answers `b` |
| `History.WithSafeIdempotent` | app/src/main/java/hawk/privacy/bledoubt/BeaconHistory.java:150-159 | Marking safe twice with the same arguments equals marking once |
| `History.WithSafeKeepsSuspicious` | app/src/main/java/hawk/privacy/bledoubt/BeaconHistory.java:150-159 | Marking safe never changes the set of suspicious devices |
| `History.WithSuspicious` | app/src/main/java/hawk/privacy/bledoubt/BeaconHistory.java:167-176 | Same keys; an unknown address changes nothing; a known one gets the new suspicious flag, keeps its safe flag, and no other record changes |
| `History.BeaconHistory.MarkSuspicious` | app/src/main/java/hawk/privacy/bledoubt/BeaconHistory.java:167-176 | Succeeds iff the address is known; the table becomes `WithSuspicious` of the old one; the detection log is unchanged |
| `History.WithSuspiciousIdempotent` | app/src/main/java/hawk/privacy/bledoubt/BeaconHistory.java:167-176 | Marking suspicious twice with the same arguments equals marking once |
| `History.WithSuspiciousAdds` | app/src/main/java/hawk/privacy/bledoubt/BeaconHistory.java:167-176 | Flagging a known device suspicious adds exactly that address to the suspicious set |
| `History.FlagsCommute` | app/src/main/java/hawk/privacy/bledoubt/BeaconHistory.java:150-176 | Setting the safe flag and the suspicious flag of one device gives the same table in either order |
| `History.DetectionsFor` | app/src/main/java/hawk/privacy/bledoubt/BeaconHistory.java:194-196 | A detection occurs in the device's list iff the log holds it and it has that address; the list is never longer than the log |
| `History.DetectionsForCounts` | app/src/main/java/hawk/privacy/bledoubt/BeaconHistory.java:189-196 | All detections of the device: each occurs as many times as in the log, and a detection of another device not at all |
| `History.BeaconHistory.GetTrajectory` | app/src/main/java/hawk/privacy/bledoubt/BeaconHistory.java:194-196 | The trajectory holds the device's detections from the log and no detection of another device |
| `History.BeaconHistory.ClearAll` | app/src/main/java/hawk/privacy/bledoubt/BeaconHistory.java:202-205 | Afterwards there are no metadata records and no detections |

## Left out

- `Trajectory` internals are not part of this model. This covers epsilon segmentation, the haversine diameter and the lower-bound diameter; the distance maths is floating point. A component carries only its three measures, and `getEpsilonComponents` is a `Segmenter` parameter.
- `float` arithmetic: thresholds and measures are exact reals, so rounding and NaN comparisons are not modelled.
- `BeaconDetection` and `DeviceMetadata` are not part of this model beyond the columns it uses. A detection keeps only its device address; a metadata record keeps only the address and the two flags.
- Room database construction (`getAppBeaconHistory`, `HistoryDatabase`) and the `LiveData` queries are framework plumbing. This also covers `getLiveDeviceList`, `getLiveSafeDeviceList`, `getLiveSuspiciousDeviceList` and `getLiveNearbyDeviceList`. The last depends on the wall clock and timestamp strings.
- `toJSONObject`, `loadJSON` and `toString`: JSON serialisers of records that are not part of this model.
- `add`: its effect depends on the insert-conflict strategy of the `HistoryDao` interface, which is outside the modelled files.
- The `HistoryDao` interface and its SQL annotations are outside the modelled files, so the model assumes the selection each query makes:
- `SuspiciousDevices`, `CountSuspiciousDevices` and `GetSuspiciousDevices` assume that `countSuspiciousDevices` and `loadSuspiciousDeviceMetadata` select exactly the records whose `isSuspicious` flag is set, whatever `isSafe` says. So a device the user marked safe still counts toward the notification. Count and list are also assumed to agree, which is what guarantees that the list is non-empty when the count is 1.
- `IsSafe`, `MarkSafe` and `MarkSuspicious` assume that `loadMetadataForDevice` returns the one record stored under the given address, or nothing, and that `updateMetadata` replaces that record.
- `DetectionsFor` assumes that `getDetectionsForDevice` returns exactly the logged detections with that address.
- The order of query results is not modelled: `LoadMetadata` lists records in an unspecified order, and a detection carries only its address, so the order of a device's detections cannot be observed.
- `synchronized` locking and WorkManager scheduling: concurrency and framework concerns. Each method is modelled as atomic.
- Notification delivery through the `Notifications` singleton: only which notification is chosen is modelled. `Worker.Result` is always success and is not modelled.
- Logging (`Log.i`) and the unused `MAX_BLE_RANGE_M` constant.
- `Context` is replaced by the `BeaconHistory` object the pass works on. `analyze` opens a fresh handle on the same database for each lookup; the model uses one store.
