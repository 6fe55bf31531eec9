/**
 * The values the suspicion classifier works on: one detection of a beacon,
 * the trajectory of one device, and the epsilon components of a trajectory.
 *
 * How a trajectory is cut into epsilon components, and how the duration and
 * the two diameters of a component are measured, is not part of this model:
 * a component only carries its three measures, and the segmentation is a
 * function the callers pass in (a `Segmenter`).
 */
module Trajectories {

  /** A Bluetooth hardware address, the key of every table of the history. */
  type Address = string

  /**
   * One observation of one device. Only the device address is modelled: the
   * classifier sees detections only through the components the segmenter
   * derives from them.
   */
  datatype BeaconDetection = BeaconDetection(bluetoothAddress: Address)

  /** The detections of one device, as the history hands them out. */
  datatype Trajectory = Trajectory(detections: seq<BeaconDetection>)

  /** The measures of one epsilon component that the classifier compares. */
  datatype Component = Component(duration: real, diameter: real, diameterLowerBound: real)

  /**
   * `Trajectory.getEpsilonComponents`: the components of a trajectory for a
   * given epsilon (in seconds), in order.
   */
  type Segmenter = (Trajectory, real) -> seq<Component>
}
