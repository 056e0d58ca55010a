/** The shared distance thresholds of the application. */
module Distances {

  /** Distance within which a recording card is loaded. */
  const LOAD_DISTANCE: real := 20.0
  /** Distance beyond which a loaded recording card is unloaded. */
  const UNLOAD_DISTANCE: real := 40.0
  /** Distance within which a map marker can be interacted with. */
  const INTERACTION_DISTANCE: real := 40.0

  /** The thresholds leave a non-empty hysteresis band, and interaction reaches exactly
      as far as unloading does. */
  lemma ThresholdOrder()
    ensures 0.0 < LOAD_DISTANCE < UNLOAD_DISTANCE
    ensures UNLOAD_DISTANCE - LOAD_DISTANCE == 20.0
    ensures INTERACTION_DISTANCE == UNLOAD_DISTANCE
  {
  }
}
