/** The simulator-side values the sensor handles without looking inside them. */
module Client {

  /** An actor of the simulation (a vehicle, the sensor's parent). */
  type ActorId(==)

  /** The road map returned by World::GetMap. */
  type MapRef(==)

  /** A sensor transform, as GetTransform returns it. */
  type Transform(==)

  /** The user callback handed to Listen; only its identity matters here. */
  type CallbackId(==)

  /**
   * The timestamp of one simulation tick. The frame counter is an unsigned
   * integer in the simulator; elapsed seconds is a double that the sensor only
   * copies, so it is carried as a real without any arithmetic on it.
   */
  datatype Timestamp = Timestamp(frame: nat, elapsedSeconds: real)
}
