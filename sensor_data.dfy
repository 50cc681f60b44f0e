/**
 * The public result vocabulary of the sensor (carla::sensor::data) and the
 * response record delivered to the user callback.
 */
module SensorData {
  import opened Client
  import AdRss

  /** carla::sensor::data::LongitudinalResponse */
  datatype LongitudinalResponse = None | BrakeMinCorrect | BrakeMin {
    function Name(): string {
      match this
      case None => "None"
      case BrakeMinCorrect => "BrakeMinCorrect"
      case BrakeMin => "BrakeMin"
    }
  }

  /** carla::sensor::data::LateralResponse */
  datatype LateralResponse = None | BrakeMin {
    function Name(): string {
      match this
      case None => "None"
      case BrakeMin => "BrakeMin"
    }
  }

  /** carla::sensor::data::RssResponse: immutable once built. */
  datatype RssResponse = RssResponse(
    frame: nat,
    elapsedSeconds: real,
    transform: Transform,
    result: bool,
    longitudinalResponse: LongitudinalResponse,
    lateralResponseRight: LateralResponse,
    lateralResponseLeft: LateralResponse,
    accelerationRestriction: AdRss.AccelerationRestriction,
    egoVelocity: AdRss.Velocity)
}
