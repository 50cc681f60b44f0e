/**
 * The result vocabulary of the ad_rss library as the sensor reads it: the
 * response categories of a ProperResponse and the records that the checker
 * fills in. Only the three response fields that the sensor inspects are
 * modelled; the rest of these records is opaque.
 */
module AdRss {

  /** ::ad_rss::state::LongitudinalResponse */
  datatype LongitudinalResponse = None | BrakeMinCorrect | BrakeMin {
    /** The enumerator's name, used to compare it with the public vocabulary. */
    function Name(): string {
      match this
      case None => "None"
      case BrakeMinCorrect => "BrakeMinCorrect"
      case BrakeMin => "BrakeMin"
    }
  }

  /** ::ad_rss::state::LateralResponse */
  datatype LateralResponse = None | BrakeMin {
    function Name(): string {
      match this
      case None => "None"
      case BrakeMin => "BrakeMin"
    }
  }

  /** ::ad_rss::state::ProperResponse, restricted to the fields the sensor reads. */
  datatype ProperResponse = ProperResponse(
    longitudinalResponse: LongitudinalResponse,
    lateralResponseRight: LateralResponse,
    lateralResponseLeft: LateralResponse)

  /** ::ad_rss::world::AccelerationRestriction, passed through unchanged. */
  type AccelerationRestriction(==)

  /** ::ad_rss::world::Velocity, passed through unchanged. */
  type Velocity(==)
}
