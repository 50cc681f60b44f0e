/**
 * The three switches of RssSensor::TickRssSensor that carry the checker's
 * response categories over to the sensor's public vocabulary. Each is total
 * on its closed input set and maps every enumerator to the one of the same
 * name.
 */
module ResponseTranslation {
  import AdRss
  import SensorData

  /** The longitudinal switch. */
  function TranslateLongitudinal(r: AdRss.LongitudinalResponse): (c: SensorData.LongitudinalResponse)
    ensures c.Name() == r.Name()
  {
    match r
    case None => SensorData.LongitudinalResponse.None
    case BrakeMinCorrect => SensorData.LongitudinalResponse.BrakeMinCorrect
    case BrakeMin => SensorData.LongitudinalResponse.BrakeMin
  }

  /** The lateral switch, used once for the right and once for the left side. */
  function TranslateLateral(r: AdRss.LateralResponse): (c: SensorData.LateralResponse)
    ensures c.Name() == r.Name()
  {
    match r
    case None => SensorData.LateralResponse.None
    case BrakeMin => SensorData.LateralResponse.BrakeMin
  }

  /** Every public longitudinal category is reached by exactly one checker category. */
  lemma LongitudinalTranslationIsBijective(c: SensorData.LongitudinalResponse)
    ensures forall r1, r2 :: TranslateLongitudinal(r1) == TranslateLongitudinal(r2) ==> r1 == r2
    ensures exists r :: TranslateLongitudinal(r) == c
  {
    match c
    case None => assert TranslateLongitudinal(AdRss.LongitudinalResponse.None) == c;
    case BrakeMinCorrect => assert TranslateLongitudinal(AdRss.LongitudinalResponse.BrakeMinCorrect) == c;
    case BrakeMin => assert TranslateLongitudinal(AdRss.LongitudinalResponse.BrakeMin) == c;
  }

  /** Every public lateral category is reached by exactly one checker category. */
  lemma LateralTranslationIsBijective(c: SensorData.LateralResponse)
    ensures forall r1, r2 :: TranslateLateral(r1) == TranslateLateral(r2) ==> r1 == r2
    ensures exists r :: TranslateLateral(r) == c
  {
    match c
    case None => assert TranslateLateral(AdRss.LateralResponse.None) == c;
    case BrakeMin => assert TranslateLateral(AdRss.LateralResponse.BrakeMin) == c;
  }
}
