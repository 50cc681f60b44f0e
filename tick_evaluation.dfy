/**
 * One evaluation of RssSensor::TickRssSensor and one run of the tick handler
 * that Listen registers, as functions of the state of the processing lock on
 * entry and of what the foreign calls do. The lock is a boolean: `lockHeld`
 * on entry means that a concurrent evaluation holds it, so try_lock fails.
 */
module TickEvaluation {
  import opened Common
  import opened Client
  import AdRss
  import SensorData
  import opened ResponseTranslation

  /** What RssCheck::checkObjects returns and writes into its out-parameters. */
  datatype CheckerOutputs = CheckerOutputs(
    result: bool,
    response: AdRss.ProperResponse,
    accelerationRestriction: AdRss.AccelerationRestriction,
    egoVelocity: AdRss.Velocity)

  /**
   * The values of a default-constructed ProperResponse, AccelerationRestriction
   * and Velocity: fixed by the ad_rss library, the same on every tick.
   */
  datatype Defaults = Defaults(
    response: AdRss.ProperResponse,
    accelerationRestriction: AdRss.AccelerationRestriction,
    egoVelocity: AdRss.Velocity)

  /**
   * What the foreign calls of one evaluation do: enumerating the vehicles of
   * the world (GetWorld, GetActors, Filter), the checker call, and reading the
   * sensor transform together with allocating the response. Each may throw.
   */
  datatype TickEnvironment = TickEnvironment(
    vehicles: Call<seq<ActorId>>,
    check: Call<CheckerOutputs>,
    transform: Call<Transform>)

  /**
   * The result of one evaluation: the response (None for the null pointer),
   * the lock on exit, how often the checker was called, and whether the
   * handler released the lock at a moment this call did not hold it.
   */
  datatype TickOutcome = TickOutcome(
    data: Option<SensorData.RssResponse>,
    lockAfter: bool,
    checkerCalls: nat,
    unownedRelease: bool)

  /** The response constructed at the end of the try block. */
  function PackageResponse(
    timestamp: Timestamp, transform: Transform, result: bool, response: AdRss.ProperResponse,
    restriction: AdRss.AccelerationRestriction, egoVelocity: AdRss.Velocity): (r: SensorData.RssResponse)
    ensures r.frame == timestamp.frame && r.elapsedSeconds == timestamp.elapsedSeconds
    ensures r.transform == transform && r.result == result
    ensures r.longitudinalResponse.Name() == response.longitudinalResponse.Name()
    ensures r.lateralResponseRight.Name() == response.lateralResponseRight.Name()
    ensures r.lateralResponseLeft.Name() == response.lateralResponseLeft.Name()
    ensures r.accelerationRestriction == restriction && r.egoVelocity == egoVelocity
  {
    SensorData.RssResponse(
      timestamp.frame, timestamp.elapsedSeconds, transform, result,
      TranslateLongitudinal(response.longitudinalResponse),
      TranslateLateral(response.lateralResponseRight),
      TranslateLateral(response.lateralResponseLeft),
      restriction, egoVelocity)
  }

  /**
   * How the try block ends: the response it returns (None when something in
   * it throws), the number of checker calls, and whether this call still
   * holds the lock at the moment of the throw.
   */
  datatype Attempt = Attempt(data: Option<SensorData.RssResponse>, checkerCalls: nat, holdingAtThrow: bool)

  /** The part of the try block after the lock section: translate and package. */
  function Package(
    timestamp: Timestamp, transform: Call<Transform>, result: bool, response: AdRss.ProperResponse,
    restriction: AdRss.AccelerationRestriction, egoVelocity: AdRss.Velocity, checkerCalls: nat): Attempt
  {
    match transform
    case Throws => Attempt(None, checkerCalls, false)
    case Returns(t) => Attempt(Some(PackageResponse(timestamp, t, result, response, restriction, egoVelocity)), checkerCalls, false)
  }

  /** The try block: lock section when try_lock succeeds, default values when it fails. */
  function TryBlock(timestamp: Timestamp, env: TickEnvironment, defaults: Defaults, lockHeld: bool): Attempt
  {
    if !lockHeld then
      match env.vehicles
      case Throws => Attempt(None, 0, true)
      case Returns(_) =>
        match env.check
        case Throws => Attempt(None, 1, true)
        case Returns(out) =>
          Package(timestamp, env.transform, out.result, out.response, out.accelerationRestriction, out.egoVelocity, 1)
    else
      Package(timestamp, env.transform, false, defaults.response,
              defaults.accelerationRestriction, defaults.egoVelocity, 0)
  }

  /**
   * TickRssSensor as written: the catch handler unlocks the processing lock
   * unconditionally and returns null.
   */
  function Evaluate(timestamp: Timestamp, env: TickEnvironment, defaults: Defaults, lockHeld: bool): (o: TickOutcome)
    // the checker runs at most once, and exactly when try_lock succeeds and the vehicles were enumerated
    ensures o.checkerCalls <= 1
    ensures o.checkerCalls == 1 <==> !lockHeld && env.vehicles.Returns?
    // a lock this call acquired is free again on every exit
    ensures !lockHeld ==> !o.lockAfter
    // a response is produced exactly when no foreign call on the taken path threw
    ensures o.data.Some? <==> env.transform.Returns? && (lockHeld || (env.vehicles.Returns? && env.check.Returns?))
    ensures o.data.Some? ==> o.lockAfter == lockHeld
    // on an exception the result is null and the lock is free, whoever held it
    ensures o.data.None? ==> !o.lockAfter
    // the response carries the tick's timestamp and the transform unchanged
    ensures o.data.Some? ==>
      o.data.value.frame == timestamp.frame && o.data.value.elapsedSeconds == timestamp.elapsedSeconds &&
      o.data.value.transform == env.transform.value
    // under contention: result false and the default-constructed checker response
    ensures o.data.Some? && lockHeld ==>
      o.data.value == PackageResponse(timestamp, env.transform.value, false, defaults.response,
                                      defaults.accelerationRestriction, defaults.egoVelocity)
    // otherwise: the checker's own outputs
    ensures o.data.Some? && !lockHeld ==>
      var out := env.check.value;
      o.data.value == PackageResponse(timestamp, env.transform.value, out.result, out.response,
                                      out.accelerationRestriction, out.egoVelocity)
    // the unconditional unlock hits a lock this call does not hold whenever the packaging step throws
    ensures o.unownedRelease <==> env.transform.Throws? && (lockHeld || (env.vehicles.Returns? && env.check.Returns?))
  {
    var a := TryBlock(timestamp, env, defaults, lockHeld);
    if a.data.None? then TickOutcome(None, false, a.checkerCalls, !a.holdingAtThrow)
    else TickOutcome(a.data, lockHeld, a.checkerCalls, false)
  }

  /**
   * TickRssSensor with the catch handler releasing the lock only when this
   * call still holds it.
   */
  function EvaluateCorrected(timestamp: Timestamp, env: TickEnvironment, defaults: Defaults, lockHeld: bool): (o: TickOutcome)
    // the lock is left exactly as it was found: never released for another evaluation
    ensures o.lockAfter == lockHeld && !o.unownedRelease
    // same response and same checker calls as the code as written
    ensures o.data == Evaluate(timestamp, env, defaults, lockHeld).data
    ensures o.checkerCalls == Evaluate(timestamp, env, defaults, lockHeld).checkerCalls
    // with the lock free on entry the two agree on the lock as well
    ensures !lockHeld ==> o.lockAfter == Evaluate(timestamp, env, defaults, lockHeld).lockAfter
  {
    var a := TryBlock(timestamp, env, defaults, lockHeld);
    if a.data.None? then TickOutcome(None, if a.holdingAtThrow then false else lockHeld, a.checkerCalls, false)
    else TickOutcome(a.data, lockHeld, a.checkerCalls, false)
  }

  /** A response handed to a user callback. */
  datatype Delivery = Delivery(callback: CallbackId, response: SensorData.RssResponse)

  /** The result of one run of the tick handler. */
  datatype HandlerOutcome = HandlerOutcome(delivery: Option<Delivery>, lockAfter: bool, checkerCalls: nat)

  /**
   * The lambda registered by Listen: resolve the weak self-reference, evaluate,
   * and call the callback with a non-null result. It has no listening flag to
   * consult.
   */
  function HandleTick(
    callback: CallbackId, selfAlive: bool, timestamp: Timestamp, env: TickEnvironment, defaults: Defaults, lockHeld: bool)
    : (h: HandlerOutcome)
    // a dead sensor makes the handler a no-op
    ensures !selfAlive ==> h == HandlerOutcome(None, lockHeld, 0)
    // the callback runs exactly when the sensor is alive and the evaluation returned a response
    ensures h.delivery.Some? <==> selfAlive && Evaluate(timestamp, env, defaults, lockHeld).data.Some?
    ensures h.delivery.Some? ==>
      h.delivery.value == Delivery(callback, Evaluate(timestamp, env, defaults, lockHeld).data.value)
    ensures selfAlive ==>
      h.lockAfter == Evaluate(timestamp, env, defaults, lockHeld).lockAfter &&
      h.checkerCalls == Evaluate(timestamp, env, defaults, lockHeld).checkerCalls
  {
    if !selfAlive then HandlerOutcome(None, lockHeld, 0)
    else
      var o := Evaluate(timestamp, env, defaults, lockHeld);
      HandlerOutcome(if o.data.Some? then Some(Delivery(callback, o.data.value)) else None, o.lockAfter, o.checkerCalls)
  }

  /** One delivery of a tick to a registered handler. */
  datatype Tick = Tick(selfAlive: bool, timestamp: Timestamp, env: TickEnvironment)

  /** The deliveries, final lock and total checker calls of a handler over a series of ticks. */
  datatype Run = Run(deliveries: seq<Delivery>, lockAfter: bool, checkerCalls: nat)

  /** One handler receiving the ticks one after another. */
  function DeliverTicks(callback: CallbackId, defaults: Defaults, ticks: seq<Tick>, lockHeld: bool): Run
    decreases |ticks|
  {
    if ticks == [] then Run([], lockHeld, 0)
    else
      var t := ticks[0];
      var h := HandleTick(callback, t.selfAlive, t.timestamp, t.env, defaults, lockHeld);
      var rest := DeliverTicks(callback, defaults, ticks[1..], h.lockAfter);
      Run((if h.delivery.Some? then [h.delivery.value] else []) + rest.deliveries,
          rest.lockAfter, h.checkerCalls + rest.checkerCalls)
  }

  /** A tick on which the sensor is alive and every foreign call returns. */
  predicate Completes(t: Tick)
  {
    t.selfAlive && t.env.vehicles.Returns? && t.env.check.Returns? && t.env.transform.Returns?
  }

  /** Reference: what the checker answered on every completing tick, in tick order. */
  function CheckedDeliveries(callback: CallbackId, ticks: seq<Tick>): seq<Delivery>
    decreases |ticks|
  {
    if ticks == [] then []
    else
      var t := ticks[0];
      (if Completes(t) then
         var out := t.env.check.value;
         [Delivery(callback, PackageResponse(t.timestamp, t.env.transform.value, out.result, out.response,
                                             out.accelerationRestriction, out.egoVelocity))]
       else []) + CheckedDeliveries(callback, ticks[1..])
  }

  /** Reference: the number of ticks on which the sensor is alive and the vehicles are enumerated. */
  function EnumeratedTicks(ticks: seq<Tick>): nat
    decreases |ticks|
  {
    if ticks == [] then 0
    else (if ticks[0].selfAlive && ticks[0].env.vehicles.Returns? then 1 else 0) + EnumeratedTicks(ticks[1..])
  }

  /**
   * Ticks delivered one after another to a handler whose lock starts free
   * never meet contention: every completing tick is evaluated by the checker
   * and reported, nothing else is reported, and the lock ends free.
   */
  lemma {:induction false} SequentialTicksAreAllChecked(callback: CallbackId, defaults: Defaults, ticks: seq<Tick>)
    ensures DeliverTicks(callback, defaults, ticks, false) ==
            Run(CheckedDeliveries(callback, ticks), false, EnumeratedTicks(ticks))
    decreases |ticks|
  {
    if ticks != [] {
      SequentialTicksAreAllChecked(callback, defaults, ticks[1..]);
    }
  }

  /** Reference: the one default response, stamped with each live tick's timestamp and transform. */
  function DefaultDeliveries(callback: CallbackId, d: Defaults, ticks: seq<Tick>): seq<Delivery>
    requires forall i :: 0 <= i < |ticks| ==> ticks[i].env.transform.Returns?
    decreases |ticks|
  {
    if ticks == [] then []
    else
      var t := ticks[0];
      (if t.selfAlive then
         [Delivery(callback, PackageResponse(t.timestamp, t.env.transform.value, false, d.response,
                                             d.accelerationRestriction, d.egoVelocity))]
       else []) + DefaultDeliveries(callback, d, ticks[1..])
  }

  /**
   * While a concurrent evaluation holds the lock and the packaging step never
   * throws, every live tick reports "result false" with one and the same
   * default-constructed checker response, whatever the world and the checker
   * would say; the checker is never called, and the lock stays held.
   */
  lemma {:induction false} ContendedTicksReportDefaults(callback: CallbackId, d: Defaults, ticks: seq<Tick>)
    requires forall i :: 0 <= i < |ticks| ==> ticks[i].env.transform.Returns?
    ensures DeliverTicks(callback, d, ticks, true) == Run(DefaultDeliveries(callback, d, ticks), true, 0)
    decreases |ticks|
  {
    if ticks != [] {
      ContendedTicksReportDefaults(callback, d, ticks[1..]);
    }
  }

  /**
   * The code as written: a throw in the packaging step while another
   * evaluation holds the lock frees that lock, so the next tick runs the
   * checker although the other evaluation has not finished.
   */
  lemma ForeignLockReleaseAdmitsSecondEvaluation(
    callback: CallbackId, defaults: Defaults, first: Timestamp, second: Timestamp,
    failing: TickEnvironment, next: TickEnvironment)
    requires failing.transform.Throws?
    requires next.vehicles.Returns?
    ensures Evaluate(first, failing, defaults, true).unownedRelease
    ensures DeliverTicks(callback, defaults, [Tick(true, first, failing), Tick(true, second, next)], true).checkerCalls == 1
  {
    var ticks := [Tick(true, first, failing), Tick(true, second, next)];
    assert ticks[1..] == [Tick(true, second, next)];
    assert ticks[1..][1..] == [];
    var afterFirst := HandleTick(callback, true, first, failing, defaults, true);
    assert !afterFirst.lockAfter && afterFirst.checkerCalls == 0;
    assert DeliverTicks(callback, defaults, ticks[1..], false).checkerCalls == 1;
  }

  /**
   * The corrected handler on the same two ticks: the throw leaves the other
   * evaluation's lock held, so the next tick does not call the checker.
   */
  lemma CorrectedKeepsForeignLock(
    defaults: Defaults, first: Timestamp, second: Timestamp, failing: TickEnvironment, next: TickEnvironment)
    requires failing.transform.Throws?
    ensures EvaluateCorrected(first, failing, defaults, true).lockAfter
    ensures EvaluateCorrected(second, next, defaults, EvaluateCorrected(first, failing, defaults, true).lockAfter).checkerCalls == 0
  {
  }
}
