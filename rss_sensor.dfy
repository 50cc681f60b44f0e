/**
 * The RSS sensor object: arming with Listen, disarming with Stop, the per-tick
 * evaluation TickRssSensor and the tick handler that Listen registers with
 * the episode. Foreign calls are parameters: the map the world returns, what
 * the checker answers, whether the weak self-reference still resolves.
 */
module Sensor {
  import opened Common
  import opened Client
  import AdRss
  import SensorData
  import opened TickEvaluation

  /** The arguments of one checkObjects call, apart from the world handle and the out-parameters. */
  datatype CheckCall = CheckCall(
    timestamp: Timestamp, vehicles: seq<ActorId>, egoVehicle: Option<ActorId>, roadMap: Option<MapRef>,
    visualize: bool)

  /**
   * The checker instance (RssCheck). Its algorithm is outside the model: the
   * outcome of each call is supplied by the caller. The ghost log records
   * every call with its arguments.
   */
  class RssCheck {
    ghost var log: seq<CheckCall>

    constructor ()
      ensures log == []
    {
      log := [];
    }

    /** checkObjects: the answer is the supplied outcome; the call and its arguments are logged. */
    method CheckObjects(
      timestamp: Timestamp, vehicles: seq<ActorId>, egoVehicle: Option<ActorId>, roadMap: Option<MapRef>,
      visualize: bool, outcome: Call<CheckerOutputs>) returns (r: Call<CheckerOutputs>)
      modifies this
      ensures r == outcome
      ensures log == old(log) + [CheckCall(timestamp, vehicles, egoVehicle, roadMap, visualize)]
    {
      log := log + [CheckCall(timestamp, vehicles, egoVehicle, roadMap, visualize)];
      r := outcome;
    }
  }

  /** A registered tick handler: the user callback and a weak reference to the sensor. */
  datatype TickHandler = TickHandler(callback: CallbackId, weakSelf: RssSensor)

  /** The part of the episode the sensor uses: the list of tick handlers. */
  class Episode {
    var tickHandlers: seq<TickHandler>

    constructor ()
      ensures tickHandlers == []
    {
      tickHandlers := [];
    }

    /** RegisterOnTickEvent: append a handler. There is no way to remove one. */
    method RegisterOnTickEvent(handler: TickHandler)
      modifies this
      ensures tickHandlers == old(tickHandlers) + [handler]
    {
      tickHandlers := tickHandlers + [handler];
    }
  }

  /** Why Listen throws. */
  datatype ListenError = NotAttachedToVehicle

  class RssSensor {
    const episode: Episode
    /** What the default constructors of the ad_rss records produce; a library constant. */
    const defaults: Defaults
    var parent: Option<ActorId>
    var visualizeResults: bool
    var isListening: bool
    var capturedMap: Option<MapRef>
    var rssCheck: RssCheck?
    var processingLock: bool

    /** A handler bound to this sensor is registered with the episode. */
    ghost predicate Subscribed()
      reads this, episode
    {
      exists h :: h in episode.tickHandlers && h.weakSelf == this
    }

    /**
     * A listening sensor is subscribed, and a subscribed sensor has captured a
     * map and owns a checker, so no handler can run on a half-armed sensor.
     * Listening is not implied: Stop leaves the subscription in place.
     */
    ghost predicate Valid()
      reads this, episode
    {
      (isListening ==> Subscribed()) &&
      (Subscribed() ==> capturedMap.Some? && rssCheck != null)
    }

    /** A sensor as spawned: not listening, no map, no checker, lock free. */
    constructor (episode: Episode, parent: Option<ActorId>, defaults: Defaults)
      ensures Valid()
      ensures this.episode == episode && this.parent == parent && this.defaults == defaults
      ensures !isListening && capturedMap.None? && rssCheck == null && !processingLock && !visualizeResults
    {
      this.episode := episode;
      this.defaults := defaults;
      this.parent := parent;
      visualizeResults := false;
      isListening := false;
      capturedMap := None;
      rssCheck := null;
      processingLock := false;
    }

    /**
     * Listen: a no-op when already listening; throws when the sensor has no
     * parent; otherwise captures the world's map, creates a fresh checker,
     * registers exactly one handler bound to this sensor and `callback`, and
     * sets the listening flag.
     */
    method Listen(callback: CallbackId, worldMap: MapRef) returns (err: Option<ListenError>)
      requires Valid()
      modifies this, episode
      ensures Valid()
      ensures old(isListening) ==> err.None? && unchanged(this, episode)
      ensures !old(isListening) && parent.None? ==>
        err == Some(NotAttachedToVehicle) && unchanged(this, episode) && !isListening
      ensures !old(isListening) && parent.Some? ==>
        err.None? && isListening &&
        capturedMap == Some(worldMap) &&
        rssCheck != null && fresh(rssCheck) && rssCheck.log == [] &&
        episode.tickHandlers == old(episode.tickHandlers) + [TickHandler(callback, this)] &&
        parent == old(parent) && visualizeResults == old(visualizeResults) &&
        processingLock == old(processingLock)
    {
      if isListening {
        return None;
      }
      if parent.None? {
        return Some(NotAttachedToVehicle);
      }
      capturedMap := Some(worldMap);
      rssCheck := new RssCheck();
      var handler := TickHandler(callback, this);
      episode.RegisterOnTickEvent(handler);
      assert handler in episode.tickHandlers;
      isListening := true;
      err := None;
    }

    /** Stop: clears the listening flag and nothing else; the handler stays registered. */
    method Stop()
      requires Valid()
      modifies this`isListening
      ensures Valid() && !isListening
      ensures episode.tickHandlers == old(episode.tickHandlers)
    {
      isListening := false;
    }

    /**
     * TickRssSensor: try the lock; when it is taken, enumerate the vehicles,
     * call the checker and unlock; translate and package the response; on any
     * exception unlock unconditionally and return null. `processingLock` on
     * entry is true when a concurrent evaluation holds the lock.
     */
    method TickRssSensor(timestamp: Timestamp, env: TickEnvironment) returns (data: Option<SensorData.RssResponse>)
      requires Valid() && Subscribed()
      modifies this`processingLock, rssCheck
      ensures Valid()
      ensures data == Evaluate(timestamp, env, defaults, old(processingLock)).data
      ensures processingLock == Evaluate(timestamp, env, defaults, old(processingLock)).lockAfter
      // the checker, when called, receives the tick, the vehicles, the parent and the map captured by Listen
      ensures rssCheck.log == old(rssCheck.log) +
        if Evaluate(timestamp, env, defaults, old(processingLock)).checkerCalls == 1
        then [CheckCall(timestamp, env.vehicles.value, parent, capturedMap, visualizeResults)]
        else []
    {
      var result := false;
      var response := defaults.response;
      var restriction := defaults.accelerationRestriction;
      var egoVelocity := defaults.egoVelocity;
      var threw := false;
      if !processingLock {
        processingLock := true;
        match env.vehicles
        case Throws =>
          threw := true;
        case Returns(vehicles) =>
          var outcome := rssCheck.CheckObjects(timestamp, vehicles, parent, capturedMap, visualizeResults, env.check);
          match outcome
          case Throws =>
            threw := true;
          case Returns(out) =>
            result, response, restriction, egoVelocity := out.result, out.response, out.accelerationRestriction, out.egoVelocity;
            processingLock := false;
      }
      if !threw {
        match env.transform
        case Throws =>
          threw := true;
        case Returns(transform) =>
          data := Some(PackageResponse(timestamp, transform, result, response, restriction, egoVelocity));
      }
      if threw {
        processingLock := false;
        data := None;
      }
    }
  }

  /**
   * The handler lambda registered by Listen, run for one tick: nothing when the
   * weak self-reference no longer resolves, otherwise evaluate and hand a
   * non-null result to the callback. It never reads the listening flag.
   */
  method OnTick(handler: TickHandler, selfAlive: bool, timestamp: Timestamp, env: TickEnvironment)
    returns (delivered: Option<Delivery>)
    requires handler in handler.weakSelf.episode.tickHandlers && handler.weakSelf.Valid()
    modifies handler.weakSelf`processingLock, handler.weakSelf.rssCheck
    ensures handler.weakSelf.Valid()
    ensures delivered ==
      HandleTick(handler.callback, selfAlive, timestamp, env, handler.weakSelf.defaults,
                 old(handler.weakSelf.processingLock)).delivery
    ensures handler.weakSelf.processingLock ==
      HandleTick(handler.callback, selfAlive, timestamp, env, handler.weakSelf.defaults,
                 old(handler.weakSelf.processingLock)).lockAfter
    ensures var self := handler.weakSelf;
      self.rssCheck.log == old(self.rssCheck.log) +
        if HandleTick(handler.callback, selfAlive, timestamp, env, self.defaults, old(self.processingLock)).checkerCalls == 1
        then [CheckCall(timestamp, env.vehicles.value, self.parent, self.capturedMap, self.visualizeResults)]
        else []
  {
    delivered := None;
    if selfAlive {
      var self := handler.weakSelf;
      var data := self.TickRssSensor(timestamp, env);
      if data.Some? {
        delivered := Some(Delivery(handler.callback, data.value));
      }
    }
  }

  /**
   * Listen followed by Stop leaves the handler registered, and the next tick
   * still runs the checker, with the map Listen captured, and hands the
   * checker's answer to the callback.
   */
  method StopKeepsDelivering(sensor: RssSensor, callback: CallbackId, worldMap: MapRef, timestamp: Timestamp, env: TickEnvironment)
    returns (delivered: Option<Delivery>)
    requires sensor.Valid() && !sensor.isListening && sensor.parent.Some? && !sensor.processingLock
    requires env.vehicles.Returns? && env.check.Returns? && env.transform.Returns?
    modifies sensor, sensor.episode
    ensures !sensor.isListening && !sensor.processingLock
    ensures sensor.rssCheck != null &&
      sensor.rssCheck.log == [CheckCall(timestamp, env.vehicles.value, sensor.parent, Some(worldMap), sensor.visualizeResults)]
    ensures delivered.Some? && delivered.value.callback == callback
    ensures delivered.value.response ==
      PackageResponse(timestamp, env.transform.value, env.check.value.result, env.check.value.response,
                      env.check.value.accelerationRestriction, env.check.value.egoVelocity)
  {
    var err := sensor.Listen(callback, worldMap);
    sensor.Stop();
    var handler := sensor.episode.tickHandlers[|sensor.episode.tickHandlers| - 1];
    assert handler == TickHandler(callback, sensor);
    delivered := OnTick(handler, true, timestamp, env);
  }

  /**
   * Listen, Stop, Listen registers a second handler for the same sensor: the
   * already-listening guard does not prevent a duplicate subscription once
   * the flag has been cleared.
   */
  method RelistenAfterStopSubscribesTwice(sensor: RssSensor, first: CallbackId, second: CallbackId, worldMap: MapRef)
    requires sensor.Valid() && !sensor.isListening && sensor.parent.Some?
    modifies sensor, sensor.episode
    ensures sensor.isListening
    ensures sensor.episode.tickHandlers ==
      old(sensor.episode.tickHandlers) + [TickHandler(first, sensor), TickHandler(second, sensor)]
  {
    var err := sensor.Listen(first, worldMap);
    sensor.Stop();
    err := sensor.Listen(second, worldMap);
  }
}
