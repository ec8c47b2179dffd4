/**
 * The `handle` half of each handler in alexa/index.js, and the dispatcher
 * that runs the handler classification picks.  Every handler writes into the
 * session's shared attribute bag one attribute at a time and then builds a
 * response; the bag is a class whose fields are the attributes.
 */
module Handlers {
  import opened Wrappers
  import opened JsValues
  import opened SkillTypes
  import opened Classifier

  /** The session-attribute bag the platform hands to every turn. */
  class SessionAttributes {
    var endpointId: Option<Endpoint>
    var token: Option<string>
    var duration: Option<int>
    var speed: Option<int>
    var speedQ: Option<string>
    var command: Option<Command>
    var all: Option<bool>
    var patrol: Option<bool>
    var enemiesNumeber: JsValue

    /** The current contents of the bag as a value. */
    function Snapshot(): Session
      reads this
    {
      Session(endpointId, token, duration, speed, speedQ, command, all, patrol, enemiesNumeber)
    }

    /** The bag as the platform delivers it at the start of a turn. */
    constructor (s: Session)
      ensures Snapshot() == s
    {
      endpointId, token, duration := s.endpointId, s.token, s.duration;
      speed, speedQ, command := s.speed, s.speedQ, s.command;
      all, patrol, enemiesNumeber := s.all, s.patrol, s.enemiesNumeber;
    }
  }

  // ----- Defaults written with `||` -----

  /** `endpointId || []`: the stored endpoint, or the empty array. */
  function EndpointOrEmpty(e: Option<Endpoint>): (r: Endpoint)
    ensures r.Device? <==> e.Some? && e.value.Device?
  {
    match e
    case Some(x) => x
    case None => EmptyArray
  }

  /** `id || []` for an endpoint id from the device directory: an absent or empty id gives the empty array. */
  function EndpointFromId(id: Option<string>): (r: Endpoint)
    ensures r.Device? <==> id.Some? && id.value != ""
    ensures r.Device? ==> r.id == id.value
  {
    if id.Some? && id.value != "" then Device(id.value) else EmptyArray
  }

  /** `speed || 50`: a missing or zero speed reads as 50. */
  function SpeedOrDefault(speed: Option<int>): (n: int)
    ensures n != 0
    ensures speed.Some? && speed.value != 0 ==> n == speed.value
  {
    match speed
    case Some(k) => if k != 0 then k else 50
    case None => 50
  }

  /** `steps || "1"`: a missing or empty steps slot reads as "1". */
  function StepsOrDefault(steps: Option<string>): (s: string)
    ensures s != ""
    ensures steps.Some? && steps.value != "" ==> s == steps.value
  {
    match steps
    case Some(v) => if v != "" then v else "1"
    case None => "1"
  }

  /** `x || 0` for the duration attribute. */
  function DurationOrZero(d: Option<int>): (n: int)
    ensures n == 0 || d == Some(n)
  {
    match d
    case Some(k) => k
    case None => 0
  }

  /** `x || false` for the boolean attributes. */
  function FlagOrFalse(b: Option<bool>): (r: bool)
    ensures r <==> b == Some(true)
  {
    match b
    case Some(v) => v
    case None => false
  }

  /**
   * The speed a qualifier selects: fast 100, medium 50, slow 10; any other
   * value, and a missing or empty one, gives 50.
   */
  function SpeedFor(speedQ: Option<string>): (n: int)
    ensures n == 10 || n == 50 || n == 100
    ensures n == 100 <==> speedQ == Some("fast")
    ensures n == 10 <==> speedQ == Some("slow")
  {
    if !Truthy(FromSlot(speedQ)) then 50
    else match speedQ.value
      case "fast" => 100
      case "medium" => 50
      case "slow" => 10
      case _ => 50
  }

  // ----- The handlers -----

  /**
   * LaunchRequestHandler.  With no endpoint nothing is stored and no timer
   * is started.  Otherwise the first endpoint is bound, the session gets
   * ten keep-alive ticks, the request id becomes the event token, and one
   * 60000 ms event handler carrying that token is started.
   */
  method HandleLaunch(attrs: SessionAttributes, r: Request) returns (resp: Response)
    requires r.LaunchRequest?
    modifies attrs
    ensures |r.endpoints| == 0 ==>
      attrs.Snapshot() == old(attrs.Snapshot())
      && resp == Response(NoBrickConnected, [RenderDocument], None)
    ensures |r.endpoints| > 0 ==>
      attrs.Snapshot() == old(attrs.Snapshot()).(
        endpointId := Some(EndpointFromId(r.endpoints[0])),
        duration := Some(InitialDuration),
        token := Some(r.requestId))
      && resp == Response(Welcome, [StartEventHandler(r.requestId, TimerMs), RenderDocument], None)
  {
    if |r.endpoints| == 0 {
      return Response(NoBrickConnected, [RenderDocument], None);
    }
    attrs.endpointId := Some(EndpointFromId(r.endpoints[0]));
    attrs.duration := Some(InitialDuration);
    var token := r.requestId;
    attrs.token := Some(token);
    resp := Response(Welcome, [StartEventHandler(token, TimerMs), RenderDocument], None);
  }

  /**
   * SetSpeedIntentHandler.  Stores the speed the qualifier selects (50 also
   * when the qualifier is missing) and the qualifier exactly as received.
   */
  method HandleSetSpeed(attrs: SessionAttributes, r: Request) returns (resp: Response)
    requires r.IntentRequest?
    modifies attrs
    ensures attrs.Snapshot() == old(attrs.Snapshot()).(
      speed := Some(SpeedFor(r.slots.speedQ)), speedQ := r.slots.speedQ)
    ensures resp.directives == [] && resp.shouldEndSession == None
    ensures resp.speech == if Truthy(FromSlot(r.slots.speedQ)) then SpeedSetTo(r.slots.speedQ.value) else AskValidSpeed
  {
    var speed := 50;
    var speedQ := r.slots.speedQ;
    var speech;
    if Truthy(FromSlot(speedQ)) {
      match speedQ.value {
        case "fast" => speed := 100;
        case "medium" => speed := 50;
        case "slow" => speed := 10;
        case _ => speed := 50;
      }
      speech := SpeedSetTo(speedQ.value);
    } else {
      speech := AskValidSpeed;
    }
    attrs.speed := Some(speed);
    attrs.speedQ := speedQ;
    resp := Response(speech, [], None);
  }

  /**
   * MoveIntentHandler.  The direction "brake" clears combat mode; any other
   * direction writes nothing.  Every move sends one moveSteps directive with
   * the steps defaulting to "1" and the speed to 50.
   */
  method HandleMove(attrs: SessionAttributes, r: Request) returns (resp: Response)
    requires r.IntentRequest?
    modifies attrs
    ensures r.slots.direction == Some("brake") ==>
      attrs.Snapshot() == old(attrs.Snapshot()).(
        all := Some(false), enemiesNumeber := Num(0), patrol := Some(false), command := Some(NoCommand))
    ensures r.slots.direction != Some("brake") ==> attrs.Snapshot() == old(attrs.Snapshot())
    ensures resp.directives == [ControlDirective(
      EndpointOrEmpty(old(attrs.endpointId)),
      MoveStepsPayload(FromSlot(r.slots.direction), Str(StepsOrDefault(r.slots.steps)), Num(SpeedOrDefault(old(attrs.speed)))))]
    ensures resp.speech == if r.slots.direction == Some("brake") then ApplyingBrake
      else ExecutingMove(FromSlot(r.slots.direction), StepsOrDefault(r.slots.steps), old(attrs.speedQ))
    ensures resp.shouldEndSession == None
  {
    var direction := r.slots.direction;
    var steps := StepsOrDefault(r.slots.steps);
    var speed := SpeedOrDefault(attrs.speed);
    var speedQ := attrs.speedQ;
    var endpoint := EndpointOrEmpty(attrs.endpointId);
    if direction == Some("brake") {
      attrs.all := Some(false);
      attrs.enemiesNumeber := Num(0);
      attrs.patrol := Some(false);
      attrs.command := Some(NoCommand);
    }
    var directive := ControlDirective(endpoint, MoveStepsPayload(FromSlot(direction), Str(steps), Num(speed)));
    var speech := if direction == Some("brake") then ApplyingBrake else ExecutingMove(FromSlot(direction), steps, speedQ);
    resp := Response(speech, [directive], None);
  }

  /**
   * SmashIntent.  Stores the raw count and the `all`/`patrol` flags.  With
   * patrol or all requested it enters patrol mode and sends a patrol
   * directive, except that a count above one raises after `command` was
   * written.  Otherwise the test of the undeclared `enemiesNumber` raises
   * before `command` is written, so the immediate-smash branch is never
   * reached.
   */
  method HandleSmashIntent(attrs: SessionAttributes, r: Request) returns (out: Result<Response, JsError>)
    requires r.IntentRequest?
    modifies attrs
    ensures var count := FromSlot(r.slots.enemiesNumeber);
      var stored := old(attrs.Snapshot()).(
        enemiesNumeber := count, all := Some(r.slots.all == Some("all")), patrol := Some(r.slots.patrol == Some("patrol")));
      if r.slots.patrol == Some("patrol") || r.slots.all == Some("all") then
        attrs.Snapshot() == stored.(command := Some(PatrolCommand))
        && (if LooselyEquals(count, 1) then out == Success(Response(HuntOne, [ControlDirective(EndpointOrEmpty(old(attrs.endpointId)), PatrolPayload)], None))
            else if GreaterThan(count, 1) then out == Failure(ReferenceError)
            else out == Success(Response(
              if Truthy(FromSlot(r.slots.all)) then HuntAll else HuntAndReport,
              [ControlDirective(EndpointOrEmpty(old(attrs.endpointId)), PatrolPayload)], None)))
      else
        attrs.Snapshot() == stored && out == Failure(ReferenceError)
    ensures out.Success? ==> attrs.command == Some(PatrolCommand)
  {
    var count := FromSlot(r.slots.enemiesNumeber);
    attrs.enemiesNumeber := count;
    var all := r.slots.all;
    if all == Some("all") {
      attrs.all := Some(true);
    } else {
      attrs.all := Some(false);
    }
    var endpoint := EndpointOrEmpty(attrs.endpointId);
    var patrol := r.slots.patrol;
    if patrol == Some("patrol") {
      attrs.patrol := Some(true);
    } else {
      attrs.patrol := Some(false);
    }
    if patrol == Some("patrol") || all == Some("all") {
      var directive := ControlDirective(endpoint, PatrolPayload);
      attrs.command := Some(PatrolCommand);
      var speech;
      if LooselyEquals(count, 1) {
        speech := HuntOne;
      } else if GreaterThan(count, 1) {
        // the spoken text reads the undeclared `enemiesNumber`
        return Failure(ReferenceError);
      } else if Truthy(FromSlot(all)) {
        speech := HuntAll;
      } else {
        speech := HuntAndReport;
      }
      out := Success(Response(speech, [directive], None));
    } else {
      // the third operand of the test reads the undeclared `enemiesNumber`
      out := Failure(ReferenceError);
    }
  }

  /**
   * EventsReceivedRequestHandler, run only after its predicate matched.
   * Proximity: in patrol mode with all or a positive count it smashes;
   * otherwise it asks whether to eliminate.  Smash: in combat mode it
   * counts the target off (when the count is truthy) and resumes patrol;
   * otherwise nothing changes.  Any other event changes nothing.
   */
  method HandleEvents(attrs: SessionAttributes, r: Request) returns (resp: Response)
    requires r.EventsReceived? && |r.events| > 0
    modifies attrs
    ensures var s := old(attrs.Snapshot());
      var name := r.events[0].name;
      var count := OrZero(s.enemiesNumeber);
      var endpoint := EndpointOrEmpty(s.endpointId);
      if name == "Proximity" then
        if s.command == Some(PatrolCommand) && (FlagOrFalse(s.all) || GreaterThan(count, 0)) then
          attrs.Snapshot() == s.(command := Some(SmashCommand))
          && resp == Response(IntruderSmashed, [ControlDirective(endpoint, SmashPayload)], Some(false))
        else
          attrs.Snapshot() == s.(command := Some(EliminationQuery))
          && resp == Response(AskToEliminate, [], Some(false))
      else if name == "Smash" then
        if FlagOrFalse(s.all) || GreaterThan(count, 0) || FlagOrFalse(s.patrol) then
          attrs.Snapshot() == s.(
            enemiesNumeber := if Truthy(count) then MinusOne(count) else s.enemiesNumeber,
            command := Some(PatrolCommand))
          && resp == Response(ThreatEliminatedSearching, [ControlDirective(endpoint, PatrolPayload)], None)
        else
          attrs.Snapshot() == s && resp == Response(ThreatEliminated, [], None)
      else
        attrs.Snapshot() == s && resp == Response(EventNotRecognized, [], None)
  {
    var name := r.events[0].name;
    var count := OrZero(attrs.enemiesNumeber);
    var all := FlagOrFalse(attrs.all);
    var patrol := FlagOrFalse(attrs.patrol);
    var command := attrs.command;
    var endpoint := EndpointOrEmpty(attrs.endpointId);
    if name == "Proximity" {
      if command == Some(PatrolCommand) && (all || GreaterThan(count, 0)) {
        var directive := ControlDirective(endpoint, SmashPayload);
        attrs.command := Some(SmashCommand);
        resp := Response(IntruderSmashed, [directive], Some(false));
      } else {
        attrs.command := Some(EliminationQuery);
        resp := Response(AskToEliminate, [], Some(false));
      }
    } else if name == "Smash" {
      if all || GreaterThan(count, 0) || patrol {
        if Truthy(count) {
          count := MinusOne(count);
          attrs.enemiesNumeber := count;
        }
        var directive := ControlDirective(endpoint, PatrolPayload);
        attrs.command := Some(PatrolCommand);
        resp := Response(ThreatEliminatedSearching, [directive], None);
      } else {
        resp := Response(ThreatEliminated, [], None);
      }
    } else {
      resp := Response(EventNotRecognized, [], None);
    }
  }

  /**
   * ExpiredRequestHandler.  The request id always becomes the new token.
   * With ticks left, one tick is used up and the timer is re-armed; with
   * none (or none recorded), the session ends with a goodbye.
   */
  method HandleExpired(attrs: SessionAttributes, r: Request) returns (resp: Response)
    requires r.Expired?
    modifies attrs
    ensures var d := DurationOrZero(old(attrs.duration));
      if d > 0 then
        attrs.Snapshot() == old(attrs.Snapshot()).(token := Some(r.requestId), duration := Some(d - 1))
        && resp == Response(MinutesRemaining(d - 1), [StartEventHandler(r.requestId, TimerMs)], None)
      else
        attrs.Snapshot() == old(attrs.Snapshot()).(token := Some(r.requestId))
        && resp == Response(Goodbye, [], Some(true))
  {
    var token := r.requestId;
    attrs.token := Some(token);
    var duration := DurationOrZero(attrs.duration);
    if duration > 0 {
      duration := duration - 1;
      attrs.duration := Some(duration);
      resp := Response(MinutesRemaining(duration), [StartEventHandler(token, TimerMs)], None);
    } else {
      resp := Response(Goodbye, [], Some(true));
    }
  }

  /**
   * YesNoIntentHandler.  Acts only while the skill awaits an elimination
   * answer: yes smashes, no retreats three steps at speed 50 and clears the
   * command; both keep the session open.  In any other mode it changes
   * nothing and asks the user to repeat.
   */
  method HandleYesNo(attrs: SessionAttributes, r: Request) returns (resp: Response)
    requires r.IntentRequest?
    modifies attrs
    ensures var s := old(attrs.Snapshot());
      var endpoint := EndpointOrEmpty(s.endpointId);
      if s.command != Some(EliminationQuery) then
        attrs.Snapshot() == s && resp == Response(NotUnderstood, [], None)
      else if r.intent == "AMAZON.YesIntent" then
        attrs.Snapshot() == s.(command := Some(SmashCommand))
        && resp == Response(ConfirmSmash, [ControlDirective(endpoint, SmashPayload)], Some(false))
      else
        attrs.Snapshot() == s.(command := Some(NoCommand))
        && resp == Response(LeaveTargetAlive,
             [ControlDirective(endpoint, MoveStepsPayload(Str("backwards"), Num(3), Num(50)))], Some(false))
  {
    var command := attrs.command;
    var endpoint := EndpointOrEmpty(attrs.endpointId);
    if command == Some(EliminationQuery) {
      if r.intent == "AMAZON.YesIntent" {
        var directive := ControlDirective(endpoint, SmashPayload);
        attrs.command := Some(SmashCommand);
        resp := Response(ConfirmSmash, [directive], Some(false));
      } else {
        var directive := ControlDirective(endpoint, MoveStepsPayload(Str("backwards"), Num(3), Num(50)));
        attrs.command := Some(NoCommand);
        resp := Response(LeaveTargetAlive, [directive], Some(false));
      }
    } else {
      resp := Response(NotUnderstood, [], None);
    }
  }

  // ----- Dispatch -----

  /**
   * What a turn yields: a handler's response, an exception for the generic
   * error handler, or a request passed to the shared handlers.
   */
  datatype Outcome = Handled(handler: Handler, response: Response) | Failed(error: JsError) | Delegated

  /**
   * One turn: classify the request over the registered handlers and run the
   * chosen one.  When no handler is chosen, or a predicate raises, the bag
   * is left as it was.  An exception raised by a handler keeps the
   * attributes it wrote before raising.
   */
  method Dispatch(attrs: SessionAttributes, r: Request) returns (out: Outcome)
    modifies attrs
    ensures var sel := Classify(old(attrs.Snapshot()), r);
      && (sel == Unhandled ==> out == Failed(NoHandlerFound) && attrs.Snapshot() == old(attrs.Snapshot()))
      && (sel == PredicateRaised ==> out == Failed(TypeError) && attrs.Snapshot() == old(attrs.Snapshot()))
      && (sel == Chosen(CommonHandlers) ==> out == Delegated && attrs.Snapshot() == old(attrs.Snapshot()))
      && (sel.Chosen? && sel.handler != CommonHandlers ==>
            (out.Handled? && out.handler == sel.handler)
            || (sel.handler == SmashIntentHandler && out == Failed(ReferenceError)))
  {
    var sel := Classify(attrs.Snapshot(), r);
    match sel
    case Unhandled => out := Failed(NoHandlerFound);
    case PredicateRaised => out := Failed(TypeError);
    case Chosen(h) =>
      match h
      case LaunchRequestHandler =>
        var resp := HandleLaunch(attrs, r);
        out := Handled(h, resp);
      case SetSpeedIntentHandler =>
        var resp := HandleSetSpeed(attrs, r);
        out := Handled(h, resp);
      case SmashIntentHandler =>
        var res := HandleSmashIntent(attrs, r);
        out := if res.Success? then Handled(h, res.value) else Failed(res.error);
      case MoveIntentHandler =>
        var resp := HandleMove(attrs, r);
        out := Handled(h, resp);
      case EventsReceivedRequestHandler =>
        var resp := HandleEvents(attrs, r);
        out := Handled(h, resp);
      case ExpiredRequestHandler =>
        var resp := HandleExpired(attrs, r);
        out := Handled(h, resp);
      case YesNoIntentHandler =>
        var resp := HandleYesNo(attrs, r);
        out := Handled(h, resp);
      case CommonHandlers => out := Delegated;
  }

  // ----- Consequences over several turns -----

  /**
   * Keep-alive countdown: from one remaining tick, the first expiry uses it
   * up and re-arms the timer, and the next one ends the session.
   */
  method ExpiryCountsDown(s: Session, firstId: string, secondId: string) returns (first: Response, second: Response)
    requires s.duration == Some(1)
    ensures first == Response(MinutesRemaining(0), [StartEventHandler(firstId, TimerMs)], None)
    ensures second == Response(Goodbye, [], Some(true))
  {
    var attrs := new SessionAttributes(s);
    first := HandleExpired(attrs, Expired(firstId));
    second := HandleExpired(attrs, Expired(secondId));
  }

  /**
   * After a launch that found a device, an event from that device carrying
   * the launch request id as its token is dispatched to the events handler.
   */
  method LaunchAcceptsItsGadgetEvents(s: Session, launchId: string, device: string, eventName: string)
    returns (out: Outcome)
    requires device != ""
    ensures out.Handled? && out.handler == EventsReceivedRequestHandler
  {
    var attrs := new SessionAttributes(s);
    var _ := HandleLaunch(attrs, LaunchRequest(launchId, [Some(device)]));
    var event := EventsReceived(launchId, [GadgetEvent(eventName, device)]);
    ChosenIffOwnPredicate(attrs.Snapshot(), event, EventsReceivedRequestHandler);
    out := Dispatch(attrs, event);
  }
}
