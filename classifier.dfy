/**
 * Request classification (alexa/index.js): every handler's `canHandle`
 * predicate, the order in which the handlers are registered, and the
 * first-match rule that picks the handler for a request.
 */
module Classifier {
  import opened Wrappers
  import opened SkillTypes

  /** The registered handlers; `CommonHandlers` stands for the shared help, cancel/stop, session-ended and intent-reflector handlers. */
  datatype Handler =
    | LaunchRequestHandler
    | SetSpeedIntentHandler
    | SmashIntentHandler
    | MoveIntentHandler
    | EventsReceivedRequestHandler
    | ExpiredRequestHandler
    | YesNoIntentHandler
    | CommonHandlers

  /** What a `canHandle` call does: answer true, answer false, or raise. */
  datatype Verdict = Match | NoMatch | Throws

  /** The order of registration; the first handler whose predicate is true wins. */
  const Registered: seq<Handler> := [
    LaunchRequestHandler,
    SetSpeedIntentHandler,
    SmashIntentHandler,
    MoveIntentHandler,
    EventsReceivedRequestHandler,
    ExpiredRequestHandler,
    YesNoIntentHandler,
    CommonHandlers
  ]

  /** Where a handler stands in the registration order. */
  function Position(h: Handler): (i: nat)
    ensures i < |Registered| && Registered[i] == h
  {
    match h
    case LaunchRequestHandler => 0
    case SetSpeedIntentHandler => 1
    case SmashIntentHandler => 2
    case MoveIntentHandler => 3
    case EventsReceivedRequestHandler => 4
    case ExpiredRequestHandler => 5
    case YesNoIntentHandler => 6
    case CommonHandlers => 7
  }

  function VerdictOf(b: bool): Verdict { if b then Match else NoMatch }

  predicate IsIntent(r: Request, name: string) { r.IntentRequest? && r.intent == name }

  /**
   * The events predicate: the request must be an EventsReceived request, its
   * token must equal the session's `token`, and its first event's endpoint id
   * must equal the session's `endpointId`.  With no event at all, reading the
   * first event's endpoint raises.
   */
  function EventsCanHandle(s: Session, r: Request): (v: Verdict)
    ensures v == Match <==>
      r.EventsReceived? && |r.events| > 0 && s.token == Some(r.token)
      && s.endpointId == Some(Device(r.events[0].endpointId))
    ensures v == Throws <==> r.EventsReceived? && s.token == Some(r.token) && |r.events| == 0
    ensures s.endpointId == Some(EmptyArray) ==> v != Match
  {
    if !r.EventsReceived? then NoMatch
    else if s.token != Some(r.token) then NoMatch
    else if |r.events| == 0 then Throws
    else if s.endpointId != Some(Device(r.events[0].endpointId)) then NoMatch
    else Match
  }

  /**
   * The `canHandle` of each registered handler.  All of them only read the
   * session; only the events predicate can raise.  The shared handlers,
   * whose module is not part of this model, match every intent and the
   * session-ended request.
   */
  function CanHandle(h: Handler, s: Session, r: Request): (v: Verdict)
    ensures v == Throws ==> h == EventsReceivedRequestHandler && r.EventsReceived?
    ensures v == Match && h != EventsReceivedRequestHandler ==> !r.EventsReceived?
  {
    match h
    case LaunchRequestHandler => VerdictOf(r.LaunchRequest?)
    case SetSpeedIntentHandler => VerdictOf(IsIntent(r, "SetSpeedIntent"))
    case SmashIntentHandler => VerdictOf(IsIntent(r, "SmashIntent"))
    case MoveIntentHandler => VerdictOf(IsIntent(r, "MoveIntent"))
    case EventsReceivedRequestHandler => EventsCanHandle(s, r)
    case ExpiredRequestHandler => VerdictOf(r.Expired?)
    case YesNoIntentHandler => VerdictOf(IsIntent(r, "AMAZON.YesIntent") || IsIntent(r, "AMAZON.NoIntent"))
    case CommonHandlers => VerdictOf(r.IntentRequest? || r.SessionEndedRequest?)
  }

  /**
   * The position of the first handler in `hs` whose predicate does not answer
   * false, or |hs| when every predicate answers false.
   */
  function FirstMatch(hs: seq<Handler>, s: Session, r: Request): (k: nat)
    ensures k <= |hs|
    ensures forall j :: 0 <= j < k ==> CanHandle(hs[j], s, r) == NoMatch
    ensures k < |hs| ==> CanHandle(hs[k], s, r) != NoMatch
  {
    if hs == [] then 0
    else if CanHandle(hs[0], s, r) != NoMatch then 0
    else 1 + FirstMatch(hs[1..], s, r)
  }

  /** What classification yields: a handler, a predicate that raised, or no handler at all. */
  datatype Selection = Chosen(handler: Handler) | PredicateRaised | Unhandled

  /** Classification over the registered handlers: the first match wins. */
  function Classify(s: Session, r: Request): (sel: Selection)
    ensures sel.Chosen? ==> sel.handler in Registered && CanHandle(sel.handler, s, r) == Match
    ensures sel.Chosen? ==> forall j :: 0 <= j < |Registered| && Registered[j] == sel.handler ==>
      forall i :: 0 <= i < j ==> CanHandle(Registered[i], s, r) == NoMatch
    ensures sel == Unhandled <==> forall h :: h in Registered ==> CanHandle(h, s, r) == NoMatch
    ensures sel == PredicateRaised ==> r.EventsReceived?
  {
    var k := FirstMatch(Registered, s, r);
    if k == |Registered| then Unhandled
    else if CanHandle(Registered[k], s, r) == Throws then PredicateRaised
    else Chosen(Registered[k])
  }

  /** FirstMatch finds the position of a predicate that answers, when all before it answer false. */
  lemma FirstMatchAt(hs: seq<Handler>, s: Session, r: Request, i: nat)
    requires i < |hs| && CanHandle(hs[i], s, r) != NoMatch
    requires forall j :: 0 <= j < i ==> CanHandle(hs[j], s, r) == NoMatch
    ensures FirstMatch(hs, s, r) == i
  {
  }

  /**
   * The specific handlers' predicates exclude each other, so registration
   * order decides nothing among them: a specific handler is chosen exactly
   * when its own predicate is true.
   */
  lemma ChosenIffOwnPredicate(s: Session, r: Request, h: Handler)
    requires h != CommonHandlers
    ensures Classify(s, r) == Chosen(h) <==> CanHandle(h, s, r) == Match
  {
    if CanHandle(h, s, r) == Match {
      var i := Position(h);
      forall j | 0 <= j < i ensures CanHandle(Registered[j], s, r) == NoMatch {
        assert Registered[j] != h;
      }
      FirstMatchAt(Registered, s, r, i);
    }
  }

  /**
   * An event whose token or endpoint does not match the session falls
   * through every handler: it never reaches the Proximity/Smash logic, and
   * since no later handler takes events, no handler is found.
   */
  lemma UncorrelatedEventFallsThrough(s: Session, r: Request)
    requires r.EventsReceived? && |r.events| > 0
    requires s.token != Some(r.token) || s.endpointId != Some(Device(r.events[0].endpointId))
    ensures Classify(s, r) == Unhandled
  {
  }

  /** Intents not named by a specific handler go to the shared handlers. */
  lemma OtherIntentsGoToCommon(s: Session, r: Request)
    requires r.IntentRequest?
    requires r.intent !in {"SetSpeedIntent", "SmashIntent", "MoveIntent", "AMAZON.YesIntent", "AMAZON.NoIntent"}
    ensures Classify(s, r) == Chosen(CommonHandlers)
  {
    forall j | 0 <= j < 7 ensures CanHandle(Registered[j], s, r) == NoMatch {
    }
    FirstMatchAt(Registered, s, r, 7);
  }
}
