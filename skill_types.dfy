/**
 * The values the skill's turn handler (alexa/index.js) reads and produces:
 * the flat session-attribute bag, the requests the voice platform delivers,
 * and the responses with their directives.
 */
module SkillTypes {
  import opened Wrappers
  import opened JsValues

  /** Namespace and name of the custom control directive sent to the gadget. */
  const Namespace: string := "Custom.Mindstorms.Gadget"
  const NameControl: string := "control"

  /** Interval of the keep-alive event handler, in milliseconds. */
  const TimerMs: int := 60000

  /** Number of keep-alive ticks a session starts with. */
  const InitialDuration: int := 10

  /** The `command` attribute: "", "patrol", "smash" and "elimination?". */
  datatype Command = NoCommand | PatrolCommand | SmashCommand | EliminationQuery

  /**
   * A value stored under `endpointId`: a device id, or the empty array `[]`
   * that the handlers fall back to when no id is at hand.
   */
  datatype Endpoint = Device(id: string) | EmptyArray

  /** A snapshot of the session attributes; None is an attribute never written. */
  datatype Session = Session(
    endpointId: Option<Endpoint>,
    token: Option<string>,
    duration: Option<int>,
    speed: Option<int>,
    speedQ: Option<string>,
    command: Option<Command>,
    all: Option<bool>,
    patrol: Option<bool>,
    enemiesNumeber: JsValue)

  /** The attribute bag of a session nobody has written to yet. */
  const EmptySession: Session :=
    Session(None, None, None, None, None, None, None, None, Undefined)

  /**
   * Slot values of an intent.  `speedQ`, `direction`, `all` and `patrol` are
   * resolved canonical values; `steps` and `enemiesNumeber` are raw values.
   */
  datatype Slots = Slots(
    speedQ: Option<string>,
    direction: Option<string>,
    steps: Option<string>,
    enemiesNumeber: Option<string>,
    all: Option<string>,
    patrol: Option<string>)

  /** The first event of an EventsReceived request: its header name and endpoint id. */
  datatype GadgetEvent = GadgetEvent(name: string, endpointId: string)

  /**
   * The requests the handlers inspect.  For a launch, `endpoints` is the
   * list of endpoint ids the device directory returned (None for an entry
   * without an id; a reply without a list is given as the empty list).
   */
  datatype Request =
    | LaunchRequest(requestId: string, endpoints: seq<Option<string>>)
    | IntentRequest(intent: string, slots: Slots)
    | EventsReceived(token: string, events: seq<GadgetEvent>)
    | Expired(requestId: string)
    | SessionEndedRequest

  /** The instruction body of a control directive. */
  datatype Payload =
    | MoveStepsPayload(direction: JsValue, steps: JsValue, speed: JsValue)
    | PatrolPayload
    | SmashPayload

  datatype Directive =
    | Control(endpoint: Endpoint, namespace: string, name: string, payload: Payload)
    | StartEventHandler(token: string, timeoutMs: int)
    | RenderDocument

  /** The spoken messages, one per distinct text the handlers produce. */
  datatype Speech =
    | NoBrickConnected
    | Welcome
    | SpeedSetTo(qualifier: string)
    | AskValidSpeed
    | ApplyingBrake
    | ExecutingMove(direction: JsValue, steps: string, speedQ: Option<string>)
    | HuntOne
    | HuntAll
    | HuntAndReport
    | IntruderSmashed
    | AskToEliminate
    | ThreatEliminated
    | ThreatEliminatedSearching
    | EventNotRecognized
    | MinutesRemaining(minutes: int)
    | Goodbye
    | ConfirmSmash
    | LeaveTargetAlive
    | NotUnderstood

  /** `shouldEndSession` is None when the handler leaves it unset. */
  datatype Response = Response(speech: Speech, directives: seq<Directive>, shouldEndSession: Option<bool>)

  /** The exceptions a turn can raise; each one ends up at the generic error handler. */
  datatype JsError = ReferenceError | TypeError | NoHandlerFound

  /** A control directive for the given endpoint. */
  function ControlDirective(endpoint: Endpoint, payload: Payload): Directive
  {
    Control(endpoint, Namespace, NameControl, payload)
  }
}
