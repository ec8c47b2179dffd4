/**
 * The gadget side (lego/hammer.py): the direction words, the heading and
 * position bookkeeping of the patrol, and the mode flags the control
 * directives drive.  Motors, sensors, lights, sound and the two background
 * threads are not modelled.
 */
module Gadget {
  import opened Wrappers

  /** The movement commands; each is spoken as any of its words. */
  datatype Direction = Forward | Backward | Left | Right | Stop | Pause

  /** The words of each movement command. */
  function Words(d: Direction): seq<string>
  {
    match d
    case Forward => ["forward", "forwards", "go forward"]
    case Backward => ["backward", "back", "backwards", "go backward"]
    case Left => ["left", "go left"]
    case Right => ["right", "go right"]
    case Stop => ["stop", "brake", "halt"]
    case Pause => ["pause"]
  }

  /** The words the patrol picks its moves from (backward is not among them). */
  const PatrolWords: seq<string> := ["forward", "left", "right"]

  /** The four headings, clockwise from the start heading, and the turn each word implies. */
  const Headings: seq<string> := ["forward", "right", "backward", "left"]
  const Offsets: seq<int> := [0, 1, 0, -1]

  /** The event names the gadget sends to the skill. */
  datatype EventName = Proximity | Smash
  {
    function Value(): string
    {
      match this
      case Proximity => "Proximity"
      case Smash => "Smash"
    }
  }

  /**
   * A decoded control payload: the keys present in it.  `steps` and `speed`
   * are the integers `int()` makes of them.
   */
  datatype ControlPayload = ControlPayload(
    kind: Option<string>,
    direction: Option<string>,
    steps: Option<int>,
    speed: Option<int>)

  function Abs(n: int): nat { if n < 0 then -n else n }

  /**
   * Heading index after adding an offset, wrapping below 0 to 3 and above 3
   * to 0.  For a heading and a one-step turn this is addition modulo 4.
   */
  function NewIndex(index: int, offset: int): (r: int)
    ensures 0 <= r <= 3
    ensures 0 <= index <= 3 && -1 <= offset <= 1 ==> r == (index + offset) % 4
  {
    var i := index + offset;
    var i := if i < 0 then 3 else i;
    if i > 3 then 0 else i
  }

  /** The position of a heading word in the list of headings. */
  function HeadingIndex(w: string): (k: nat)
    requires w in Headings
    ensures k < |Headings| && Headings[k] == w
  {
    if w == Headings[0] then 0
    else if w == Headings[1] then 1
    else if w == Headings[2] then 2
    else 3
  }

  /** The heading a move word leads to from heading `index`, as the zone check reckons it. */
  function RealIndex(index: int, w: string): int
    requires w in Headings
  {
    NewIndex(index, Offsets[HeadingIndex(w)])
  }

  /** Unit steps along x and y for each heading: forward +y, right +x, backward -y, left -x. */
  function UnitX(h: int): int requires 0 <= h < 4 { [0, 1, 0, -1][h] }
  function UnitY(h: int): int requires 0 <= h < 4 { [1, 0, -1, 0][h] }

  /** The point `steps` unit steps from (x, y) along the heading the move word leads to. */
  function TargetOf(index: int, x: int, y: int, w: string, steps: int): (int, int)
    requires w in Headings
  {
    var h := RealIndex(index, w);
    (x + steps * UnitX(h), y + steps * UnitY(h))
  }

  /** The target as the four named headings give it, one coordinate changing by `steps`. */
  lemma TargetByHeading(index: int, x: int, y: int, w: string, steps: int)
    requires w in Headings
    ensures var h := Headings[RealIndex(index, w)];
      && (h == "forward" ==> TargetOf(index, x, y, w, steps) == (x, y + steps))
      && (h == "backward" ==> TargetOf(index, x, y, w, steps) == (x, y - steps))
      && (h == "left" ==> TargetOf(index, x, y, w, steps) == (x - steps, y))
      && (h == "right" ==> TargetOf(index, x, y, w, steps) == (x + steps, y))
  {
  }

  /** Inside the 6x6 square of steps centred on the start point. */
  predicate InZone(p: (int, int)) { Abs(p.0) <= 3 && Abs(p.1) <= 3 }

  /**
   * The heading after a move command: a left word turns one position
   * anticlockwise, a right word one position clockwise, every other word
   * keeps the heading.
   */
  function TurnedIndex(index: int, w: string): (r: int)
    requires 0 <= index < 4
    ensures 0 <= r < 4
    ensures w in Words(Left) ==> r == (index + 3) % 4
    ensures w in Words(Right) ==> r == (index + 1) % 4
    ensures w !in Words(Left) && w !in Words(Right) ==> r == index
  {
    if w in Words(Left) then NewIndex(index, -1)
    else if w in Words(Right) then NewIndex(index, 1)
    else index
  }

  /** No word belongs to two movement commands, so at most one branch of a move fires. */
  lemma WordListsDisjoint(d1: Direction, d2: Direction, w: string)
    requires d1 != d2 && w in Words(d1)
    ensures w !in Words(d2)
  {
  }

  /**
   * A patrol move is reckoned along the heading the robot faces after
   * making it: the zone check's heading equals the heading the move
   * command leaves behind.
   */
  lemma PatrolMoveFacesItsTarget(index: int, w: string)
    requires 0 <= index < 4 && w in PatrolWords
    ensures w in Headings && RealIndex(index, w) == TurnedIndex(index, w)
  {
  }

  /** The brick: its mode flags, its heading and its position in the patrol square. */
  class MindstormsGadget {
    var patrolMode: bool
    var enemyNotDetected: bool
    var positionX: int
    var positionY: int
    var index: int
    var pointing: string
    /** The custom events sent to the skill, oldest first. */
    var sentEvents: seq<EventName>

    /** The heading is one of the four and `pointing` names it; the position stays in the square. */
    ghost predicate Valid()
      reads this
    {
      0 <= index < |Headings| && pointing == Headings[index]
      && InZone((positionX, positionY))
    }

    constructor ()
      ensures Valid()
      ensures !patrolMode && enemyNotDetected
      ensures positionX == 0 && positionY == 0
      ensures index == 0 && pointing == "forward"
      ensures sentEvents == []
    {
      patrolMode := false;
      enemyNotDetected := true;
      positionX := 0;
      positionY := 0;
      index := 0;
      pointing := Headings[0];
      sentEvents := [];
    }

    /**
     * The zone check of the patrol: reports whether `steps` steps along the
     * word's heading would leave the square; when they would not, the robot
     * is taken to be at the target.  The heading is not changed.
     */
    method CalculateInZone(direction: string, steps: int) returns (notInZone: bool)
      requires Valid() && direction in Headings
      modifies this`positionX, this`positionY
      ensures Valid()
      ensures var target := TargetOf(index, old(positionX), old(positionY), direction, steps);
        && notInZone == !InZone(target)
        && (positionX, positionY) == (if notInZone then (old(positionX), old(positionY)) else target)
    {
      var realDirectionIndex := NewIndex(index, Offsets[HeadingIndex(direction)]);
      var realDirection := Headings[realDirectionIndex];
      TargetByHeading(index, positionX, positionY, direction, steps);
      var targetX, targetY;
      if realDirection == "forward" {
        targetX, targetY := positionX, positionY + steps;
      } else if realDirection == "backward" {
        targetX, targetY := positionX, positionY - steps;
      } else if realDirection == "left" {
        targetX, targetY := positionX - steps, positionY;
      } else {
        targetX, targetY := positionX + steps, positionY;
      }
      if Abs(targetX) > 3 || Abs(targetY) > 3 {
        return true;
      }
      positionX := targetX;
      positionY := targetY;
      return false;
    }

    /**
     * The state effects of a move command: left and right words turn the
     * heading, stop words leave patrol mode and stop watching for enemies;
     * forward, backward and pause words only drive the motors.
     */
    method MoveSteps(direction: string, steps: int, speed: int)
      requires Valid()
      modifies this`index, this`pointing, this`patrolMode, this`enemyNotDetected
      ensures Valid()
      ensures index == TurnedIndex(old(index), direction)
      ensures direction in Words(Stop) ==> !patrolMode && !enemyNotDetected
      ensures direction !in Words(Stop) ==>
        patrolMode == old(patrolMode) && enemyNotDetected == old(enemyNotDetected)
    {
      if direction in Words(Left) {
        index := NewIndex(index, -1);
        pointing := Headings[index];
      }
      if direction in Words(Right) {
        index := NewIndex(index, 1);
        pointing := Headings[index];
      }
      if direction in Words(Stop) {
        patrolMode := false;
        enemyNotDetected := false;
      }
    }

    /**
     * The control directive handler.  moveSteps re-arms enemy detection
     * before moving (so a stop word leaves it off), patrol turns both flags
     * on, smash sends one Smash event and re-arms detection.  A missing key
     * is caught: whatever was set before it stays set.
     */
    method OnControl(payload: ControlPayload)
      requires Valid()
      modifies this`index, this`pointing, this`patrolMode, this`enemyNotDetected, this`sentEvents
      ensures Valid()
      ensures payload.kind == Some("moveSteps") ==>
        if payload.direction.Some? && payload.steps.Some? && payload.speed.Some? then
          var d := payload.direction.value;
          && index == TurnedIndex(old(index), d)
          && patrolMode == (old(patrolMode) && d !in Words(Stop))
          && enemyNotDetected == (d !in Words(Stop))
          && sentEvents == old(sentEvents)
        else
          index == old(index) && patrolMode == old(patrolMode) && enemyNotDetected && sentEvents == old(sentEvents)
      ensures payload.kind == Some("patrol") ==>
        index == old(index) && patrolMode && enemyNotDetected && sentEvents == old(sentEvents)
      ensures payload.kind == Some("smash") ==>
        index == old(index) && patrolMode == old(patrolMode) && enemyNotDetected
        && sentEvents == old(sentEvents) + [Smash]
      ensures payload.kind !in {Some("moveSteps"), Some("patrol"), Some("smash")} ==>
        index == old(index) && patrolMode == old(patrolMode)
        && enemyNotDetected == old(enemyNotDetected) && sentEvents == old(sentEvents)
    {
      if payload.kind.None? {
        return;
      }
      var controlType := payload.kind.value;
      if controlType == "moveSteps" {
        enemyNotDetected := true;
        if payload.direction.Some? && payload.steps.Some? && payload.speed.Some? {
          MoveSteps(payload.direction.value, payload.steps.value, payload.speed.value);
        }
      }
      if controlType == "patrol" {
        patrolMode := true;
        enemyNotDetected := true;
      }
      if controlType == "smash" {
        sentEvents := sentEvents + [Smash];
        enemyNotDetected := true;
      }
    }
  }
}
