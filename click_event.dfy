// touchgfx::ClickEvent: the event the hardware layer builds for each press,
// release or cancel of a touch or pointer device, and that widgets read.

module ClickEvents {
  import opened Types
  import opened Events

  /** The phase of the press lifecycle that a click event reports. Any phase
      may follow any other: the event does not enforce an order. */
  datatype ClickEventType = PRESSED | RELEASED | CANCEL

  /** Everything a click event holds, as a value: what its four getters return. */
  datatype ClickState = ClickState(clickType: ClickEventType, x: Int16, y: Int16, force: Int16)

  /** The fields that a setter can write. The force has no setter. */
  datatype Field = FieldX | FieldY | FieldType

  /** One call of one of the event's setters, with its argument. */
  datatype SetterCall = WriteX(newX: Int16) | WriteY(newY: Int16) | WriteType(newType: ClickEventType)

  /** The field that a setter call writes. */
  function Target(c: SetterCall): Field {
    match c
    case WriteX(_) => FieldX
    case WriteY(_) => FieldY
    case WriteType(_) => FieldType
  }

  /** The state after one setter call: the call's field holds its argument,
      and every other field holds what it held before. */
  function Step(s: ClickState, c: SetterCall): (r: ClickState)
    ensures c.WriteX? ==> r.x == c.newX
    ensures c.WriteY? ==> r.y == c.newY
    ensures c.WriteType? ==> r.clickType == c.newType
    ensures Target(c) != FieldX ==> r.x == s.x
    ensures Target(c) != FieldY ==> r.y == s.y
    ensures Target(c) != FieldType ==> r.clickType == s.clickType
    ensures r.force == s.force
  {
    match c
    case WriteX(v) => s.(x := v)
    case WriteY(v) => s.(y := v)
    case WriteType(t) => s.(clickType := t)
  }

  /** A setter call on one field and a setter call on another field may be
      made in either order: the event ends in the same state. */
  lemma StepsOnDifferentFieldsCommute(s: ClickState, c: SetterCall, d: SetterCall)
    requires Target(c) != Target(d)
    ensures Step(Step(s, c), d) == Step(Step(s, d), c)
  {
  }

  /** Of two calls of the same setter, the later one decides the field:
      the earlier value leaves no trace. */
  lemma LaterStepOverwrites(s: ClickState, c: SetterCall, d: SetterCall)
    requires Target(c) == Target(d)
    ensures Step(Step(s, c), d) == Step(s, d)
  {
  }

  class ClickEvent {
    var clickType: ClickEventType
    var x: Int16
    var y: Int16
    const force: Int16  // set by the constructor; no setter exists

    /** A click event holding exactly the given phase, coordinates and force,
        none of them clamped or converted; the force is 0 when omitted. */
    constructor (clickType: ClickEventType, x: Int16, y: Int16, force: Int16 := 0)
      ensures GetType() == clickType && GetX() == x && GetY() == y && GetForce() == force
      ensures State() == ClickState(clickType, x, y, force)
    {
      this.clickType := clickType;
      this.x := x;
      this.y := y;
      this.force := force;
    }

    function GetX(): (r: Int16)
      reads this
      ensures r == State().x
    {
      x
    }

    function GetY(): (r: Int16)
      reads this
      ensures r == State().y
    {
      y
    }

    function GetType(): (r: ClickEventType)
      reads this
      ensures r == State().clickType
    {
      clickType
    }

    function GetForce(): (r: Int16)
      reads this
      ensures r == State().force
    {
      force
    }

    /** The value the event holds: its phase, coordinates and force. */
    function State(): ClickState
      reads this
    {
      ClickState(clickType, x, y, force)
    }

    /** The kind a consumer dispatches on: a click, whatever the payload. */
    function GetEventType(): (kind: EventType)
      ensures kind == EVENT_CLICK
    {
      EVENT_CLICK
    }

    method SetX(x: Int16)
      modifies this
      ensures GetX() == x
      ensures GetY() == old(GetY()) && GetType() == old(GetType()) && GetForce() == old(GetForce())
      ensures State() == Step(old(State()), WriteX(x))
    {
      this.x := x;
    }

    method SetY(y: Int16)
      modifies this
      ensures GetY() == y
      ensures GetX() == old(GetX()) && GetType() == old(GetType()) && GetForce() == old(GetForce())
      ensures State() == Step(old(State()), WriteY(y))
    {
      this.y := y;
    }

    method SetType(clickType: ClickEventType)
      modifies this
      ensures GetType() == clickType
      ensures GetX() == old(GetX()) && GetY() == old(GetY()) && GetForce() == old(GetForce())
      ensures State() == Step(old(State()), WriteType(clickType))
    {
      this.clickType := clickType;
    }
  }

  /** The event kind depends on nothing the event holds. */
  lemma EventTypeIgnoresPayload(a: ClickEvent, b: ClickEvent)
    ensures a.GetEventType() == b.GetEventType() == EVENT_CLICK
  {
  }

  /** Two events that hold the same value answer every query alike, the
      event kind included; and two events whose four getters agree hold the
      same value. */
  lemma GettersDetermineState(a: ClickEvent, b: ClickEvent)
    ensures a.State() == b.State() <==>
      a.GetType() == b.GetType() && a.GetX() == b.GetX() &&
      a.GetY() == b.GetY() && a.GetForce() == b.GetForce()
    ensures a.State() == b.State() ==> a.GetEventType() == b.GetEventType()
  {
  }

  /** A press at (10, 20) with no force, then turned into a release, then
      moved to (15, 25): each step changes only what it names. */
  method PressReleaseMove() returns (e: ClickEvent)
    ensures e.State() == ClickState(RELEASED, 15, 25, 0)
    ensures e.GetEventType() == EVENT_CLICK
  {
    e := new ClickEvent(PRESSED, 10, 20);
    assert e.State() == ClickState(PRESSED, 10, 20, 0);
    e.SetType(RELEASED);
    assert e.GetX() == 10 && e.GetY() == 20;
    e.SetX(15);
    e.SetY(25);
  }

  /** A cancel off the surface keeps its negative coordinates as given. */
  method CancelOffSurface() returns (e: ClickEvent)
    ensures e.GetType() == CANCEL && e.GetX() == -5 && e.GetY() == -5 && e.GetForce() == 3
  {
    e := new ClickEvent(CANCEL, -5, -5, 3);
  }
}
