# TouchGFX click event

A model of `touchgfx::ClickEvent`, the event that the TouchGFX hardware layer
builds for each press, release or cancel of a touch or pointer device and
hands to the widget tree. The event holds four fields: a click phase
(`PRESSED`, `RELEASED` or `CANCEL`), two signed 16-bit coordinates and a
signed 16-bit force. It has a constructor in which the force defaults to 0,
`const` getters, setters for the coordinates and the phase, and
`getEventType()`, which always reports the click kind.

- `types.dfy` (`Types`): `Int16`, the `int16_t` the fields are stored in.
- `event.dfy` (`Events`): `EventType`, the kind a consumer dispatches on.
- `click_event.dfy` (`ClickEvents`): the phase enumeration, the class
  `ClickEvent` whose setters update its fields in place, `ClickState` (the
  value the getters expose), `SetterCall` and `Step` (one setter call and its
  effect on that value), and two client methods that follow a press/release
  sequence and a cancel at negative coordinates.
- `click_event_replay.dfy` (`ClickEventReplay`): what any sequence of setter
  calls on one reused event leaves in it. `Replay` applies the calls in
  order. `LastWrite` is an independent description: the position of the last
  call that writes a given field. The lemmas prove that each field ends up
  holding the argument of its last write, or its starting value when nothing
  wrote it, and that the force never changes.

The getters `GetX`, `GetY`, `GetType` and `GetForce` are Dafny functions with
`reads this`. A function cannot change the heap, so they modify no field,
just as the source's `const` getters do. The setters are methods with
`modifies this`. Each setter states the new value of every field: the field
it names holds its argument, and the other three keep their old values.

## Model

| member | source | states |
|---|---|---|
| `ClickEvents.ClickEvent.constructor` | libraries/touchgfx_lib/Middlewares/ST/touchgfx/framework/include/touchgfx/events/ClickEvent.hpp:56-59 | every getter returns exactly the phase, x, y and force passed in, with no clamping, so negative values survive; an omitted force reads back as 0 |
| `ClickEvents.ClickEvent.GetX` | libraries/touchgfx_lib/Middlewares/ST/touchgfx/framework/include/touchgfx/events/ClickEvent.hpp:66-69 | the result is the x coordinate the event holds; as a function it changes no field |
| `ClickEvents.ClickEvent.GetY` | libraries/touchgfx_lib/Middlewares/ST/touchgfx/framework/include/touchgfx/events/ClickEvent.hpp:76-79 | the result is the y coordinate the event holds; as a function it changes no field |
| `ClickEvents.ClickEvent.GetType` | libraries/touchgfx_lib/Middlewares/ST/touchgfx/framework/include/touchgfx/events/ClickEvent.hpp:116-119 | the result is the phase the event holds; as a function it changes no field |
| `ClickEvents.ClickEvent.GetForce` | libraries/touchgfx_lib/Middlewares/ST/touchgfx/framework/include/touchgfx/events/ClickEvent.hpp:127-130 | the result is the force the event holds; as a function it changes no field |
| `ClickEvents.ClickEvent.GetEventType` | libraries/touchgfx_lib/Middlewares/ST/touchgfx/framework/include/touchgfx/events/ClickEvent.hpp:137-140 | the kind reported is the click kind and never one of the toolkit's other kinds |
| `ClickEvents.Step` | libraries/touchgfx_lib/Middlewares/ST/touchgfx/framework/include/touchgfx/events/ClickEvent.hpp:86-109 | one setter call puts its argument into the field it names, leaves the other two settable fields as they were, and never changes the force |
| `ClickEventReplay.Replay` | libraries/touchgfx_lib/Middlewares/ST/touchgfx/framework/include/touchgfx/events/ClickEvent.hpp:86-109 | after a sequence of setter calls, a coordinate or the phase that no call writes keeps its starting value |
| `ClickEventReplay.ReplaySnoc` | libraries/touchgfx_lib/Middlewares/ST/touchgfx/framework/include/touchgfx/events/ClickEvent.hpp:86-109 | replaying one more call gives `Step` of the state the earlier calls reached; `Step` is the effect each setter's `State() == Step(old(State()), …)` clause states |
| `ClickEvents.ClickEvent.SetX` | libraries/touchgfx_lib/Middlewares/ST/touchgfx/framework/include/touchgfx/events/ClickEvent.hpp:86-89 | afterwards `GetX()` returns the argument, and y, phase and force are unchanged |
| `ClickEvents.ClickEvent.SetY` | libraries/touchgfx_lib/Middlewares/ST/touchgfx/framework/include/touchgfx/events/ClickEvent.hpp:96-99 | afterwards `GetY()` returns the argument, and x, phase and force are unchanged |
| `ClickEvents.ClickEvent.SetType` | libraries/touchgfx_lib/Middlewares/ST/touchgfx/framework/include/touchgfx/events/ClickEvent.hpp:106-109 | afterwards `GetType()` returns the argument, and both coordinates and the force are unchanged |
| `ClickEvents.EventTypeIgnoresPayload` | libraries/touchgfx_lib/Middlewares/ST/touchgfx/framework/include/touchgfx/events/ClickEvent.hpp:137-140 | any two click events report the same kind, whatever their phase, coordinates and force |
| `ClickEvents.GettersDetermineState` | libraries/touchgfx_lib/Middlewares/ST/touchgfx/framework/include/touchgfx/events/ClickEvent.hpp:66-130 | two events hold the same value exactly when their four getters agree, and two events with the same value report the same kind; the setters' effect is `Step` of the value alone (their `State() == Step(old(State()), …)` clauses) |
| `ClickEvents.StepsOnDifferentFieldsCommute` | libraries/touchgfx_lib/Middlewares/ST/touchgfx/framework/include/touchgfx/events/ClickEvent.hpp:86-109 | setter calls on two different fields give the same state in either order |
| `ClickEvents.LaterStepOverwrites` | libraries/touchgfx_lib/Middlewares/ST/touchgfx/framework/include/touchgfx/events/ClickEvent.hpp:86-109 | of two calls of the same setter, only the later one shows in the state |
| `ClickEvents.PressReleaseMove` | libraries/touchgfx_lib/Middlewares/ST/touchgfx/framework/include/touchgfx/events/ClickEvent.hpp:56-119 | a press at (10, 20), then `setType(RELEASED)`, `setX(15)` and `setY(25)`, leaves a release at (15, 25) with force 0 that is still a click |
| `ClickEvents.CancelOffSurface` | libraries/touchgfx_lib/Middlewares/ST/touchgfx/framework/include/touchgfx/events/ClickEvent.hpp:56-79 | a cancel built at (-5, -5) with force 3 reads back exactly those values |
| `ClickEventReplay.LastWrite` | libraries/touchgfx_lib/Middlewares/ST/touchgfx/framework/include/touchgfx/events/ClickEvent.hpp:86-109 | the result is the position of a call writing the field after which no call writes it, or None when no call writes it |
| `ClickEventReplay.ReplayX` | libraries/touchgfx_lib/Middlewares/ST/touchgfx/framework/include/touchgfx/events/ClickEvent.hpp:86-89 | after any sequence of setter calls, x is the argument of the last `setX`, or its starting value when there was none |
| `ClickEventReplay.ReplayY` | libraries/touchgfx_lib/Middlewares/ST/touchgfx/framework/include/touchgfx/events/ClickEvent.hpp:96-99 | after any sequence of setter calls, y is the argument of the last `setY`, or its starting value when there was none |
| `ClickEventReplay.ReplayType` | libraries/touchgfx_lib/Middlewares/ST/touchgfx/framework/include/touchgfx/events/ClickEvent.hpp:106-109 | after any sequence of setter calls, the phase is the argument of the last `setType`, or the starting phase when there was none |
| `ClickEventReplay.ReplayKeepsForce` | libraries/touchgfx_lib/Middlewares/ST/touchgfx/framework/include/touchgfx/events/ClickEvent.hpp:127-146 | no sequence of setter calls changes the force: it keeps the value given at construction |

## Left out

- The `Event` base class (`touchgfx/Event.hpp`) and `touchgfx/hal/Types.hpp` are not part of this model. `EventType` names only the click kind; the toolkit's other kinds stand in it as `OtherKind(code)`, without their names.
- Virtual dispatch of `getEventType()` and the caller's downcast from `Event&`. The model has `GetEventType` as a function of the click event alone.
- In the source `getEventType()` is virtual and not `const`. The model's `GetEventType` is a function that reads no field, and the source's body reads none either.
- The hardware layer that samples the device and builds events, and the widget tree that hit-tests and routes them. Both are outside this class.
- What the force means on a given platform, for example that it is always zero on Windows. That is a property of the producer, not of this class.
- Any ordering of phases. The class accepts any phase at any time, so no setter has a precondition about the current phase.
- Implicit conversions to `int16_t` at call sites. The model's parameters are already `Int16`, so a caller cannot pass a value out of range.
