/** The room canvas's resize interaction: three handles (right edge, bottom
    edge, bottom-right corner) arm a resize mode on mouse-down; while a mode
    is armed, each mouse move sets the affected dimension(s) to the pointer
    position relative to the room's top-left corner, never below 100; mouse-up
    disarms. */
module Canvas {
  import opened Types

  /** The resize handle that was grabbed. */
  datatype Handle = RightHandle | BottomHandle | CornerHandle

  /** The smallest width or height a resize can give the room. */
  const MinSize: real := 100.0

  /** The room's size before any resize. */
  const InitialWidth: real := 800.0
  const InitialHeight: real := 600.0

  /** The canvas's resize state: room size and the armed mode (`None` is
      the source's `null`: no resize in progress). */
  datatype Room = Room(width: real, height: real, isResizing: Option<Handle>)

  /** The events that drive the resize. A move carries the pointer position
      relative to the room's top-left corner. */
  datatype Event = HandleDown(handle: Handle) | PointerMove(px: real, py: real) | PointerUp

  function Max(a: real, b: real): real
  {
    if a >= b then a else b
  }

  /** `value` is what `Math.max(100, pointer)` gives: at least the floor,
      at least the pointer, and one of the two. */
  predicate FlooredAt(value: real, pointer: real)
  {
    value >= MinSize && value >= pointer && (value == MinSize || value == pointer)
  }

  /** The invariant every reachable state keeps: neither dimension is below 100. */
  predicate AboveFloor(room: Room)
  {
    room.width >= MinSize && room.height >= MinSize
  }

  /** Does a move in this mode change the width / the height? */
  predicate MovesWidth(mode: Option<Handle>)
  {
    mode == Some(RightHandle) || mode == Some(CornerHandle)
  }

  predicate MovesHeight(mode: Option<Handle>)
  {
    mode == Some(BottomHandle) || mode == Some(CornerHandle)
  }

  function Initial(): (room: Room)
    ensures AboveFloor(room) && room.isResizing == None
  {
    Room(InitialWidth, InitialHeight, None)
  }

  /** One event handled by the canvas. */
  function Step(room: Room, event: Event): (next: Room)
    ensures AboveFloor(room) ==> AboveFloor(next)
  {
    match event
    case HandleDown(h) => room.(isResizing := Some(h))
    case PointerUp => room.(isResizing := None)
    case PointerMove(px, py) =>
      if room.isResizing == None then room
      else
        Room(if MovesWidth(room.isResizing) then Max(MinSize, px) else room.width,
             if MovesHeight(room.isResizing) then Max(MinSize, py) else room.height,
             room.isResizing)
  }

  /** The state after handling `events` in order, starting from `room`. */
  function Run(room: Room, events: seq<Event>): Room
    decreases |events|
  {
    if events == [] then room else Run(Step(room, events[0]), events[1..])
  }

  /** Pressing a handle arms its mode and leaves the size alone. */
  lemma HandleDownArms(room: Room, h: Handle)
    ensures Step(room, HandleDown(h)).isResizing == Some(h)
    ensures Step(room, HandleDown(h)).width == room.width
    ensures Step(room, HandleDown(h)).height == room.height
  {
  }

  /** Releasing the mouse disarms and leaves the size alone. */
  lemma PointerUpDisarms(room: Room)
    ensures Step(room, PointerUp) == Room(room.width, room.height, None)
  {
  }

  /** With no mode armed a move changes nothing. */
  lemma MoveWhileIdleIsNoop(room: Room, px: real, py: real)
    requires room.isResizing == None
    ensures Step(room, PointerMove(px, py)) == room
  {
  }

  /** A move follows the pointer on the axes the armed handle controls, with
      the floor rule, and leaves the other axis and the mode alone: the right
      handle moves only the width, the bottom handle only the height, the
      corner both. */
  lemma MoveFollowsPointer(room: Room, px: real, py: real)
    requires room.isResizing != None
    ensures Step(room, PointerMove(px, py)).isResizing == room.isResizing
    ensures room.isResizing == Some(RightHandle) ==>
      FlooredAt(Step(room, PointerMove(px, py)).width, px) && Step(room, PointerMove(px, py)).height == room.height
    ensures room.isResizing == Some(BottomHandle) ==>
      FlooredAt(Step(room, PointerMove(px, py)).height, py) && Step(room, PointerMove(px, py)).width == room.width
    ensures room.isResizing == Some(CornerHandle) ==>
      FlooredAt(Step(room, PointerMove(px, py)).width, px) && FlooredAt(Step(room, PointerMove(px, py)).height, py)
  {
  }

  /** Repeating the same move in the same mode gives the same room. */
  lemma MoveIdempotent(room: Room, px: real, py: real)
    ensures Step(Step(room, PointerMove(px, py)), PointerMove(px, py)) == Step(room, PointerMove(px, py))
  {
  }

  /** Any sequence of events keeps a room that starts above the floor above it. */
  lemma {:induction false} RunKeepsFloor(room: Room, events: seq<Event>)
    requires AboveFloor(room)
    ensures AboveFloor(Run(room, events))
    decreases |events|
  {
    if events != [] {
      RunKeepsFloor(Step(room, events[0]), events[1..]);
    }
  }

  /** Every state the canvas can reach has both dimensions at least 100. */
  lemma ReachableAboveFloor(events: seq<Event>)
    ensures AboveFloor(Run(Initial(), events))
  {
    RunKeepsFloor(Initial(), events);
  }

  /** The canvas component's resize state and its event handlers. */
  class RoomResizer {
    var width: real
    var height: real
    var isResizing: Option<Handle>

    function State(): Room
      reads this
    {
      Room(width, height, isResizing)
    }

    /** The floor invariant. */
    predicate Valid()
      reads this
    {
      AboveFloor(State())
    }

    /** The canvas starts 800 by 600 with no resize in progress. */
    constructor ()
      ensures State() == Initial()
      ensures Valid()
    {
      width, height := InitialWidth, InitialHeight;
      isResizing := None;
    }

    /** `onMouseDown` of a handle. */
    method OnHandleMouseDown(h: Handle)
      modifies this
      ensures State() == Step(old(State()), HandleDown(h))
      ensures isResizing == Some(h) && width == old(width) && height == old(height)
      ensures old(Valid()) ==> Valid()
    {
      isResizing := Some(h);
    }

    /** `handleMouseMove`, given the pointer relative to the room's origin. */
    method HandleMouseMove(px: real, py: real)
      modifies this
      ensures old(Valid()) ==> Valid()
      ensures State() == Step(old(State()), PointerMove(px, py))
    {
      if isResizing == None {
        return;
      }
      if isResizing == Some(RightHandle) || isResizing == Some(CornerHandle) {
        width := Max(MinSize, px);
      }
      if isResizing == Some(BottomHandle) || isResizing == Some(CornerHandle) {
        height := Max(MinSize, py);
      }
    }

    /** `handleMouseUp`. */
    method HandleMouseUp()
      modifies this
      ensures State() == Step(old(State()), PointerUp)
      ensures isResizing == None && width == old(width) && height == old(height)
      ensures old(Valid()) ==> Valid()
    {
      isResizing := None;
    }
  }
}
