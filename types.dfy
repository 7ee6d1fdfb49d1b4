/** The records shared by the layout store, the canvas and the panels. */
module Types {
  import opened Units

  /** An optional value; TypeScript's optional (`?`) fields and `null`. */
  datatype Option<+T> = None | Some(value: T)

  /** Which way a door swings: into the room (`'in'`) or out of it (`'out'`). */
  datatype DoorDirection = Inward | Outward

  /** Which side a door is hinged on. */
  datatype DoorSide = Left | Right

  /** A placed object. Sizes and positions are JavaScript numbers in
      centimetres, modelled as reals; `kind` is the source's `type` field
      (a Dafny keyword), a free label such as "Door" or "Bed". */
  datatype RoomItem = RoomItem(
    id: int,
    width: real,
    height: real,
    x: real,
    y: real,
    rotate: Option<real>,
    kind: Option<string>,
    doorOpenDirection: Option<DoorDirection>,
    doorOpenSide: Option<DoorSide>)

  /** Display preferences: grid spacing in pixels, grid colour, display unit. */
  datatype Preferences = Preferences(gridSize: int, gridColor: Option<string>, unit: Option<Unit>)
}
