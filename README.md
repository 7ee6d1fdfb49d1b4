# Bedroom Layout Designer — state and conversion core, in Dafny

The Bedroom Layout Designer lets a user place rectangular furniture in a room
drawn on a canvas. This project models four small pieces of logic from it:

- **Units** (`units.dfy`). This is the fixed table of centimetres per display
  unit (mm, cm, m, in, ft). It holds the conversions to and from the canonical
  centimetre, and the formatter's choice of decimal count.
- **Store** (`store.dfy`). This is the application's layout store. It is the
  ordered list of `RoomItem`s plus the id of the item open in the edit panel.
  The add, select, update-by-id and remove handlers are modelled as pure list
  functions (spread, `map`, `filter`, `find`). The component state that the
  setters replace is the class `LayoutStore`. The top-level application also
  holds display preferences; that is the class `DesignerApp`. Both versions of
  the application share these handlers. They differ only in their initial
  items: empty for `src/App.tsx`, three seed items for
  `layout-designer/src/App.tsx`.
- **Canvas** (`canvas.dfy`). This is the room-resize state machine of the
  layout-designer canvas. A handle press arms the right, bottom or corner
  mode. A pointer move sets the affected dimension(s) to
  `max(100, pointer − origin)`. Releasing the mouse disarms. It is modelled as
  a pure `Step` over `Room` states, plus the class `RoomResizer`, whose
  handlers are proved equal to `Step`.
- **EditPanel** (`edit_panel.dfy`). This is the edit form's Save. It overwrites
  `width`, `height`, `x` and `y` on a copy of the item and keeps every other
  field. The panel then calls `onChange` followed by `onClose`. Cancel calls
  only `onClose`.

`types.dfy` holds the shared records (`RoomItem`, `Preferences`) and `Option`.
JavaScript numbers are modelled as `real`, and item ids as `int`.

The resize code modelled here (`layout-designer/src/components/RoomCanvas.tsx`)
floors each dimension at 100 only. It does not keep the room large enough for
the items it holds. The model follows the code.

## Model

| member | source | states |
|---|---|---|
| Units.CmPerUnit | layout-designer/src/utils/units.ts:4-10 | every entry of the conversion table is strictly positive |
| Units.ToBaseCm | layout-designer/src/utils/units.ts:12-14 | converting back with `FromBaseCm` recovers the input; identity for the default unit cm; preserves sign |
| Units.FromBaseCm | layout-designer/src/utils/units.ts:16-18 | multiplying the result by the unit's factor recovers the centimetre value; identity for cm; preserves sign |
| Units.FormatValue | layout-designer/src/utils/units.ts:20-23 | the shown value converts back to the stored centimetres; 2 decimals exactly for m and ft, 1 otherwise |
| Units.RoundTripFromDisplay | layout-designer/src/utils/units.ts:4-18 | `fromBaseCm(toBaseCm(v, u), u) == v` for every unit |
| Units.RoundTripFromStorage | layout-designer/src/utils/units.ts:12-18 | `toBaseCm(fromBaseCm(c, u), u) == c` for every unit |
| Units.DefaultUnitIsIdentity | layout-designer/src/utils/units.ts:12-18 | with the unit omitted (cm) both conversions are the identity |
| Units.ConversionMonotone | layout-designer/src/utils/units.ts:4-18 | both conversions preserve weak and strict order, in both directions (iff) |
| Units.ConversionLinear | layout-designer/src/utils/units.ts:12-14 | conversion to cm respects sums and scalar multiples |
| Units.TableConsistent | layout-designer/src/utils/units.ts:4-10 | 1 m = 1000 mm = 100 cm and 1 ft = 12 in |
| Store.WithAdded | src/App.tsx:25-36 | the old list is an unchanged prefix, and exactly one item is appended with the given id, size and type at (50, 50), with no rotation and no door settings |
| Store.UpdateById | src/App.tsx:42-44 | same length; every item with the updated id becomes the updated record, every other item is unchanged |
| Store.WithoutId | src/App.tsx:46-51 | no kept item has the id; every item with another id is kept with its multiplicity |
| Store.FindById | src/App.tsx:73-76 | none exactly when no item has the id; otherwise the first item carrying it |
| Store.SeedIdsDistinct | layout-designer/src/App.tsx:9-14 | the seed list's ids are 1, 2, 3 and pairwise distinct |
| Store.AddKeepsIdsDistinct | src/App.tsx:25-36 | adding with a fresh id keeps ids distinct, and the new item is found by its id |
| Store.UpdateKeepsIds | src/App.tsx:42-44 | update by id preserves the sequence of ids, hence their distinctness |
| Store.UpdateMissingIsNoop | src/App.tsx:42-44 | update with an id absent from the list leaves it unchanged |
| Store.FindAfterUpdate | src/App.tsx:42-44 | after an update of a present id, the first item found by that id is the updated record |
| Store.UpdateIdempotent | src/App.tsx:42-44 | repeating an update changes nothing more |
| Store.WithoutIdAppend | src/App.tsx:46-51 | removal distributes over concatenation, so survivors keep their relative order |
| Store.WithoutMissingIsNoop | src/App.tsx:46-51 | removing an id no item carries leaves the list unchanged |
| Store.RemoveKeepsIdsDistinct | src/App.tsx:46-51 | removal keeps ids distinct and the removed id can no longer be found |
| Store.SaveReplacesEditedItem | src/App.tsx:73-81 | saving the panel for the selected item keeps every id in place, and the item found by that id is the saved record (using the layout-designer panel's Save) |
| Store.LayoutStore.Empty | src/App.tsx:10-11 | the top-level application starts with no items and no selection |
| Store.LayoutStore.Seeded | layout-designer/src/App.tsx:9-14 | the layout-designer application starts with the three seed items (distinct ids) and no selection |
| Store.LayoutStore.AddItem | layout-designer/src/App.tsx:16-26 | items become the old list plus the new item; the selection is unchanged; distinct ids stay distinct when the id is fresh |
| Store.LayoutStore.EditItem | src/App.tsx:38-40 | only the selection changes, to the given id or none |
| Store.LayoutStore.UpdateItem | layout-designer/src/App.tsx:32-34 | items become the update-by-id of the old list; ids and their order are kept; the selection is unchanged |
| Store.LayoutStore.RemoveItem | layout-designer/src/App.tsx:36-41 | with a selection, exactly the items with the selected id are dropped and the selection is cleared; without one, nothing changes |
| Store.LayoutStore.EditingItem | src/App.tsx:73-76 | the item given to the panel is the first one in the list carrying the selected id, and exists whenever the id is present |
| Store.DesignerApp.constructor | src/App.tsx:10-17 | empty items, no selection, preferences with grid size 30, colour #f0f0f0ff and unit cm |
| Store.DesignerApp.ChangePreferences | src/App.tsx:19-21 | the new preferences replace the old ones as given |
| Canvas.Initial | layout-designer/src/components/RoomCanvas.tsx:5-7 | the room starts at 800 by 600 (above the floor) with no resize mode |
| Canvas.Step | layout-designer/src/components/RoomCanvas.tsx:17-33 | each event keeps both dimensions at least 100 |
| Canvas.HandleDownArms | layout-designer/src/components/RoomCanvas.tsx:59-100 | pressing a handle arms its mode and leaves the size alone |
| Canvas.PointerUpDisarms | layout-designer/src/components/RoomCanvas.tsx:31-33 | mouse-up clears the mode and leaves the size alone |
| Canvas.MoveWhileIdleIsNoop | layout-designer/src/components/RoomCanvas.tsx:17-18 | a move with no mode armed changes nothing |
| Canvas.MoveFollowsPointer | layout-designer/src/components/RoomCanvas.tsx:22-27 | right sets width to max(100, px) and keeps height; bottom sets height to max(100, py) and keeps width; corner sets both; the mode is kept |
| Canvas.MoveIdempotent | layout-designer/src/components/RoomCanvas.tsx:22-27 | repeating the same move yields the same room |
| Canvas.RunKeepsFloor | layout-designer/src/components/RoomCanvas.tsx:17-33 | any event sequence from a state above the floor stays above it |
| Canvas.ReachableAboveFloor | layout-designer/src/components/RoomCanvas.tsx:5-33 | every reachable state has width and height at least 100 |
| Canvas.RoomResizer.constructor | layout-designer/src/components/RoomCanvas.tsx:5-7 | the canvas starts in the initial state, which satisfies the floor invariant |
| Canvas.RoomResizer.OnHandleMouseDown | layout-designer/src/components/RoomCanvas.tsx:59-100 | the new state is `Step` of the old one on the handle press: mode set, size unchanged |
| Canvas.RoomResizer.HandleMouseMove | layout-designer/src/components/RoomCanvas.tsx:17-29 | the new state is `Step` of the old one on the move; the floor invariant is kept |
| Canvas.RoomResizer.HandleMouseUp | layout-designer/src/components/RoomCanvas.tsx:31-33 | the new state is `Step` of the old one on release: mode cleared, size unchanged |
| EditPanel.Submitted | layout-designer/src/components/EditObjectPanel.tsx:9-15 | the record's width, height, x and y are the form's values, unclamped; with those four restored it is the original item |
| EditPanel.OnSave | layout-designer/src/components/EditObjectPanel.tsx:5-18 | exactly two calls: `onChange` with the submitted record, then `onClose` |
| EditPanel.OnCancel | layout-designer/src/components/EditObjectPanel.tsx:48 | Cancel makes exactly one call, `onClose` |
| EditPanel.CallbackCounts | layout-designer/src/components/EditObjectPanel.tsx:16-48 | Save calls `onChange` exactly once; Cancel never calls it |
| EditPanel.SubmitDefaultsIsIdentity | layout-designer/src/components/EditObjectPanel.tsx:9-44 | submitting the pre-filled values returns the original item |
| EditPanel.SubmitOverrides | layout-designer/src/components/EditObjectPanel.tsx:9-15 | a second submission overrides the first entirely |
| EditPanel.SubmitKeepsIdentity | layout-designer/src/components/EditObjectPanel.tsx:9-10 | id, rotate, type and the door fields are copied from the original item |

## Left out

- Rotated bounding boxes, clamp-to-room, the content-based minimum room size, wall snapping and the item drag controller. They belong to `src/components/RoomCanvas.tsx`, which is not part of this model, and they rest on floating-point `Math.cos`/`Math.sin`.
- `formatValue`'s rounding and string output (`toFixed`, `Number(...).toString()`). Only the value it rounds and the decimal count are modelled. Conversions are exact over `real`, so binary floating-point error is not modelled.
- `Date.now()` id generation. The id is a parameter of `AddItem`. Distinctness of ids is stated under the hypothesis that the id is fresh, because the source does not guarantee it.
- DOM listener registration and cleanup, and `getBoundingClientRect`. The pointer position relative to the room's top-left corner is an input. The `canvasRef.current` null check is not modelled; the ref is set once the canvas is mounted.
- The form's string-to-number parsing (`Number(formData.get(...))`) and `preventDefault`. The form values arrive as numbers.
- The preferences panel, the add panels, item rendering, the static `objects` array and the `preferencesPanelOpen` toggle. These are form plumbing and rendering.
- React re-render and stale-closure behaviour. Handlers are sequential state transitions.
- `src/types.ts` and `src/components/EditObjectPanel.tsx` are not part of this model. This model uses the layout-designer types and edit panel for both applications. The top-level application's own panel, which also receives `unit` and `onRemove`, may differ. `Store.SaveReplacesEditedItem` therefore describes Save with the layout-designer panel.
- Store.LayoutStore.EditingItem: returns `None` when the selected id is not in the list. The source instead hands `undefined` to the panel through a non-null assertion, and rendering the panel then fails on `item.width`. That failure is not modelled.
