# Market stall layout editor: a Dafny model of its core

The editor places "stalls" (market vendor spaces) on a canvas. The user can add, select, drag,
resize, re-shape and delete stalls. This project models three sequential pieces of it and proves
properties about them:

- **The stall list and selection** (`market_map.dfy`, module `MarketMap`). The component keeps an
  ordered list of stalls and an optional selected id. Its handlers replace that state:
  - add a stall with id `max + 1`, named after the list length;
  - delete the selected stall;
  - change the selected stall's shape;
  - store a drag's position;
  - fold a resize's scale into an absolute size and reset the node's scale to 1.

  An effect attaches the manipulation handle (the rendering toolkit's Transformer) to the selected
  stall's node. The class `Editor` holds `stores`, `selectedId` and the handle's attached nodes.
  Its methods are stated through pure functions. These are the `reduce`, `map` and `filter`
  expressions the handlers install (`NewId`, `Added`, `WithoutId`, `WithShape`, `Moved`,
  `Resized`), and lemmas about those functions carry the invariants. This component declares its
  own four-kind shape type and a stall without rotation or owner, and the model keeps that narrower
  type.
- **The shape catalog** (`shape_renderer.dfy`, module `ShapeRenderer`). It maps a shape kind and a
  width and height to an outline: a box, a circle, an ellipse, a regular polygon, or the vertex
  path of the two cut-corner kinds `custom1` and `custom2`. It also models the custom kinds'
  transform-end rule: round the scaled size, then reset the scale.
- **Text labels** (`text_renderer.dfy`, module `TextRenderer`). This covers how a label's fields
  are drawn, and the transform-end rule `fontSize := round(fontSize × scaleX)`, after which both
  scales reset to 1.

Supporting modules:
- `Common` holds `Option`, `Min`/`Max`, and `Round`, which is JavaScript's `Math.round` written as
  `Floor(x + 0.5)`.
- `Nodes` is the toolkit node, reduced to width, height, `scaleX` and `scaleY`.
- `StoreTypes` holds the nine-kind stall and the text label.

JavaScript numbers are exact `real`s. The 0.7 cut factor is the exact real 0.7. Stall ids are
integers. The names the list component builds are sequences of UTF-16 code units, so the 16-bit
wrap of `String.fromCharCode` is explicit.

About the list component itself:
- it names stalls "Store A", "Store B", …;
- it has no text labels, no clone and no rotation;
- its ids are unique among stalls only;
- it never detaches and re-attaches the handle after a shape change (see Findings).

## Model

| member | source | states |
|---|---|---|
| `MarketMap.DefaultStores` | src/MarketMap.tsx:25-56 | the three seed stalls have distinct ids 1..3, positive sizes, and the ids and names three adds to an empty list would give |
| `MarketMap.MaxIdFrom` | src/MarketMap.tsx:114 | the `reduce` with `Math.max` is at least the start value and every id, and equals the start value or some id |
| `MarketMap.NewId` | src/MarketMap.tsx:114-116 | the new id is at least 1 and greater than every existing id; it is 1 or one more than an existing id |
| `MarketMap.Added` | src/MarketMap.tsx:115-125 | adding appends exactly one stall, keeps all earlier stalls in order, gives it an id above all others, and keeps ids distinct |
| `MarketMap.WithoutId` | src/MarketMap.tsx:131 | the `filter` keeps exactly the stalls whose id differs, and never grows the list |
| `MarketMap.WithoutAbsentId` | src/MarketMap.tsx:131 | removing an id no stall has leaves the list unchanged |
| `MarketMap.WithoutIdRemovesOne` | src/MarketMap.tsx:129-134 | with distinct ids, deleting the id at position k gives exactly the list without position k, the others in their original order |
| `MarketMap.WithoutIdKeepsUnique` | src/MarketMap.tsx:131 | deleting keeps ids pairwise distinct |
| `MarketMap.WithShape` | src/MarketMap.tsx:138-140 | only the matching stall's shape changes; every other field and every other stall are unchanged; the length is kept |
| `MarketMap.Moved` | src/MarketMap.tsx:102-104 | only x and y of the matching stall change; size, shape, name, id, colour and all other stalls are untouched |
| `MarketMap.Resized` | src/MarketMap.tsx:83-91 | only width and height of the matching stall change, to the given absolute size; all else is untouched |
| `MarketMap.PatchedAtUniqueId` | src/MarketMap.tsx:136-142 | with distinct ids, an id-preserving patch changes exactly the one stall at its position and keeps ids distinct |
| `MarketMap.LaterPatchWins` | src/MarketMap.tsx:101-106 | a second drag, resize or shape change of the same stall overrides the first |
| `MarketMap.NameRepeatsAfterDelete` | src/MarketMap.tsx:117 | names follow the count, not the id: after a delete, an add can repeat an existing name while the ids stay distinct |
| `MarketMap.DeletedTopIdIsReused` | src/MarketMap.tsx:114-116 | ids are distinct among existing stalls only; an example on the default list: deleting id 3 makes the next add get 3 again |
| `MarketMap.BoundNodes` | src/MarketMap.tsx:68-79 | the handle is bound to exactly the registered node of the selected id, and to no node when nothing is selected or nothing is registered |
| `MarketMap.ResizesDoNotCompound` | src/MarketMap.tsx:81-99 | with the scale reset, any sequence of resizes stores the original size times the product of the gesture factors, and leaves the node at scale 1 |
| `MarketMap.ResizeScenario` | src/MarketMap.tsx:87-96 | 100×80 resized by (2, 1.5) then by 1.1 gives 220×120; without the reset the stale scale compounds to 440 |
| `MarketMap.Editor.constructor` | src/MarketMap.tsx:59-64 | the list starts as the saved list or the default stalls, with nothing selected |
| `MarketMap.Editor.Select` | src/MarketMap.tsx:148 | clicking a stall selects its id |
| `MarketMap.Editor.SyncTransformer` | src/MarketMap.tsx:68-79 | the selection effect attaches the handle to `BoundNodes` of the selection |
| `MarketMap.Editor.Commit` | src/MarketMap.tsx:68-79 | a commit runs the selection effect exactly when `selectedId` differs from the value it last ran with, and otherwise leaves the handle as it was |
| `MarketMap.Editor.HandleTransformEnd` | src/MarketMap.tsx:81-99 | stores the node's width×scaleX and height×scaleY as the stall's size and resets the node's scale to 1; fails without change when no node is registered; keeps ids distinct |
| `MarketMap.Editor.HandleDragEnd` | src/MarketMap.tsx:101-106 | the list becomes `Moved` of the old list; ids stay distinct |
| `MarketMap.Editor.AddStore` | src/MarketMap.tsx:113-127 | appends the stall (id `max+1`, name by count, x=y=100, 100×80, light grey, `rect`), selects it, keeps ids distinct |
| `MarketMap.Editor.DeleteSelectedStore` | src/MarketMap.tsx:129-134 | does nothing without a selection; otherwise removes the selected id's stalls and clears the selection; keeps ids distinct |
| `MarketMap.Editor.UpdateShapeType` | src/MarketMap.tsx:136-142 | does nothing without a selection; otherwise only the selected stall's shape changes; the handle is not re-bound |
| `MarketMap.Editor.UpdateShapeTypeAndRebind` | src/MarketMap.tsx:136-142 | the shape change followed by detach and re-attach leaves the handle on `BoundNodes` of the current registry, and keeps ids distinct |
| `MarketMap.StaleHandleAfterShapeChange` | src/MarketMap.tsx:68-79 | as written, after a change from `rect` to `circle` registers a new node, the commit does not re-run the effect and the handle stays on the removed node |
| `MarketMap.SameNodeTypeKeepsHandle` | src/MarketMap.tsx:181-212 | a change between `rect` and `rounded` keeps the same `Rect` node registered, so the handle stays on the node drawn |
| `MarketMap.RebindAfterShapeChange` | src/MarketMap.tsx:68-79 | with the re-binding shape change, the handle is on the node now drawn |
| `ShapeRenderer.RenderShape` | src/utils/shapeRenderer.tsx:16-238 | every kind is drawn at the stall's x and y with the stall's colour |
| `ShapeRenderer.CutSize` | src/utils/shapeRenderer.tsx:61 | the cut is 0.7×min(w,h); for a non-negative box it lies in [0, min(w,h)], and for a positive box strictly inside it |
| `ShapeRenderer.CustomOutlineFillsBox` | src/utils/shapeRenderer.tsx:58-87 | for w,h ≥ 0 every custom vertex lies in [0,w]×[0,h], and the client rect (0,0,w,h) is exactly the vertices' bounding box, whatever the cut |
| `ShapeRenderer.CustomOutlineIsPentagon` | src/utils/shapeRenderer.tsx:58-77 | for w,h > 0 the five custom vertices are pairwise distinct |
| `ShapeRenderer.CustomOutlineArea` | src/utils/shapeRenderer.tsx:125-144 | both custom outlines enclose the box less a right triangle with legs c: twice the area is 2wh − c² |
| `ShapeRenderer.Custom2MirrorsCustom1` | src/utils/shapeRenderer.tsx:125-144 | custom2's vertices are exactly custom1's mirrored left to right |
| `ShapeRenderer.RoundShapesFitBox` | src/utils/shapeRenderer.tsx:157-177 | a circle's diameter is the shorter side; an ellipse's diameters are the box's sides |
| `ShapeRenderer.PolygonsIgnoreHeight` | src/utils/shapeRenderer.tsx:179-211 | hexagon, triangle and diamond have 6, 3 and 4 sides and diameter w, and the height has no effect |
| `ShapeRenderer.RoundedIsRectWithCorners` | src/utils/shapeRenderer.tsx:212-237 | `rect` is a plain w×h box; `rounded` is the same box with corner radius 15 |
| `ShapeRenderer.CustomRescaledNear` | src/utils/shapeRenderer.tsx:43-45 | the rounded new size is within half a unit of the exact scaled size |
| `ShapeRenderer.CustomRescaledIsWhole` | src/utils/shapeRenderer.tsx:44-49 | the new width and height are whole numbers |
| `ShapeRenderer.CustomRescaleSettles` | src/utils/shapeRenderer.tsx:38-57 | after a resize is folded in, a transform end at scale 1 leaves the size unchanged |
| `ShapeRenderer.CustomTransformEnd` | src/utils/shapeRenderer.tsx:38-57 | sets the node to round(w×scaleX) × round(h×scaleY) and resets its scale to 1 before the outer handler, which sees that rounded size as the displayed size |
| `TextRenderer.RenderText` | src/utils/textRenderer.tsx:18-27 | text, position, font size, family and fill pass through; a missing rotation is 0; offsets are 0 |
| `TextRenderer.MissingRotationDrawsAsZero` | src/utils/textRenderer.tsx:25 | a label without rotation is drawn exactly as one rotated by 0, and the id does not affect the drawing |
| `TextRenderer.RescaledFontSize` | src/utils/textRenderer.tsx:37 | the new font size is within half a unit of fontSize×scaleX |
| `TextRenderer.FontRescaleSettles` | src/utils/textRenderer.tsx:34-44 | after a resize is folded in, a transform end at scale 1 keeps the font size |
| `TextRenderer.FontRescaleMonotonic` | src/utils/textRenderer.tsx:37 | a wider stretch never gives a smaller font |
| `TextRenderer.TextTransformEnd` | src/utils/textRenderer.tsx:32-48 | sets the font size from the label's size and scaleX only (scaleY is not read), and resets both scales to 1 before the outer handler runs |
| `Nodes.DisplayedSize` | src/MarketMap.tsx:87-88 | a node's displayed size is its size times its scale, and equals its size at scale 1 |
| `Nodes.ScaleReset` | src/MarketMap.tsx:93-96 | resetting the scale keeps the node's size and makes its displayed size equal to it |
| `Common.Round` | src/utils/shapeRenderer.tsx:44 | `Math.round(x)` is the integer in (x − ½, x + ½] |

## Left out

- Rendering as such is left out: the JSX tree, class names, the side panel, the "Store Info" lookup
  (`selectedStore`), the name text drawn on box stalls, and the `App` shell.
- The list component's own `renderShape` (src/MarketMap.tsx:144-214) is left out. For its four
  kinds it gives the same outlines as `ShapeRenderer.RenderShape`.
- Saving and loading are left out: `localStorage`, `JSON.parse`/`JSON.stringify` and `alert`. The
  initial state takes the saved list as an `Option` parameter (`None` for a missing or empty
  entry). Parse failures belong to the library.
- The toolkit's internals are left out: drawing commands, `batchDraw` and the handle's gesture
  mathematics. A gesture is modelled as multiplying the node's scale (`Nodes.ScaledBy`). Regular
  polygons are given by side count and radius, not by vertices.
- Where a shape is anchored (top-left or centre) is a convention of the toolkit and is left out.
  So are stroke colour and stroke width.
- The node registry (`shapeRefs`) is filled by render-time `ref` callbacks. Here it is an input
  `map<int, Node>`. The handle is taken to be mounted whenever the selection effect runs, because
  it is rendered unconditionally.
- React's scheduling is not modelled as such. Handlers see the current state, not a stale
  closure. A render commit is the caller's call of `Editor.Commit` with the registry that render
  built; when commits happen is the caller's choice.
- IEEE-754 effects are left out, and so is `NaN` in `rotation || 0`. A shape kind outside the nine
  cannot occur in the typed model, so the `default:` branch is not modelled separately.
- `ShapeRenderer.CustomTransformEnd` and `TextRenderer.TextTransformEnd` do not call the outer
  handler. They return the node state that handler would see.
- `MarketMap.ResizesDoNotCompound` covers box-shaped stalls only, whose node takes the stall's
  width and height on re-render. Circle and ellipse nodes take radii instead.

## Findings

| source | as written | input that shows it | evidently intended | confidence | as-written member | corrected member |
|---|---|---|---|---|---|---|
| src/MarketMap.tsx:68-79, 136-142 | The selection effect depends on `selectedId` only. A change between node types (rect/rounded ↔ circle ↔ ellipse) mounts a new node and registers it, but it does not re-run the effect. A change between `rect` and `rounded` keeps the same `Rect` node and is not affected. | Select stall 1 (`rect`), then choose `circle`. The handle stays attached to the removed rect node. | After a shape change, the handle is attached to the selected stall's current node: detach, then re-attach by id. | medium, not executed | `MarketMap.StaleHandleAfterShapeChange` | `MarketMap.Editor.UpdateShapeTypeAndRebind` |
