/** The stall editor component: an ordered list of stalls, an optional
    selected id, the manipulation handle bound to the selected stall's node,
    and the handlers that replace that state. This component declares its
    own four-kind shape type and a stall without rotation or owner.

    The new lists the handlers install are pure expressions over the old list
    (`reduce`, `map`, `filter`); they are the functions below, and the
    `Editor` class's methods are stated in terms of them. */
module MarketMap {
  import opened Common
  import opened Nodes

  /** A UTF-16 code unit. Stall names are built with `String.fromCharCode`,
      which works on code units and keeps only the low 16 bits. */
  type CodeUnit = c: int | 0 <= c < 0x1_0000

  type JsString = seq<CodeUnit>

  datatype ShapeType = Rect | Rounded | Circle | Ellipse

  datatype Store = Store(
    id: int,
    name: JsString,
    x: real,
    y: real,
    width: real,
    height: real,
    color: string,
    shapeType: ShapeType)

  /** "Store " as code units. */
  const StorePrefix: JsString := [83, 116, 111, 114, 101, 32]

  /** The name given to a stall added when the list holds `count` stalls:
      "Store " followed by the code unit 65 + count ("Store A" for an empty
      list), wrapped to 16 bits. */
  function StoreName(count: nat): JsString {
    StorePrefix + [(65 + count) % 0x1_0000]
  }

  /** No two stalls share an id. */
  predicate UniqueIds(stores: seq<Store>) {
    forall i, j :: 0 <= i < j < |stores| ==> stores[i].id != stores[j].id
  }

  /** The three stalls shown when nothing was saved. Their ids and names are
      the ones three adds to an empty list would give. */
  function DefaultStores(): (r: seq<Store>)
    ensures |r| == 3 && UniqueIds(r)
    ensures forall i :: 0 <= i < |r| ==> r[i].id == i + 1 && r[i].name == StoreName(i)
    ensures forall i :: 0 <= i < |r| ==> r[i].width > 0.0 && r[i].height > 0.0
  {
    [ Store(1, StorePrefix + [65], 50.0, 50.0, 100.0, 80.0, "lightblue", Rect),
      Store(2, StorePrefix + [66], 200.0, 50.0, 120.0, 80.0, "lightgreen", Circle),
      Store(3, StorePrefix + [67], 350.0, 50.0, 100.0, 80.0, "lightcoral", Ellipse) ]
  }

  // ---------------------------------------------------------------------
  // Adding a stall.

  /** `stores.reduce((max, s) => Math.max(max, s.id), acc)`: the largest of
      `acc` and every id in the list. */
  function MaxIdFrom(acc: int, stores: seq<Store>): (m: int)
    ensures acc <= m
    ensures forall i :: 0 <= i < |stores| ==> stores[i].id <= m
    ensures m == acc || exists i :: 0 <= i < |stores| && stores[i].id == m
    decreases |stores|
  {
    if stores == [] then acc else MaxIdFrom(if acc <= stores[0].id then stores[0].id else acc, stores[1..])
  }

  /** The id an added stall gets: one more than the largest id, or than 0
      when the list is empty or holds no positive id. */
  function NewId(stores: seq<Store>): (id: int)
    ensures 1 <= id
    ensures forall i :: 0 <= i < |stores| ==> stores[i].id < id
    ensures id == 1 || exists i :: 0 <= i < |stores| && stores[i].id == id - 1
  {
    MaxIdFrom(0, stores) + 1
  }

  /** The stall the add handler appends. */
  function NewStore(stores: seq<Store>): Store {
    Store(NewId(stores), StoreName(|stores|), 100.0, 100.0, 100.0, 80.0, "lightgray", Rect)
  }

  /** `[...stores, newStore]`: one stall appended, everything before it kept
      in order, and ids still distinct. */
  function Added(stores: seq<Store>): (r: seq<Store>)
    ensures |r| == |stores| + 1 && r[..|stores|] == stores
    ensures forall i :: 0 <= i < |stores| ==> stores[i].id < r[|stores|].id
    ensures UniqueIds(stores) ==> UniqueIds(r)
  {
    stores + [NewStore(stores)]
  }

  // ---------------------------------------------------------------------
  // Removing a stall.

  /** `stores.filter(s => s.id !== id)`. */
  function WithoutId(stores: seq<Store>, id: int): (r: seq<Store>)
    ensures |r| <= |stores|
    ensures forall s :: s in r ==> s in stores && s.id != id
    ensures forall s :: s in stores && s.id != id ==> s in r
    decreases |stores|
  {
    if stores == [] then []
    else if stores[0].id == id then WithoutId(stores[1..], id)
    else [stores[0]] + WithoutId(stores[1..], id)
  }

  /** Removing an id no stall has leaves the list as it is. */
  lemma {:induction false} WithoutAbsentId(stores: seq<Store>, id: int)
    requires forall i :: 0 <= i < |stores| ==> stores[i].id != id
    ensures WithoutId(stores, id) == stores
  {
    if stores != [] {
      WithoutAbsentId(stores[1..], id);
    }
  }

  /** With distinct ids, removing the id of the stall at `k` drops exactly
      that stall and keeps every other one in its original order. */
  lemma {:induction false} WithoutIdRemovesOne(stores: seq<Store>, k: nat)
    requires UniqueIds(stores) && k < |stores|
    ensures WithoutId(stores, stores[k].id) == stores[..k] + stores[k + 1..]
  {
    var id := stores[k].id;
    if k == 0 {
      WithoutAbsentId(stores[1..], id);
    } else {
      var rest := stores[1..];
      assert rest[k - 1] == stores[k];
      WithoutIdRemovesOne(rest, k - 1);
      assert stores[..k] == [stores[0]] + rest[..k - 1];
      assert stores[k + 1..] == rest[k..];
    }
  }

  /** Dropping one position from a list with distinct ids keeps them distinct. */
  lemma DropKeepsUnique(stores: seq<Store>, k: nat)
    requires UniqueIds(stores) && k < |stores|
    ensures UniqueIds(stores[..k] + stores[k + 1..])
  {
    var r := stores[..k] + stores[k + 1..];
    assert forall i :: 0 <= i < |r| ==> r[i] == stores[if i < k then i else i + 1];
  }

  /** Removing a stall keeps ids distinct. */
  lemma WithoutIdKeepsUnique(stores: seq<Store>, id: int)
    requires UniqueIds(stores)
    ensures UniqueIds(WithoutId(stores, id))
  {
    if k :| 0 <= k < |stores| && stores[k].id == id {
      WithoutIdRemovesOne(stores, k);
      DropKeepsUnique(stores, k);
    } else {
      WithoutAbsentId(stores, id);
    }
  }

  // ---------------------------------------------------------------------
  // Patching a stall in place.

  /** The fields of a stall, to say which ones a patch may change. */
  datatype Field = IdField | NameField | XField | YField | WidthField | HeightField | ColorField | ShapeField

  /** `a` and `b` agree on every field not in `changed`. */
  predicate AgreeExcept(a: Store, b: Store, changed: set<Field>) {
    && (IdField !in changed ==> a.id == b.id)
    && (NameField !in changed ==> a.name == b.name)
    && (XField !in changed ==> a.x == b.x)
    && (YField !in changed ==> a.y == b.y)
    && (WidthField !in changed ==> a.width == b.width)
    && (HeightField !in changed ==> a.height == b.height)
    && (ColorField !in changed ==> a.color == b.color)
    && (ShapeField !in changed ==> a.shapeType == b.shapeType)
  }

  /** `stores.map(s => s.id === id ? patch(s) : s)`. */
  function Patched(stores: seq<Store>, id: int, patch: Store -> Store): seq<Store>
  {
    seq(|stores|, i requires 0 <= i < |stores| => if stores[i].id == id then patch(stores[i]) else stores[i])
  }

  /** The shape-type patch: the matching stalls take the new shape, every
      other field and every other stall stay as they were. */
  function WithShape(stores: seq<Store>, id: int, shape: ShapeType): (r: seq<Store>)
    ensures |r| == |stores|
    ensures forall i :: 0 <= i < |r| ==> AgreeExcept(r[i], stores[i], {ShapeField})
    ensures forall i :: 0 <= i < |r| ==> stores[i].id == id ==> r[i].shapeType == shape
    ensures forall i :: 0 <= i < |r| ==> stores[i].id != id ==> r[i] == stores[i]
  {
    Patched(stores, id, (s: Store) => s.(shapeType := shape))
  }

  /** The drag patch: the matching stalls move to (x, y); size, shape and
      every other stall are untouched. */
  function Moved(stores: seq<Store>, id: int, x: real, y: real): (r: seq<Store>)
    ensures |r| == |stores|
    ensures forall i :: 0 <= i < |r| ==> AgreeExcept(r[i], stores[i], {XField, YField})
    ensures forall i :: 0 <= i < |r| ==> stores[i].id == id ==> r[i].x == x && r[i].y == y
    ensures forall i :: 0 <= i < |r| ==> stores[i].id != id ==> r[i] == stores[i]
  {
    Patched(stores, id, (s: Store) => s.(x := x, y := y))
  }

  /** The resize patch: the matching stalls take the given absolute size;
      position, shape and every other stall are untouched. */
  function Resized(stores: seq<Store>, id: int, size: Size): (r: seq<Store>)
    ensures |r| == |stores|
    ensures forall i :: 0 <= i < |r| ==> AgreeExcept(r[i], stores[i], {WidthField, HeightField})
    ensures forall i :: 0 <= i < |r| ==> stores[i].id == id ==> r[i].width == size.width && r[i].height == size.height
    ensures forall i :: 0 <= i < |r| ==> stores[i].id != id ==> r[i] == stores[i]
  {
    Patched(stores, id, (s: Store) => s.(width := size.width, height := size.height))
  }

  /** A patch that keeps ids keeps them distinct, and with distinct ids it
      changes exactly the one stall holding the id, at its position. */
  lemma PatchedAtUniqueId(stores: seq<Store>, k: nat, patch: Store -> Store)
    requires UniqueIds(stores) && k < |stores|
    requires forall s :: patch(s).id == s.id
    ensures Patched(stores, stores[k].id, patch) == stores[k := patch(stores[k])]
    ensures UniqueIds(Patched(stores, stores[k].id, patch))
  {
    var r := Patched(stores, stores[k].id, patch);
    assert forall i :: 0 <= i < |r| ==> r[i].id == stores[i].id;
  }

  /** A second patch of the same stall overrides the first: the last drag,
      the last resize and the last shape chosen win. */
  lemma LaterPatchWins(stores: seq<Store>, id: int, x1: real, y1: real, x2: real, y2: real,
                       size1: Size, size2: Size, shape1: ShapeType, shape2: ShapeType)
    ensures Moved(Moved(stores, id, x1, y1), id, x2, y2) == Moved(stores, id, x2, y2)
    ensures Resized(Resized(stores, id, size1), id, size2) == Resized(stores, id, size2)
    ensures WithShape(WithShape(stores, id, shape1), id, shape2) == WithShape(stores, id, shape2)
  {
    var m1, m2 := Moved(Moved(stores, id, x1, y1), id, x2, y2), Moved(stores, id, x2, y2);
    assert forall i :: 0 <= i < |m1| ==> m1[i] == m2[i];
    var r1, r2 := Resized(Resized(stores, id, size1), id, size2), Resized(stores, id, size2);
    assert forall i :: 0 <= i < |r1| ==> r1[i] == r2[i];
    var s1, s2 := WithShape(WithShape(stores, id, shape1), id, shape2), WithShape(stores, id, shape2);
    assert forall i :: 0 <= i < |s1| ==> s1[i] == s2[i];
  }

  // ---------------------------------------------------------------------
  // Naming and numbering after deletes.

  /** Names follow the count, not the id: after deleting "Store A" from the
      default list, an added stall is named "Store C" like the stall with id
      3, while its id, 4, stays distinct. */
  lemma NameRepeatsAfterDelete()
    ensures var r := Added(WithoutId(DefaultStores(), 1));
      |r| == 3 && r[1].name == r[2].name && r[1].id == 3 && r[2].id == 4
  {
    var d := DefaultStores();
    WithoutIdRemovesOne(d, 0);
    var w := WithoutId(d, 1);
    assert w == [d[1], d[2]];
    assert MaxIdFrom(0, w) == 3;
  }

  /** Ids are distinct among the stalls that exist, not forever. An example
      on the default list: deleting id 3 makes the next add get 3 again. */
  lemma DeletedTopIdIsReused()
    ensures NewId(WithoutId(DefaultStores(), 3)) == 3
  {
    var d := DefaultStores();
    WithoutIdRemovesOne(d, 2);
    assert WithoutId(d, 3) == [d[0], d[1]];
  }

  // ---------------------------------------------------------------------
  // Binding the manipulation handle.

  /** The nodes the handle is attached to when the selection effect runs:
      the registered node of the selected id, or none. */
  function BoundNodes(selected: Option<int>, refs: map<int, Node>): (r: seq<Node>)
    ensures |r| <= 1
    ensures |r| == 1 <==> selected.Some? && selected.value in refs
    ensures |r| == 1 ==> r[0] == refs[selected.value]
  {
    if selected.Some? && selected.value in refs then [refs[selected.value]] else []
  }

  // ---------------------------------------------------------------------
  // Why transform end resets the node's scale.

  /** The factor of one handle gesture. */
  datatype Factor = Factor(fx: real, fy: real)

  /** One resize of a box-shaped stall of size `size` whose node holds `n`:
      the re-render gives the node the stall's size (scale is not a rendered
      property, so the node keeps it), the gesture multiplies the node's
      scale, and transform end stores the displayed size; with `reset` the
      node's scale then goes back to 1, as the handler does. */
  function ResizeStep(size: Size, n: NodeState, f: Factor, reset: bool): (Size, NodeState) {
    var dragged := ScaledBy(n.(width := size.width, height := size.height), f.fx, f.fy);
    (DisplayedSize(dragged), if reset then ScaleReset(dragged) else dragged)
  }

  /** A sequence of resizes, each starting from the stored size and node the
      previous one left. */
  function ResizeSession(size: Size, n: NodeState, fs: seq<Factor>, reset: bool): (Size, NodeState)
    decreases |fs|
  {
    if fs == [] then (size, n)
    else
      var step := ResizeStep(size, n, fs[0], reset);
      ResizeSession(step.0, step.1, fs[1..], reset)
  }

  function ProductX(fs: seq<Factor>): real
    decreases |fs|
  {
    if fs == [] then 1.0 else fs[0].fx * ProductX(fs[1..])
  }

  function ProductY(fs: seq<Factor>): real
    decreases |fs|
  {
    if fs == [] then 1.0 else fs[0].fy * ProductY(fs[1..])
  }

  /** With the reset, each resize scales the size the previous one stored:
      after any number of gestures the stored size is the original size times
      the product of the factors, and the node is left at scale 1. */
  lemma {:induction false} ResizesDoNotCompound(size: Size, n: NodeState, fs: seq<Factor>)
    requires n.scaleX == 1.0 && n.scaleY == 1.0
    decreases |fs|
    ensures ResizeSession(size, n, fs, true).0 == Size(size.width * ProductX(fs), size.height * ProductY(fs))
    ensures ResizeSession(size, n, fs, true).1.scaleX == 1.0
    ensures ResizeSession(size, n, fs, true).1.scaleY == 1.0
  {
    if fs != [] {
      var step := ResizeStep(size, n, fs[0], true);
      var fx, fy := fs[0].fx, fs[0].fy;
      assert step.0 == Size(size.width * fx, size.height * fy);
      ResizesDoNotCompound(step.0, step.1, fs[1..]);
      assert size.width * fx * ProductX(fs[1..]) == size.width * (fx * ProductX(fs[1..]));
      assert size.height * fy * ProductY(fs[1..]) == size.height * (fy * ProductY(fs[1..]));
    }
  }

  /** A 100 x 80 stall resized by (2, 1.5) and then by 1.1 horizontally
      ends at 220 x 120; without the reset the stale scale of 2 would
      compound and store a width of 440. */
  lemma ResizeScenario()
    ensures ResizeSession(Size(100.0, 80.0), NodeState(100.0, 80.0, 1.0, 1.0),
                          [Factor(2.0, 1.5), Factor(1.1, 1.0)], true).0 == Size(220.0, 120.0)
    ensures ResizeSession(Size(100.0, 80.0), NodeState(100.0, 80.0, 1.0, 1.0),
                          [Factor(2.0, 1.5), Factor(1.1, 1.0)], false).0.width == 440.0
  {
    var fs := [Factor(2.0, 1.5), Factor(1.1, 1.0)];
    assert fs[1..] == [Factor(1.1, 1.0)] && fs[1..][1..] == [];
  }

  // ---------------------------------------------------------------------
  // The component.

  class Editor {
    var stores: seq<Store>
    var selectedId: Option<int>
    /** The nodes the manipulation handle is attached to. */
    var transformerNodes: seq<Node>
    /** The selection the selection effect last ran with. */
    var effectSelection: Option<int>

    /** The initial state: the saved list when there is one, else the
        default stalls; nothing selected, and the mount run of the selection
        effect has attached the handle to nothing. */
    constructor (saved: Option<seq<Store>>)
      ensures stores == saved.GetOr(DefaultStores())
      ensures selectedId == None && transformerNodes == []
      ensures effectSelection == None
    {
      stores := saved.GetOr(DefaultStores());
      selectedId := None;
      transformerNodes := [];
      effectSelection := None;
    }

    /** Clicking a stall selects it. */
    method Select(id: int)
      modifies this`selectedId
      ensures selectedId == Some(id)
    {
      selectedId := Some(id);
    }

    /** The effect that runs when `selectedId` has changed: attach the
        handle to the selected stall's registered node, or to nothing. */
    method SyncTransformer(refs: map<int, Node>)
      modifies this`transformerNodes
      ensures transformerNodes == BoundNodes(selectedId, refs)
    {
      if selectedId.Some? && selectedId.value in refs {
        transformerNodes := [refs[selectedId.value]];
      } else {
        transformerNodes := [];
      }
    }

    /** A render commit with the node registry `refs`: the selection effect,
        whose only dependency is `selectedId`, runs when the selection differs
        from the one it last ran with, and otherwise leaves the handle as it
        is. */
    method Commit(refs: map<int, Node>)
      modifies this`transformerNodes, this`effectSelection
      ensures effectSelection == selectedId
      ensures old(effectSelection) != selectedId ==> transformerNodes == BoundNodes(selectedId, refs)
      ensures old(effectSelection) == selectedId ==> transformerNodes == old(transformerNodes)
    {
      if effectSelection != selectedId {
        SyncTransformer(refs);
        effectSelection := selectedId;
      }
    }

    /** End of a resize on stall `id`: store the node's displayed size as
        the stall's absolute size, then reset the node's scale to 1. When no
        node is registered for `id` the handler fails (`ok` is false) before
        changing anything. */
    method HandleTransformEnd(id: int, refs: map<int, Node>) returns (ok: bool)
      modifies this`stores, if id in refs then {refs[id]} else {}
      ensures ok <==> id in refs
      ensures !ok ==> stores == old(stores)
      ensures ok ==> stores == Resized(old(stores), id, DisplayedSize(old(refs[id].State())))
      ensures ok ==> refs[id].State() == ScaleReset(old(refs[id].State()))
      ensures old(UniqueIds(stores)) ==> UniqueIds(stores)
    {
      if id !in refs {
        return false;
      }
      var node := refs[id];
      // width * scaleX and height * scaleY, read before the reset
      var updated := Resized(stores, id, DisplayedSize(node.State()));
      node.scaleX := 1.0;
      node.scaleY := 1.0;
      stores := updated;
      ok := true;
    }

    /** End of a drag of stall `id` to (x, y). */
    method HandleDragEnd(id: int, x: real, y: real)
      modifies this`stores
      ensures stores == Moved(old(stores), id, x, y)
      ensures old(UniqueIds(stores)) ==> UniqueIds(stores)
    {
      stores := Moved(stores, id, x, y);
    }

    /** Append a new stall and select it. */
    method AddStore()
      modifies this`stores, this`selectedId
      ensures stores == Added(old(stores))
      ensures stores[|stores| - 1] == Store(NewId(old(stores)), StoreName(|old(stores)|), 100.0, 100.0, 100.0, 80.0, "lightgray", Rect)
      ensures selectedId == Some(stores[|stores| - 1].id)
      ensures old(UniqueIds(stores)) ==> UniqueIds(stores)
    {
      var maxId := MaxIdFrom(0, stores);
      var newStore := Store(maxId + 1, StoreName(|stores|), 100.0, 100.0, 100.0, 80.0, "lightgray", Rect);
      stores := stores + [newStore];
      selectedId := Some(newStore.id);
    }

    /** Remove the selected stall and clear the selection; nothing happens
        when nothing is selected. */
    method DeleteSelectedStore()
      modifies this`stores, this`selectedId
      ensures old(selectedId).None? ==> stores == old(stores)
      ensures old(selectedId).Some? ==> stores == WithoutId(old(stores), old(selectedId).value)
      ensures selectedId == None
      ensures old(UniqueIds(stores)) ==> UniqueIds(stores)
    {
      if selectedId.None? {
        return;
      }
      if UniqueIds(stores) {
        WithoutIdKeepsUnique(stores, selectedId.value);
      }
      stores := WithoutId(stores, selectedId.value);
      selectedId := None;
    }

    /** Give the selected stall a new shape; nothing happens when nothing is
        selected. The selection does not change, so the selection effect does
        not run and the handle stays on the node it had. */
    method UpdateShapeType(newShape: ShapeType)
      modifies this`stores
      ensures selectedId.None? ==> stores == old(stores)
      ensures selectedId.Some? ==> stores == WithShape(old(stores), selectedId.value, newShape)
      ensures old(UniqueIds(stores)) ==> UniqueIds(stores)
    {
      if selectedId.None? {
        return;
      }
      stores := WithShape(stores, selectedId.value, newShape);
    }

    /** Changing the shape with the handle re-bound afterwards: detach it,
        then, once the re-render has registered the new node in `refs`,
        attach it to the selected stall's node again. */
    method UpdateShapeTypeAndRebind(newShape: ShapeType, refs: map<int, Node>)
      modifies this`stores, this`transformerNodes
      ensures selectedId.None? ==> stores == old(stores)
      ensures selectedId.Some? ==> stores == WithShape(old(stores), selectedId.value, newShape)
      ensures transformerNodes == BoundNodes(selectedId, refs)
      ensures old(UniqueIds(stores)) ==> UniqueIds(stores)
    {
      UpdateShapeType(newShape);
      transformerNodes := [];
      SyncTransformer(refs);
    }
  }

  /** Select a stall drawn as a `Rect` and commit, then change it to a circle:
      the re-render mounts a `Circle` node and registers it, but the commit
      does not re-run the selection effect, so the handle is still attached
      to the removed node, not to the one now drawn. */
  method StaleHandleAfterShapeChange() returns (attached: seq<Node>, live: seq<Node>)
    ensures attached != live
  {
    var editor := new Editor(None);
    var oldNode := new Node(100.0, 80.0);
    var refs := map[1 := oldNode];
    editor.Select(1);
    editor.Commit(refs);
    editor.UpdateShapeType(Circle);
    var newNode := new Node(100.0, 80.0);
    refs := refs[1 := newNode];
    editor.Commit(refs);
    attached := editor.transformerNodes;
    live := BoundNodes(editor.selectedId, refs);
    assert attached == [oldNode] && live == [newNode];
  }

  /** A change between `rect` and `rounded` keeps the node type, so the same
      `Rect` node stays registered and the handle stays correct. */
  method SameNodeTypeKeepsHandle() returns (attached: seq<Node>, live: seq<Node>)
    ensures attached == live && |live| == 1
  {
    var editor := new Editor(None);
    var node := new Node(100.0, 80.0);
    var refs := map[1 := node];
    editor.Select(1);
    editor.Commit(refs);
    editor.UpdateShapeType(Rounded);
    editor.Commit(refs);
    attached := editor.transformerNodes;
    live := BoundNodes(editor.selectedId, refs);
  }

  /** The same steps with the re-binding shape change leave the handle on the
      node now drawn. */
  method RebindAfterShapeChange() returns (attached: seq<Node>, live: seq<Node>)
    ensures attached == live && |live| == 1
  {
    var editor := new Editor(None);
    var oldNode := new Node(100.0, 80.0);
    var refs := map[1 := oldNode];
    editor.Select(1);
    editor.Commit(refs);
    var newNode := new Node(100.0, 80.0);
    refs := refs[1 := newNode];
    editor.UpdateShapeTypeAndRebind(Circle, refs);
    editor.Commit(refs);
    attached := editor.transformerNodes;
    live := BoundNodes(editor.selectedId, refs);
  }
}
