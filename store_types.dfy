/** The shared entity types of the editor: a stall with the full nine-kind
    shape catalog, and a free-standing text label. */
module StoreTypes {
  import opened Common

  datatype ShapeType =
    | Rect
    | Rounded
    | Circle
    | Ellipse
    | Hexagon
    | Triangle
    | Diamond
    | Custom1
    | Custom2

  /** A stall. `rotation` is in degrees. */
  datatype Store = Store(
    id: int,
    name: string,
    x: real,
    y: real,
    width: real,
    height: real,
    color: string,
    shapeType: ShapeType,
    rotation: real,
    storeOwner: string)

  /** A text label; its rotation may be absent. */
  datatype TextLabel = TextLabel(
    id: int,
    text: string,
    x: real,
    y: real,
    fontSize: real,
    fontFamily: string,
    fill: string,
    rotation: Option<real>)
}
