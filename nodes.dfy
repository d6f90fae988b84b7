/** The rendering toolkit's shape node, reduced to what the editor reads and
    writes: the node's own width and height and its transient scale factors.
    The manipulation handle (the toolkit's Transformer) resizes a node only by
    changing its scale; the editor folds that scale into an absolute size. */
module Nodes {

  /** A snapshot of a node's geometry attributes. */
  datatype NodeState = NodeState(width: real, height: real, scaleX: real, scaleY: real)

  datatype Size = Size(width: real, height: real)

  /** The size the node occupies on screen: its own size times its scale. */
  function DisplayedSize(n: NodeState): (s: Size)
    ensures n.scaleX == 1.0 ==> s.width == n.width
    ensures n.scaleY == 1.0 ==> s.height == n.height
  {
    Size(n.width * n.scaleX, n.height * n.scaleY)
  }

  /** What dragging the handle does to the node: it multiplies the node's
      current scale by the factor of the gesture and leaves its size alone. */
  function ScaledBy(n: NodeState, fx: real, fy: real): (r: NodeState)
    ensures r.width == n.width && r.height == n.height
    ensures n.scaleX == 1.0 ==> DisplayedSize(r).width == n.width * fx
    ensures n.scaleY == 1.0 ==> DisplayedSize(r).height == n.height * fy
  {
    n.(scaleX := n.scaleX * fx, scaleY := n.scaleY * fy)
  }

  /** The node after its scale factors are set back to 1. */
  function ScaleReset(n: NodeState): (r: NodeState)
    ensures r.width == n.width && r.height == n.height
    ensures DisplayedSize(r) == Size(n.width, n.height)
  {
    n.(scaleX := 1.0, scaleY := 1.0)
  }

  /** A live shape node, whose attributes handlers set in place. */
  class Node {
    var width: real
    var height: real
    var scaleX: real
    var scaleY: real

    constructor (width: real, height: real)
      ensures State() == NodeState(width, height, 1.0, 1.0)
    {
      this.width := width;
      this.height := height;
      scaleX := 1.0;
      scaleY := 1.0;
    }

    function State(): NodeState
      reads this
    {
      NodeState(width, height, scaleX, scaleY)
    }
  }
}
