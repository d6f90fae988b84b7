/** Rendering of a text label and the rule that turns a resize of the label
    into a new absolute font size. */
module TextRenderer {
  import opened Common
  import opened StoreTypes

  /** The attributes a text node is drawn with. */
  datatype TextView = TextView(
    text: string,
    x: real,
    y: real,
    fontSize: real,
    fontFamily: string,
    fill: string,
    rotation: real,
    offsetX: real,
    offsetY: real)

  /** A label's text, position, font size, font family and fill pass through
      unchanged; a missing rotation is drawn as 0 and both offsets are 0. */
  function RenderText(textLabel: TextLabel): (v: TextView)
    ensures v.text == textLabel.text && v.x == textLabel.x && v.y == textLabel.y
    ensures v.fontSize == textLabel.fontSize && v.fontFamily == textLabel.fontFamily && v.fill == textLabel.fill
    ensures textLabel.rotation.None? ==> v.rotation == 0.0
    ensures textLabel.rotation.Some? ==> v.rotation == textLabel.rotation.value
    ensures v.offsetX == 0.0 && v.offsetY == 0.0
  {
    TextView(textLabel.text, textLabel.x, textLabel.y, textLabel.fontSize, textLabel.fontFamily, textLabel.fill,
             textLabel.rotation.GetOr(0.0), 0.0, 0.0)
  }

  /** A label without a rotation is drawn exactly like one rotated by 0, and
      the id only keys the node, so it never changes what is drawn. */
  lemma MissingRotationDrawsAsZero(textLabel: TextLabel, otherId: int)
    ensures RenderText(textLabel.(rotation := None)) == RenderText(textLabel.(rotation := Some(0.0)))
    ensures RenderText(textLabel.(id := otherId)) == RenderText(textLabel)
  {
  }

  /** The font size after a resize: the label's font size times the node's
      horizontal scale, rounded to an integer. */
  function RescaledFontSize(fontSize: real, scaleX: real): (r: int)
    ensures fontSize * scaleX - 0.5 < r as real <= fontSize * scaleX + 0.5
  {
    Round(fontSize * scaleX)
  }

  /** A resize folded into the font size does not drift: a further transform
      end at scale 1 keeps the font size. */
  lemma FontRescaleSettles(fontSize: real, scaleX: real)
    ensures var f := RescaledFontSize(fontSize, scaleX);
      RescaledFontSize(f as real, 1.0) == f
  {
    RoundSettles(fontSize * scaleX);
  }

  /** Stretching a label wider never makes its font smaller. */
  lemma FontRescaleMonotonic(fontSize: real, s1: real, s2: real)
    requires 0.0 <= fontSize && s1 <= s2
    ensures RescaledFontSize(fontSize, s1) <= RescaledFontSize(fontSize, s2)
  {
    assert fontSize * s1 <= fontSize * s2;
    RoundMonotonic(fontSize * s1, fontSize * s2);
  }

  datatype TextNodeState = TextNodeState(fontSize: real, scaleX: real, scaleY: real)

  /** A live text node. */
  class TextNode {
    var fontSize: real
    var scaleX: real
    var scaleY: real

    constructor (fontSize: real)
      ensures State() == TextNodeState(fontSize, 1.0, 1.0)
    {
      this.fontSize := fontSize;
      scaleX := 1.0;
      scaleY := 1.0;
    }

    function State(): TextNodeState
      reads this
    {
      TextNodeState(fontSize, scaleX, scaleY)
    }
  }

  /** The label's transform-end handler: set the node's font size from the
      label's font size and the node's horizontal scale (the vertical scale is
      not read), reset both scales to 1, and only then call the outer handler,
      which sees the returned state. */
  method TextTransformEnd(node: TextNode, textLabel: TextLabel) returns (seen: TextNodeState)
    modifies node
    ensures node.fontSize == RescaledFontSize(textLabel.fontSize, old(node.scaleX)) as real
    ensures node.scaleX == 1.0 && node.scaleY == 1.0
    ensures seen == node.State()
  {
    var scaleX := node.scaleX;
    var newFontSize := RescaledFontSize(textLabel.fontSize, scaleX);
    node.fontSize := newFontSize as real;
    node.scaleX := 1.0;
    node.scaleY := 1.0;
    seen := node.State();
  }
}
