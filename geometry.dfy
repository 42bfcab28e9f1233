/** Corner anchoring: the four update*Animation slots turn the animated width
    into the widget's rectangle, and the constructor picks the one slot that
    gui/position names. */
module Geometry {
  import opened Foreign

  datatype Corner = TopLeft | TopRight | BottomRight | BottomLeft

  /** A widget rectangle: top-left corner, width and height. */
  datatype Rect = Rect(x: int, y: int, width: int, height: int)

  /** The size of the screen's available geometry. */
  datatype Screen = Screen(width: int, height: int)

  /** The gui/position value that selects each corner. */
  function CornerName(c: Corner): string {
    match c
    case TopLeft => "top_left"
    case TopRight => "top_right"
    case BottomRight => "bottom_right"
    case BottomLeft => "bottom_left"
  }

  /** The constructor's choice of slot: any other value connects none, and
      the widget is then never placed. */
  function PositionOf(setting: string): (c: Option<Corner>)
    ensures c.Some? ==> CornerName(c.value) == setting
    ensures c.None? ==> forall k: Corner :: CornerName(k) != setting
  {
    if setting == "top_left" then Some(TopLeft)
    else if setting == "top_right" then Some(TopRight)
    else if setting == "bottom_right" then Some(BottomRight)
    else if setting == "bottom_left" then Some(BottomLeft)
    else None
  }

  /** Every corner is selected by its own name. */
  lemma PositionOfCornerName(c: Corner)
    ensures PositionOf(CornerName(c)) == Some(c)
  {
  }

  /** updateTopLeftAnimation: setFixedWidth(v) changes the width only. */
  function TopLeftGeometry(current: Rect, v: int): (r: Rect)
    ensures r.width == v
    ensures r.x == current.x && r.y == current.y && r.height == current.height
  {
    current.(width := v)
  }

  /** updateTopRightAnimation: against the top edge, right edge at the
      screen's width. */
  function TopRightGeometry(v: int, screen: Screen, h: int): (r: Rect)
    ensures r.width == v && r.height == h
    ensures r.y == 0 && r.x + r.width == screen.width
  {
    Rect(screen.width - v, 0, v, h)
  }

  /** updateBottomRightAnimation: right edge at the screen's width, bottom
      edge at its height. */
  function BottomRightGeometry(v: int, screen: Screen, h: int): (r: Rect)
    ensures r.width == v && r.height == h
    ensures r.x + r.width == screen.width && r.y + r.height == screen.height
  {
    Rect(screen.width - v, screen.height - h, v, h)
  }

  /** updateBottomLeftAnimation: against the left edge, bottom edge at the
      screen's height. */
  function BottomLeftGeometry(v: int, screen: Screen, h: int): (r: Rect)
    ensures r.width == v && r.height == h
    ensures r.x == 0 && r.y + r.height == screen.height
  {
    Rect(0, screen.height - h, v, h)
  }

  /** The rectangle the selected slot gives for the animated value v; the
      height is the widget's own, height(). */
  function FrameGeometry(c: Corner, current: Rect, v: int, screen: Screen): (r: Rect)
  {
    match c
    case TopLeft => TopLeftGeometry(current, v)
    case TopRight => TopRightGeometry(v, screen, current.height)
    case BottomRight => BottomRightGeometry(v, screen, current.height)
    case BottomLeft => BottomLeftGeometry(v, screen, current.height)
  }

  /** In every corner the width follows the animated value, the height never
      changes, right-anchored corners keep the right edge on the screen's
      right edge and bottom-anchored ones the bottom edge on its bottom edge. */
  lemma FrameGeometryAnchors(c: Corner, current: Rect, v: int, screen: Screen)
    ensures FrameGeometry(c, current, v, screen).width == v
    ensures FrameGeometry(c, current, v, screen).height == current.height
    ensures c == TopRight || c == BottomRight ==>
              FrameGeometry(c, current, v, screen).x + v == screen.width
    ensures c == BottomRight || c == BottomLeft ==>
              FrameGeometry(c, current, v, screen).y + current.height == screen.height
    ensures c == TopRight ==> FrameGeometry(c, current, v, screen).y == 0
    ensures c == BottomLeft ==> FrameGeometry(c, current, v, screen).x == 0
    ensures c == TopLeft ==> FrameGeometry(c, current, v, screen).x == current.x &&
                             FrameGeometry(c, current, v, screen).y == current.y
  {
  }
}
