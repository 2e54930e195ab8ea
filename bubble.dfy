/** TooltipView: the bubble's measured size (the arrow's height added once and
    then frozen), the rectangle it fills, where the arrow sits on it, and the
    arrow triangle whose apex is remembered in `arrowTip`. */
module Bubble {
  import opened Geometry

  /** Which side of the bubble the arrow protrudes from. */
  datatype ArrowPosition = Above | Below | Right | Left

  /** Where along that side the arrow sits. */
  datatype ArrowAlignment = Start | End | Center

  /** The arrow's side is a vertical edge of the bubble. */
  predicate OnVerticalEdge(pos: ArrowPosition)
  {
    pos.Left? || pos.Right?
  }

  /** The coordinate of a rectangle's edge on side `pos`. */
  function Edge(r: Rect, pos: ArrowPosition): int
  {
    match pos
    case Above => r.top
    case Below => r.bottom
    case Left => r.left
    case Right => r.right
  }

  /** +1 where moving into the rectangle from edge `pos` increases the
      coordinate (top and left edges), -1 where it decreases it. */
  function Inward(pos: ArrowPosition): int
  {
    if pos.Above? || pos.Left? then 1 else -1
  }

  /** The unit vector pointing out of the bubble through side `pos`. */
  function Outward(pos: ArrowPosition): Point
  {
    match pos
    case Above => Point(0, -1)
    case Below => Point(0, 1)
    case Left => Point(-1, 0)
    case Right => Point(1, 0)
  }

  /** A point's coordinate across edge `pos` (y for a horizontal edge). */
  function Across(p: Point, pos: ArrowPosition): int
  {
    if OnVerticalEdge(pos) then p.x else p.y
  }

  /** A point's coordinate along edge `pos` (x for a horizontal edge). */
  function Along(p: Point, pos: ArrowPosition): int
  {
    if OnVerticalEdge(pos) then p.y else p.x
  }

  /** Where edge `pos` of a rectangle starts (its top or left end). */
  function EdgeStart(r: Rect, pos: ArrowPosition): int
  {
    if OnVerticalEdge(pos) then r.top else r.left
  }

  /** The length of edge `pos` of a rectangle. */
  function EdgeLength(r: Rect, pos: ArrowPosition): int
  {
    if OnVerticalEdge(pos) then r.Height() else r.Width()
  }

  /** The view's own box, from its origin to its laid-out size. */
  function ViewBox(width: int, height: int): Rect
  {
    Rect(0, 0, width, height)
  }

  /** The rectangle selection of dispatchDraw: the view box with the arrow's
      side moved inward by the arrow's height, the other three sides kept. */
  function FillRect(width: int, height: int, pos: ArrowPosition, arrowHeight: int): (r: Rect)
    ensures Edge(r, pos) == Edge(ViewBox(width, height), pos) + Inward(pos) * arrowHeight
    ensures forall s :: s != pos ==> Edge(r, s) == Edge(ViewBox(width, height), s)
  {
    match pos
    case Above => Rect(0, 0 + arrowHeight, width, height)
    case Below => Rect(0, 0, width, height - arrowHeight)
    case Left => Rect(0 + arrowHeight, 0, width, height)
    case Right => Rect(0, 0, width - arrowHeight, height)
  }

  /** The inset removes a strip as long as the arrow's side and as deep as
      the arrow: fill area = view area - side length * arrow height. */
  lemma FillRectArea(width: int, height: int, pos: ArrowPosition, arrowHeight: int)
    ensures var r := FillRect(width, height, pos, arrowHeight);
      r.Width() * r.Height()
      == width * height - (if OnVerticalEdge(pos) then height else width) * arrowHeight
  {
    var r := FillRect(width, height, pos, arrowHeight);
    if OnVerticalEdge(pos) {
      assert r.Width() == width - arrowHeight && r.Height() == height;
    } else {
      assert r.Width() == width && r.Height() == height - arrowHeight;
    }
  }

  /** The local `offset` of getArrowBaseCoordinate: how far along an edge of
      length `len` the arrow's base sits, for an edge measured in whole pixels
      (`(len / 2f).toInt()` truncates like `len / 2`). */
  function BaseOffset(len: int, align: ArrowAlignment, arrowOffset: int): (r: int)
    ensures align.Center? ==> -1 <= 2 * r - len <= 1 && (len >= 0 ==> 0 <= r <= len)
    // the half is truncated toward zero: never past the exact middle
    ensures align.Center? ==> (len >= 0 ==> 2 * r <= len) && (len < 0 ==> 2 * r >= len)
    ensures align.Start? ==> r == arrowOffset
    ensures align.End? ==> len - r == arrowOffset
  {
    match align
    case Center => Half(len)
    case Start => arrowOffset
    case End => len - arrowOffset
  }

  /** getArrowBaseCoordinate: the centre of the arrow's base lies on the fill
      rectangle's edge for `pos`; at the middle of that edge for CENTER, and
      `arrowOffset` from its start (START) or its end (END). */
  function ArrowBaseCoordinate(rect: Rect, pos: ArrowPosition, align: ArrowAlignment,
                               arrowOffset: int): (b: Point)
    ensures Across(b, pos) == Edge(rect, pos)
    ensures align.Center? ==>
      -1 <= 2 * (Along(b, pos) - EdgeStart(rect, pos)) - EdgeLength(rect, pos) <= 1
    ensures align.Center? && EdgeLength(rect, pos) >= 0 ==>
      EdgeStart(rect, pos) <= Along(b, pos) <= EdgeStart(rect, pos) + EdgeLength(rect, pos) &&
      2 * (Along(b, pos) - EdgeStart(rect, pos)) <= EdgeLength(rect, pos)
    ensures align.Center? && EdgeLength(rect, pos) < 0 ==>
      2 * (Along(b, pos) - EdgeStart(rect, pos)) >= EdgeLength(rect, pos)
    ensures align.Start? ==> Along(b, pos) - EdgeStart(rect, pos) == arrowOffset
    ensures align.End? ==>
      EdgeStart(rect, pos) + EdgeLength(rect, pos) - Along(b, pos) == arrowOffset
  {
    match pos
    case Above => Point(rect.left + BaseOffset(rect.Width(), align, arrowOffset), rect.top)
    case Below => Point(rect.left + BaseOffset(rect.Width(), align, arrowOffset), rect.bottom)
    case Left => Point(rect.left, rect.top + BaseOffset(rect.Height(), align, arrowOffset))
    case Right => Point(rect.right, rect.top + BaseOffset(rect.Height(), align, arrowOffset))
  }

  /** The arrow polygon: base points p1 and p3, apex p2. */
  datatype Triangle = Triangle(p1: Point, p2: Point, p3: Point)

  /** The point list of getArrowPath for a base centred at (x, y). */
  function ArrowPath(x: int, y: int, width: int, height: int, pos: ArrowPosition): (t: Triangle)
    // the apex is `height` beyond the base, out of the bubble, level with the base's centre
    ensures t.p2 == Point(x + Outward(pos).x * height, y + Outward(pos).y * height)
    // both base points lie on the base line through (x, y)
    ensures Across(t.p1, pos) == Across(Point(x, y), pos) == Across(t.p3, pos)
    // and straddle its centre symmetrically
    ensures Along(t.p1, pos) + Along(t.p3, pos) == 2 * Along(Point(x, y), pos)
    // half a (truncated) width apart from it; LEFT lists them in reverse order
    ensures (if pos.Left? then Along(t.p1, pos) - Along(t.p3, pos)
             else Along(t.p3, pos) - Along(t.p1, pos)) == 2 * Half(width)
  {
    match pos
    case Above => Triangle(Point(x - Half(width), y), Point(x, y - height), Point(x + Half(width), y))
    case Below => Triangle(Point(x - Half(width), y), Point(x, y + height), Point(x + Half(width), y))
    case Right => Triangle(Point(x, y - Half(width)), Point(x + height, y), Point(x, y + Half(width)))
    case Left => Triangle(Point(x, y + Half(width)), Point(x - height, y), Point(x, y - Half(width)))
  }

  /** Twice the signed area of a triangle. */
  function DoubleArea(t: Triangle): int
  {
    (t.p2.x - t.p1.x) * (t.p3.y - t.p1.y) - (t.p2.y - t.p1.y) * (t.p3.x - t.p1.x)
  }

  /** The arrow is a proper triangle exactly when its height is non-zero and
      its width is at least two pixels either way: a width of 1 truncates to a
      zero half-width and collapses the base to a point. */
  lemma ArrowDegenerateIff(x: int, y: int, width: int, height: int, pos: ArrowPosition)
    ensures DoubleArea(ArrowPath(x, y, width, height, pos)) != 0
        <==> height != 0 && (width >= 2 || width <= -2)
  {
    var t := ArrowPath(x, y, width, height, pos);
    var h := Half(width);
    assert h != 0 <==> (width >= 2 || width <= -2);
    assert DoubleArea(t) == 2 * h * height || DoubleArea(t) == -2 * h * height by {
      match pos
      case Above =>
      case Below =>
      case Right =>
      case Left =>
    }
    NonZeroProduct(h, height);
  }

  lemma NonZeroProduct(a: int, b: int)
    ensures 2 * a * b != 0 <==> a != 0 && b != 0
    ensures -2 * a * b != 0 <==> a != 0 && b != 0
  {
    if a != 0 && b != 0 {
      assert a * b != 0 by {
        if a > 0 && b > 0 { assert a * b >= b; }
        else if a > 0 { assert a * b <= b; }
        else if b > 0 { assert a * b <= a; }
        else { assert a * b >= -a; }
      }
    }
  }

  /** The arrow for a bubble laid out at width x height: its fill rectangle,
      the arrow drawn on its edge for `pos` and `align`. */
  function BubbleArrow(width: int, height: int, pos: ArrowPosition, align: ArrowAlignment,
                       arrowWidth: int, arrowHeight: int, arrowOffset: int): (t: Triangle)
    // the base points lie on the fill rectangle's edge for `pos`
    ensures var rect := FillRect(width, height, pos, arrowHeight);
      Across(t.p1, pos) == Edge(rect, pos) == Across(t.p3, pos)
    // and the apex reaches the view's outer boundary on that side: y = 0 for
    // ABOVE, y = height for BELOW, x = 0 for LEFT, x = width for RIGHT
    ensures Across(t.p2, pos) == Edge(ViewBox(width, height), pos)
  {
    var rect := FillRect(width, height, pos, arrowHeight);
    var base := ArrowBaseCoordinate(rect, pos, align, arrowOffset);
    ArrowPath(base.x, base.y, arrowWidth, arrowHeight, pos)
  }

  /** Measured width and height of the view. */
  datatype Dimensions = Dimensions(width: int, height: int)

  /** The cache step of onMeasure: while either cached dimension is 0 the
      cache takes what the content measured, plus the arrow's height across
      the arrow's side; once both are non-zero it is kept. */
  function MeasureCache(cached: Dimensions, content: Dimensions, pos: ArrowPosition,
                        arrowHeight: int): (r: Dimensions)
    ensures cached.width != 0 && cached.height != 0 ==> r == cached
    ensures (cached.width == 0 || cached.height == 0) && OnVerticalEdge(pos) ==>
      r.width - arrowHeight == content.width && r.height == content.height
    ensures (cached.width == 0 || cached.height == 0) && !OnVerticalEdge(pos) ==>
      r.width == content.width && r.height - arrowHeight == content.height
  {
    if cached.width == 0 || cached.height == 0 then
      if OnVerticalEdge(pos) then Dimensions(content.width + arrowHeight, content.height)
      else Dimensions(content.width, content.height + arrowHeight)
    else cached
  }

  /** The cache after a series of measure passes with the given content sizes:
      either the cache it started from or the content of a single pass with
      one arrow height added, never an accumulation of several. */
  function MeasurePasses(cached: Dimensions, passes: seq<Dimensions>, pos: ArrowPosition,
                         arrowHeight: int): (r: Dimensions)
    ensures r == cached ||
      exists i :: 0 <= i < |passes| && r == MeasureCache(Dimensions(0, 0), passes[i], pos, arrowHeight)
    decreases |passes|
  {
    if passes == [] then cached
    else
      var next := MeasureCache(cached, passes[0], pos, arrowHeight);
      assert next == cached || next == MeasureCache(Dimensions(0, 0), passes[0], pos, arrowHeight);
      assert forall i :: 0 <= i < |passes[1..]| ==> passes[1..][i] == passes[i + 1];
      MeasurePasses(next, passes[1..], pos, arrowHeight)
  }

  /** Once the first pass fills both cached dimensions, no later pass changes
      the reported size: the arrow's height is added exactly once, to the
      content size of that first pass. */
  lemma {:induction false} FirstMeasureIsFinal(passes: seq<Dimensions>, pos: ArrowPosition,
                                              arrowHeight: int)
    requires passes != []
    requires var first := MeasureCache(Dimensions(0, 0), passes[0], pos, arrowHeight);
      first.width != 0 && first.height != 0
    ensures MeasurePasses(Dimensions(0, 0), passes, pos, arrowHeight)
         == MeasureCache(Dimensions(0, 0), passes[0], pos, arrowHeight)
  {
    CacheIsFrozen(MeasureCache(Dimensions(0, 0), passes[0], pos, arrowHeight), passes[1..], pos, arrowHeight);
  }

  /** A cache with both dimensions non-zero survives any series of passes. */
  lemma {:induction false} CacheIsFrozen(cached: Dimensions, passes: seq<Dimensions>,
                                        pos: ArrowPosition, arrowHeight: int)
    requires cached.width != 0 && cached.height != 0
    ensures MeasurePasses(cached, passes, pos, arrowHeight) == cached
  {
    if passes != [] {
      CacheIsFrozen(cached, passes[1..], pos, arrowHeight);
    }
  }

  /** The drawing state of a TooltipView. The arrow's dimensions come from
      dp values scaled by the screen density, so they are given. */
  class TooltipView {
    var arrowAlignment: ArrowAlignment
    var arrowPosition: ArrowPosition
    var arrowHeight: int
    var arrowWidth: int
    var arrowOffset: int
    var tooltipHeight: int
    var tooltipWidth: int
    /** What setMeasuredDimension last reported. */
    var measuredWidth: int
    var measuredHeight: int
    var arrowTip: Point
    /** Left and top margins of the content child. */
    var contentMargins: Point

    constructor (arrowHeight: int, arrowWidth: int, arrowOffset: int)
      ensures arrowAlignment == Center && arrowPosition == Below
      ensures this.arrowHeight == arrowHeight && this.arrowWidth == arrowWidth
      ensures this.arrowOffset == arrowOffset
      ensures tooltipWidth == 0 && tooltipHeight == 0
      ensures arrowTip == Point(0, 0)
    {
      arrowAlignment, arrowPosition := Center, Below;
      this.arrowHeight, this.arrowWidth, this.arrowOffset := arrowHeight, arrowWidth, arrowOffset;
      tooltipHeight, tooltipWidth := 0, 0;
      measuredWidth, measuredHeight := 0, 0;
      arrowTip := Point(0, 0);
      contentMargins := Point(0, 0);
    }

    function Cached(): Dimensions
      reads this
    {
      Dimensions(tooltipWidth, tooltipHeight)
    }

    /** onMeasure, given the size the frame layout measured for its content. */
    method OnMeasure(content: Dimensions)
      modifies this`tooltipWidth, this`tooltipHeight, this`measuredWidth, this`measuredHeight
      ensures Cached() == MeasureCache(old(Cached()), content, arrowPosition, arrowHeight)
      ensures measuredWidth == tooltipWidth && measuredHeight == tooltipHeight
    {
      if tooltipWidth == 0 || tooltipHeight == 0 {
        tooltipWidth := content.width;
        tooltipHeight := content.height;

        if arrowPosition == Right || arrowPosition == Left {
          tooltipWidth := tooltipWidth + arrowHeight;
        } else {
          tooltipHeight := tooltipHeight + arrowHeight;
        }
      }
      measuredWidth, measuredHeight := tooltipWidth, tooltipHeight;
    }

    /** getArrowPath: the triangle for a base centred at (x, y), whose apex
        is kept in `arrowTip`. */
    method GetArrowPath(x: int, y: int, width: int, height: int, position: ArrowPosition)
      returns (path: Triangle)
      modifies this`arrowTip
      ensures path == ArrowPath(x, y, width, height, position)
      ensures arrowTip == path.p2
    {
      path := ArrowPath(x, y, width, height, position);
      arrowTip := path.p2;
    }

    /** dispatchDraw for a view laid out at width x height: the rectangle to
        fill and the arrow to draw; the content child is moved to the fill
        rectangle's top-left corner and the apex is kept in `arrowTip`. */
    method DispatchDraw(width: int, height: int) returns (rect: Rect, arrow: Triangle)
      modifies this`contentMargins, this`arrowTip
      ensures rect == FillRect(width, height, arrowPosition, arrowHeight)
      ensures arrow == BubbleArrow(width, height, arrowPosition, arrowAlignment,
                                   arrowWidth, arrowHeight, arrowOffset)
      ensures contentMargins == Point(rect.left, rect.top)
      ensures arrowTip == arrow.p2
    {
      rect := FillRect(width, height, arrowPosition, arrowHeight);
      contentMargins := Point(rect.left, rect.top);
      var arrowCoordinate := ArrowBaseCoordinate(rect, arrowPosition, arrowAlignment, arrowOffset);
      arrow := GetArrowPath(arrowCoordinate.x, arrowCoordinate.y, arrowWidth, arrowHeight, arrowPosition);
    }
  }
}
