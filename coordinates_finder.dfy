/** ToolTipCoordinatesFinder: where a tooltip of a given measured size is placed
    next to its anchor, how each side and alignment keeps it inside the root,
    and the width it is re-measured at when it would overflow. */
module CoordinatesFinder {
  import opened Geometry

  /** ToolTip.position: the side of the anchor the tooltip is placed against.
      UnknownPosition stands for any other code, which no branch handles. */
  datatype Position = Above | Below | LeftTo | RightTo | UnknownPosition(code: int)

  /** ToolTip.align; UnknownAlign stands for any other code. */
  datatype Align = AlignCenter | AlignLeft | AlignRight | UnknownAlign(code: int)

  datatype Padding = Padding(left: int, top: int, right: int, bottom: int)

  /** What the finder reads of a ToolTip: the anchor's and the root's
      on-screen rectangles, the root's padding, side, alignment and the user
      offset. */
  datatype ToolTip = ToolTip(anchor: Rect, root: Rect, rootPadding: Padding,
                             position: Position, align: Align,
                             offsetX: int, offsetY: int)

  datatype Size = Size(width: int, height: int)

  /** ViewGroup.LayoutParams.WRAP_CONTENT */
  const WrapContent: int := -2

  /** The root's content area: its rectangle minus its padding. */
  function InnerLeft(root: Rect, pad: Padding): int { root.left + pad.left }
  function InnerRight(root: Rect, pad: Padding): int { root.right - pad.right }
  function InnerWidth(root: Rect, pad: Padding): int { root.Width() - pad.left - pad.right }

  /** `offset` centres a span of length `inner` inside one of length `outer`:
      the two centres are at most half a pixel apart, and the offset never
      overshoots the exact half (Kotlin's truncating `/ 2`). */
  predicate Centres(offset: int, inner: int, outer: int)
  {
    -1 <= 2 * offset + inner - outer <= 1 &&
    (outer - inner >= 0 ==> 2 * offset <= outer - inner) &&
    (outer - inner < 0 ==> 2 * offset >= outer - inner)
  }

  /** getXOffset: how far right of the anchor's left edge the tip starts. */
  function XOffset(align: Align, anchorWidth: int, tipWidth: int): (r: int)
    ensures align.AlignCenter? ==> Centres(r, tipWidth, anchorWidth)
    ensures align.AlignLeft? ==> r == 0
    ensures align.AlignRight? ==> r + tipWidth == anchorWidth
    ensures align.UnknownAlign? ==> r == 0
  {
    match align
    case AlignCenter => Half(anchorWidth - tipWidth)
    case AlignLeft => 0
    case AlignRight => anchorWidth - tipWidth
    case UnknownAlign(_) => 0
  }

  /** getYCenteringOffset: how far below the anchor's top the tip starts so
      that the two are vertically centred. */
  function YCenteringOffset(anchorHeight: int, tipHeight: int): (r: int)
    ensures Centres(r, tipHeight, anchorHeight)
  {
    Half(anchorHeight - tipHeight)
  }

  /** Outcome of an out-of-bounds rule: the tip's x afterwards, and the width
      the tip is fixed to (and re-measured at) when the rule fires. */
  datatype Fit = Fit(x: int, width: Option<int>)

  /** adjustHorizontalCenteredOutOfBounds: a centred tip wider than the root's
      content area is pinned to that area exactly. */
  function CenteredFit(x: int, tipWidth: int, root: Rect, pad: Padding): (f: Fit)
    ensures f.width.Some? <==> tipWidth > InnerWidth(root, pad)
    ensures f.width.Some? ==>
      f.x == InnerLeft(root, pad) && f.x + f.width.value == InnerRight(root, pad)
    ensures f.width.None? ==> f.x == x
  {
    var rootWidth := InnerWidth(root, pad);
    if tipWidth > rootWidth then Fit(InnerLeft(root, pad), Some(rootWidth))
    else Fit(x, None)
  }

  /** adjustHorizontalLeftAlignmentOutOfBounds: a left-aligned tip that passes
      the content area's right edge is narrowed so that, starting at the
      anchor's left edge, it ends on that edge; x never moves. */
  function LeftAlignedFit(x: int, tipWidth: int, anchor: Rect, root: Rect, pad: Padding): (f: Fit)
    ensures f.x == x
    ensures f.width.Some? <==> x + tipWidth > InnerRight(root, pad)
    ensures f.width.Some? ==> anchor.left + f.width.value == InnerRight(root, pad)
  {
    var rootRight := InnerRight(root, pad);
    if x + tipWidth > rootRight then Fit(x, Some(rootRight - anchor.left))
    else Fit(x, None)
  }

  /** adjustHorizotalRightAlignmentOutOfBounds: a right-aligned tip that starts
      left of the content area is moved to its left edge and narrowed so that
      it still ends on the anchor's right edge. */
  function RightAlignedFit(x: int, anchor: Rect, root: Rect, pad: Padding): (f: Fit)
    ensures f.width.Some? <==> x < InnerLeft(root, pad)
    ensures f.width.Some? ==>
      f.x == InnerLeft(root, pad) && f.x + f.width.value == anchor.right
    ensures f.width.None? ==> f.x == x
  {
    var rootLeft := InnerLeft(root, pad);
    if x < rootLeft then Fit(rootLeft, Some(anchor.right - rootLeft))
    else Fit(x, None)
  }

  /** adjustLeftToOutOfBounds: a tip left of the anchor that starts left of the
      content area is moved to its left edge and narrowed so that it still
      ends on the anchor's left edge. */
  function LeftToFit(x: int, anchor: Rect, root: Rect, pad: Padding): (f: Fit)
    ensures f.width.Some? <==> x < InnerLeft(root, pad)
    ensures f.width.Some? ==>
      f.x == InnerLeft(root, pad) && f.x + f.width.value == anchor.left
    ensures f.width.None? ==> f.x == x
  {
    var rootLeft := InnerLeft(root, pad);
    if x < rootLeft then Fit(rootLeft, Some(anchor.left - rootLeft))
    else Fit(x, None)
  }

  /** adjustRightToOutOfBounds: a tip right of the anchor that passes the
      content area's right edge is narrowed to the space between the anchor's
      right edge and that edge; x never moves. */
  function RightToFit(x: int, tipWidth: int, anchor: Rect, root: Rect, pad: Padding): (f: Fit)
    ensures f.x == x
    ensures f.width.Some? <==> x + tipWidth > InnerRight(root, pad)
    ensures f.width.Some? ==> anchor.right + f.width.value == InnerRight(root, pad)
  {
    var availableSpace := InnerRight(root, pad) - anchor.right;
    if x + tipWidth > InnerRight(root, pad) then Fit(x, Some(availableSpace))
    else Fit(x, None)
  }

  /** The x of getPositionAbove/Below and the rule their alignment selects. */
  function HorizontalFit(t: ToolTip, tipWidth: int): (f: Fit)
    // CENTER: centred over the anchor, unless wider than the content area,
    // which it then spans exactly
    ensures t.align.AlignCenter? ==>
      (f.width.Some? <==> tipWidth > InnerWidth(t.root, t.rootPadding)) &&
      (f.width.None? ==> Centres(f.x - t.anchor.left, tipWidth, t.anchor.Width())) &&
      (f.width.Some? ==> f.x == InnerLeft(t.root, t.rootPadding) &&
                         f.x + f.width.value == InnerRight(t.root, t.rootPadding))
    // LEFT: starts on the anchor's left edge, narrowed to end on the content edge
    ensures t.align.AlignLeft? ==>
      f.x == t.anchor.left &&
      (f.width.Some? <==> t.anchor.left + tipWidth > InnerRight(t.root, t.rootPadding)) &&
      (f.width.Some? ==> f.x + f.width.value == InnerRight(t.root, t.rootPadding))
    // RIGHT: ends on the anchor's right edge, clamped to start on the content edge
    ensures t.align.AlignRight? ==>
      (f.width.Some? <==> t.anchor.right - tipWidth < InnerLeft(t.root, t.rootPadding)) &&
      (f.width.None? ==> f.x + tipWidth == t.anchor.right) &&
      (f.width.Some? ==> f.x == InnerLeft(t.root, t.rootPadding) &&
                         f.x + f.width.value == t.anchor.right)
    // another alignment: no offset and no rule
    ensures t.align.UnknownAlign? ==> f == Fit(t.anchor.left, None)
  {
    var x := t.anchor.left + XOffset(t.align, t.anchor.Width(), tipWidth);
    match t.align
    case AlignCenter => CenteredFit(x, tipWidth, t.root, t.rootPadding)
    case AlignLeft => LeftAlignedFit(x, tipWidth, t.anchor, t.root, t.rootPadding)
    case AlignRight => RightAlignedFit(x, t.anchor, t.root, t.rootPadding)
    case UnknownAlign(_) => Fit(x, None)
  }

  /** The x of each getPosition* together with its out-of-bounds rule; an
      unknown side leaves x at 0 and fixes no width. */
  function SideFit(t: ToolTip, tipWidth: int): (f: Fit)
    ensures t.position.Above? || t.position.Below? ==> f == HorizontalFit(t, tipWidth)
    // LEFT_TO: ends on the anchor's left edge, clamped to start on the content edge
    ensures t.position.LeftTo? ==>
      (f.width.Some? <==> t.anchor.left - tipWidth < InnerLeft(t.root, t.rootPadding)) &&
      (f.width.None? ==> f.x + tipWidth == t.anchor.left) &&
      (f.width.Some? ==> f.x == InnerLeft(t.root, t.rootPadding) &&
                         f.x + f.width.value == t.anchor.left)
    // RIGHT_TO: starts on the anchor's right edge, narrowed to end on the content edge
    ensures t.position.RightTo? ==>
      f.x == t.anchor.right &&
      (f.width.Some? <==> t.anchor.right + tipWidth > InnerRight(t.root, t.rootPadding)) &&
      (f.width.Some? ==> f.x + f.width.value == InnerRight(t.root, t.rootPadding))
    ensures t.position.UnknownPosition? ==> f == Fit(0, None)
  {
    match t.position
    case Above => HorizontalFit(t, tipWidth)
    case Below => HorizontalFit(t, tipWidth)
    case LeftTo => LeftToFit(t.anchor.left - tipWidth, t.anchor, t.root, t.rootPadding)
    case RightTo => RightToFit(t.anchor.right, tipWidth, t.anchor, t.root, t.rootPadding)
    case UnknownPosition(_) => Fit(0, None)
  }

  /** The tip's measured size after a rule: re-measured at the fixed width
      when the rule fired, as before otherwise. */
  function Settled(f: Fit, measured: Size, heightAt: int -> int): (s: Size)
    ensures f.width.Some? ==> s.width == f.width.value && s.height == heightAt(s.width)
    ensures f.width.None? ==> s == measured
  {
    if f.width.Some? then Size(f.width.value, heightAt(f.width.value)) else measured
  }

  /** Where getPosition* puts the tip and the size it then has. */
  datatype Placement = Placement(point: Point, size: Size)

  /** The `when` of getCoordinates: the tip's top-left on screen, before the
      user offset and the root padding, for a tip measured at `measured`. */
  function Locate(t: ToolTip, measured: Size, heightAt: int -> int): (p: Placement)
    ensures p.size == measured || p.size.height == heightAt(p.size.width)
    // ABOVE: the tip's bottom edge, at its final height, rests on the anchor's top
    ensures t.position.Above? ==> p.point.y + p.size.height == t.anchor.top
    // BELOW: the tip's top edge is the anchor's bottom edge
    ensures t.position.Below? ==> p.point.y == t.anchor.bottom
    // LEFT_TO / RIGHT_TO: vertically centred on the anchor at the final height
    ensures (t.position.LeftTo? || t.position.RightTo?) ==>
      Centres(p.point.y - t.anchor.top, p.size.height, t.anchor.Height())
    ensures t.position.LeftTo? ==>
      p.point.x + p.size.width == t.anchor.left &&
      p.point.x >= InnerLeft(t.root, t.rootPadding)
    ensures t.position.RightTo? ==>
      p.point.x == t.anchor.right &&
      p.point.x + p.size.width <= InnerRight(t.root, t.rootPadding)
    ensures (t.position.Above? || t.position.Below?) && t.align.AlignLeft? ==>
      p.point.x == t.anchor.left &&
      p.point.x + p.size.width <= InnerRight(t.root, t.rootPadding)
    ensures (t.position.Above? || t.position.Below?) && t.align.AlignRight? ==>
      p.point.x + p.size.width == t.anchor.right &&
      p.point.x >= InnerLeft(t.root, t.rootPadding)
    ensures (t.position.Above? || t.position.Below?) && t.align.AlignCenter? ==>
      if measured.width <= InnerWidth(t.root, t.rootPadding) then
        p.size == measured && Centres(p.point.x - t.anchor.left, p.size.width, t.anchor.Width())
      else
        p.point.x == InnerLeft(t.root, t.rootPadding) &&
        p.point.x + p.size.width == InnerRight(t.root, t.rootPadding)
    ensures (t.position.Above? || t.position.Below?) && t.align.UnknownAlign? ==>
      p.point.x == t.anchor.left && p.size == measured
    ensures t.position.UnknownPosition? ==> p == Placement(Point(0, 0), measured)
  {
    var f := SideFit(t, measured.width);
    var s := Settled(f, measured, heightAt);
    var y := match t.position
      case Above => t.anchor.top - s.height
      case Below => t.anchor.bottom
      case LeftTo => t.anchor.top + YCenteringOffset(t.anchor.Height(), s.height)
      case RightTo => t.anchor.top + YCenteringOffset(t.anchor.Height(), s.height)
      case UnknownPosition(_) => 0;
    Placement(Point(f.x, y), s)
  }

  /** getCoordinates: the placement shifted by the user offset (x mirrored in
      right-to-left layouts) and made relative to the root's content area. */
  function ResolvedPoint(t: ToolTip, natural: Size, heightAt: int -> int, rtl: bool): (r: Point)
    // the shift from the placement depends only on the offset, the direction
    // and the padding, never on the anchor or the tip's size
    ensures var p := Locate(t, natural, heightAt).point;
      r.x - p.x == (if rtl then -t.offsetX else t.offsetX) - t.rootPadding.left &&
      r.y - p.y == t.offsetY - t.rootPadding.top
  {
    var p := Locate(t, natural, heightAt).point;
    Point(p.x + (if rtl then -t.offsetX else t.offsetX) - t.rootPadding.left,
          p.y + t.offsetY - t.rootPadding.top)
  }

  /** Right-to-left layout only mirrors the user's x offset: the two points
      differ by twice that offset in x and not at all in y. */
  lemma RtlMirrorsOffsetOnly(t: ToolTip, natural: Size, heightAt: int -> int)
    ensures ResolvedPoint(t, natural, heightAt, false).x
         == ResolvedPoint(t, natural, heightAt, true).x + 2 * t.offsetX
    ensures ResolvedPoint(t, natural, heightAt, false).y
         == ResolvedPoint(t, natural, heightAt, true).y
  {
  }

  /** An unrecognised side places the tip at the root content area's origin
      moved by the user offset alone; the anchor plays no part. */
  lemma UnknownPositionIgnoresAnchor(t: ToolTip, natural: Size, heightAt: int -> int, rtl: bool)
    requires t.position.UnknownPosition?
    ensures ResolvedPoint(t, natural, heightAt, rtl)
         == Point((if rtl then -t.offsetX else t.offsetX) - t.rootPadding.left,
                  t.offsetY - t.rootPadding.top)
  {
  }

  /** The centred rule bounds only the width: a centred tip narrower than the
      root's content area still overhangs it when its anchor is near an edge
      (a 100-pixel tip over a 20-pixel anchor at the root's left edge starts
      40 pixels left of the content area). */
  lemma CenteredRuleBoundsOnlyWidth()
    ensures var t := ToolTip(Rect(0, 100, 20, 120), Rect(0, 0, 400, 800), Padding(0, 0, 0, 0),
                             Above, AlignCenter, 0, 0);
      var p := Locate(t, Size(100, 30), h => 30);
      p.size.width <= InnerWidth(t.root, t.rootPadding) &&
      p.point.x == -40 < InnerLeft(t.root, t.rootPadding)
  {
  }

  /** The tip view as the finder sees it: its natural (wrap-content) size,
      the layout params it is given, and its latest measured size.
      `heightAt` is the content's height when measured at exactly a width. */
  class TipView {
    const naturalWidth: int
    const naturalHeight: int
    const heightAt: int -> int
    var measuredWidth: int
    var measuredHeight: int
    var paramsWidth: int
    var paramsHeight: int

    constructor (natural: Size, params: Size, heightAt: int -> int)
      ensures naturalWidth == natural.width && naturalHeight == natural.height
      ensures this.heightAt == heightAt
      ensures State() == TipState(Size(0, 0), params)
    {
      naturalWidth, naturalHeight := natural.width, natural.height;
      this.heightAt := heightAt;
      measuredWidth, measuredHeight := 0, 0;
      paramsWidth, paramsHeight := params.width, params.height;
    }

    function Measured(): Size
      reads this
    {
      Size(measuredWidth, measuredHeight)
    }

    function State(): TipState
      reads this
    {
      TipState(Measured(), Size(paramsWidth, paramsHeight))
    }

    /** measure(WRAP_CONTENT, WRAP_CONTENT) */
    method MeasureWrapContent()
      modifies this
      ensures Measured() == Size(naturalWidth, naturalHeight)
      ensures paramsWidth == old(paramsWidth) && paramsHeight == old(paramsHeight)
    {
      measuredWidth, measuredHeight := naturalWidth, naturalHeight;
    }

    /** measure(makeMeasureSpec(width, EXACTLY), WRAP_CONTENT) */
    method MeasureExactWidth(width: int)
      modifies this
      ensures Measured() == Size(width, heightAt(width))
      ensures paramsWidth == old(paramsWidth) && paramsHeight == old(paramsHeight)
    {
      measuredWidth, measuredHeight := width, heightAt(width);
    }
  }

  datatype TipState = TipState(measured: Size, params: Size)

  /** The tip after a rule produced `f`: untouched, or with its layout width
      fixed, its height wrap-content and re-measured at that width. */
  function AfterFit(s: TipState, f: Fit, heightAt: int -> int): (r: TipState)
    // a fired rule leaves the layout width and the measured width agreeing,
    // the layout height wrap-content and the height re-measured at that width
    ensures f.width.Some? ==>
      r.params == Size(r.measured.width, WrapContent) &&
      r.measured.width == f.width.value && r.measured.height == heightAt(r.measured.width)
    ensures f.width.None? ==> r == s
  {
    TipState(Settled(f, s.measured, heightAt),
             if f.width.Some? then Size(f.width.value, WrapContent) else s.params)
  }

  /** android.graphics.Point, which the finder moves step by step. */
  class MutablePoint {
    var x: int
    var y: int

    constructor ()
      ensures x == 0 && y == 0
    {
      x, y := 0, 0;
    }

    function Value(): Point
      reads this
    {
      Point(x, y)
    }
  }

  method MeasureViewWithFixedWidth(tip: TipView, width: int)
    modifies tip
    ensures tip.Measured() == Size(width, tip.heightAt(width))
    ensures tip.paramsWidth == old(tip.paramsWidth) && tip.paramsHeight == old(tip.paramsHeight)
  {
    tip.MeasureExactWidth(width);
  }

  method AdjustHorizontalCenteredOutOfBounds(tip: TipView, pad: Padding, point: MutablePoint, root: Rect)
    modifies tip, point
    ensures var f := CenteredFit(old(point.x), old(tip.measuredWidth), root, pad);
      point.Value() == Point(f.x, old(point.y)) &&
      tip.State() == AfterFit(old(tip.State()), f, tip.heightAt)
  {
    var rootWidth := root.Width() - pad.left - pad.right;
    if tip.measuredWidth > rootWidth {
      point.x := root.left + pad.left;
      tip.paramsWidth := rootWidth;
      tip.paramsHeight := WrapContent;
      MeasureViewWithFixedWidth(tip, rootWidth);
    }
  }

  method AdjustHorizontalLeftAlignmentOutOfBounds(tip: TipView, pad: Padding, point: MutablePoint,
                                                  anchor: Rect, root: Rect)
    modifies tip
    ensures var f := LeftAlignedFit(point.x, old(tip.measuredWidth), anchor, root, pad);
      tip.State() == AfterFit(old(tip.State()), f, tip.heightAt)
  {
    var rootRight := root.right - pad.right;
    if point.x + tip.measuredWidth > rootRight {
      tip.paramsWidth := rootRight - anchor.left;
      tip.paramsHeight := WrapContent;
      MeasureViewWithFixedWidth(tip, tip.paramsWidth);
    }
  }

  method AdjustHorizontalRightAlignmentOutOfBounds(tip: TipView, pad: Padding, point: MutablePoint,
                                                   anchor: Rect, root: Rect)
    modifies tip, point
    ensures var f := RightAlignedFit(old(point.x), anchor, root, pad);
      point.Value() == Point(f.x, old(point.y)) &&
      tip.State() == AfterFit(old(tip.State()), f, tip.heightAt)
  {
    var rootLeft := root.left + pad.left;
    if point.x < rootLeft {
      var availableSpace := anchor.right - rootLeft;
      point.x := rootLeft;
      tip.paramsWidth := availableSpace;
      tip.paramsHeight := WrapContent;
      MeasureViewWithFixedWidth(tip, tip.paramsWidth);
    }
  }

  method AdjustLeftToOutOfBounds(tip: TipView, pad: Padding, point: MutablePoint,
                                 anchor: Rect, root: Rect)
    modifies tip, point
    ensures var f := LeftToFit(old(point.x), anchor, root, pad);
      point.Value() == Point(f.x, old(point.y)) &&
      tip.State() == AfterFit(old(tip.State()), f, tip.heightAt)
  {
    var rootLeft := root.left + pad.left;
    if point.x < rootLeft {
      var availableSpace := anchor.left - rootLeft;
      point.x := rootLeft;
      tip.paramsWidth := availableSpace;
      tip.paramsHeight := WrapContent;
      MeasureViewWithFixedWidth(tip, tip.paramsWidth);
    }
  }

  method AdjustRightToOutOfBounds(tip: TipView, pad: Padding, point: MutablePoint,
                                  anchor: Rect, root: Rect)
    modifies tip
    ensures var f := RightToFit(point.x, old(tip.measuredWidth), anchor, root, pad);
      tip.State() == AfterFit(old(tip.State()), f, tip.heightAt)
  {
    var availableSpace := root.right - pad.right - anchor.right;
    if point.x + tip.measuredWidth > root.right - pad.right {
      tip.paramsWidth := availableSpace;
      tip.paramsHeight := WrapContent;
      MeasureViewWithFixedWidth(tip, tip.paramsWidth);
    }
  }

  /** getPositionAbove and getPositionBelow share every step but the last. */
  method HorizontalPosition(tip: TipView, t: ToolTip) returns (point: MutablePoint)
    modifies tip
    ensures fresh(point) && point.y == 0
    ensures var f := HorizontalFit(t, old(tip.measuredWidth));
      point.x == f.x && tip.State() == AfterFit(old(tip.State()), f, tip.heightAt)
  {
    point := new MutablePoint();
    point.x := t.anchor.left + XOffset(t.align, t.anchor.Width(), tip.measuredWidth);
    if t.align.AlignCenter? {
      AdjustHorizontalCenteredOutOfBounds(tip, t.rootPadding, point, t.root);
    } else if t.align.AlignLeft? {
      AdjustHorizontalLeftAlignmentOutOfBounds(tip, t.rootPadding, point, t.anchor, t.root);
    } else if t.align.AlignRight? {
      AdjustHorizontalRightAlignmentOutOfBounds(tip, t.rootPadding, point, t.anchor, t.root);
    }
  }

  method GetPositionAbove(tip: TipView, t: ToolTip) returns (point: MutablePoint)
    modifies tip
    ensures var t' := t.(position := Above);
      fresh(point) &&
      point.Value() == Locate(t', old(tip.Measured()), tip.heightAt).point &&
      tip.State() == AfterFit(old(tip.State()), SideFit(t', old(tip.measuredWidth)), tip.heightAt)
  {
    point := HorizontalPosition(tip, t);
    point.y := t.anchor.top - tip.measuredHeight;
  }

  method GetPositionBelow(tip: TipView, t: ToolTip) returns (point: MutablePoint)
    modifies tip
    ensures var t' := t.(position := Below);
      fresh(point) &&
      point.Value() == Locate(t', old(tip.Measured()), tip.heightAt).point &&
      tip.State() == AfterFit(old(tip.State()), SideFit(t', old(tip.measuredWidth)), tip.heightAt)
  {
    point := HorizontalPosition(tip, t);
    point.y := t.anchor.bottom;
  }

  method GetPositionLeftTo(tip: TipView, t: ToolTip) returns (point: MutablePoint)
    modifies tip
    ensures var t' := t.(position := LeftTo);
      fresh(point) &&
      point.Value() == Locate(t', old(tip.Measured()), tip.heightAt).point &&
      tip.State() == AfterFit(old(tip.State()), SideFit(t', old(tip.measuredWidth)), tip.heightAt)
  {
    point := new MutablePoint();
    point.x := t.anchor.left - tip.measuredWidth;
    AdjustLeftToOutOfBounds(tip, t.rootPadding, point, t.anchor, t.root);
    point.y := t.anchor.top + YCenteringOffset(t.anchor.Height(), tip.measuredHeight);
  }

  method GetPositionRightTo(tip: TipView, t: ToolTip) returns (point: MutablePoint)
    modifies tip
    ensures var t' := t.(position := RightTo);
      fresh(point) &&
      point.Value() == Locate(t', old(tip.Measured()), tip.heightAt).point &&
      tip.State() == AfterFit(old(tip.State()), SideFit(t', old(tip.measuredWidth)), tip.heightAt)
  {
    point := new MutablePoint();
    point.x := t.anchor.right;
    AdjustRightToOutOfBounds(tip, t.rootPadding, point, t.anchor, t.root);
    point.y := t.anchor.top + YCenteringOffset(t.anchor.Height(), tip.measuredHeight);
  }

  /** getCoordinates: measure the tip at its natural size, place it by side,
      then apply the user offset and the root padding. */
  method GetCoordinates(tip: TipView, t: ToolTip, rtl: bool) returns (point: MutablePoint)
    modifies tip
    ensures var natural := Size(tip.naturalWidth, tip.naturalHeight);
      fresh(point) &&
      point.Value() == ResolvedPoint(t, natural, tip.heightAt, rtl) &&
      tip.State() == AfterFit(TipState(natural, old(tip.State()).params),
                              SideFit(t, tip.naturalWidth), tip.heightAt)
  {
    point := new MutablePoint();
    tip.MeasureWrapContent();
    match t.position {
      case Above => point := GetPositionAbove(tip, t);
      case Below => point := GetPositionBelow(tip, t);
      case LeftTo => point := GetPositionLeftTo(tip, t);
      case RightTo => point := GetPositionRightTo(tip, t);
      case UnknownPosition(_) =>
    }

    // the user offset; its x is mirrored in right-to-left layouts
    point.x := point.x + (if rtl then -t.offsetX else t.offsetX);
    point.y := point.y + t.offsetY;

    // relative to the root's content area, which starts after its padding
    point.x := point.x - t.rootPadding.left;
    point.y := point.y - t.rootPadding.top;
  }
}
