# Tooltip placement, bubble shape and registry — a Dafny model

This project models the core of an Android tooltip library. A tooltip is a
speech bubble attached to an *anchor* view inside a *root* container. The
model covers three parts:

- **Placement** (`CoordinatesFinder`, from `ToolTipCoordinatesFinder.kt`). It
  computes the tip's top-left point from the anchor rectangle, the root
  rectangle and its padding, the tip's measured size, a side (above, below,
  left-to, right-to) and an alignment (center, left, right). Each side and
  alignment has its own out-of-bounds rule. A rule can move `x` and can fix
  the tip's width. A fixed width makes the tip re-measure, and the final `y`
  uses the height after that re-measure. The user offset is added last (its
  `x` is negated in right-to-left layouts), and the root's left and top
  padding are subtracted.
- **Bubble shape** (`Bubble`, from `TooltipView.kt`). It gives the fill
  rectangle (the view box inset by the arrow height on the arrow's side),
  the arrow's base point on that edge, the arrow triangle, and the apex kept
  in `arrowTip`. It also models the `onMeasure` cache, which adds the arrow
  height once and then freezes the reported size.
- **Registry** (`TipsManager`, from `ToolTipsManager.kt`). It is a map from
  anchor id to tip view, with at most one tip per anchor. It covers `create`
  (including the side-to-arrow and align-to-arrow mappings and the
  translation into place), `find`, `dismiss`, `findAndDismiss` and
  `dismissAll`.

`Geometry` holds points, rectangles and `Half`. `Half` is Kotlin's `Int / 2`,
which truncates toward zero; Dafny's `/` does not. Every division in the core
is by 2.

Modelling choices:

- Android views become plain records or small classes. `TipView` is the tip
  as the placement code sees it. Its fields are the measured size and the
  layout params. `TooltipView` holds the fields the drawing code updates.
  `ToolTipsManager` holds the map.
- Measuring at a fixed width is an abstract step. The measured width becomes
  that width, and the measured height becomes `heightAt(width)`, where
  `heightAt` is a parameter.
- The `Coordinates` and `ToolTip` classes are not part of this model.
  `Coordinates` is read as a rectangle whose width is `right - left`, so an
  anchor view's `width` is its rectangle's width. `ToolTip` is read as a
  record. Its position and align codes are datatypes. The `Unknown…`
  variants stand for a code that no branch matches.
- The float conversions in the drawing code work on integer values, so they
  are modelled as integers. `(len / 2f).toInt()` becomes `Half(len)`.

Design properties proved beyond the per-function contracts:

- `ArrowApexTouchesAnchor`: a tip laid out at the size placement left it
  with, and drawn with the arrow side that `create` chooses, has its arrow
  apex exactly on the anchor's facing edge. This holds before the user
  offset is added, and under the modelled re-measure (see "## Left out").
  It holds for every alignment, with or without clamping.
- `CenteredSideArrowAtAnchorMiddle` and `CenteredArrowAtAnchorMiddle`
  cover centred tips. The arrow apex is within a pixel of the anchor's
  middle along the facing edge. This holds for a tip beside the anchor, and
  for a tip above or below it that fits the root's content area.
- `ClampedCenteredArrowAtContentMiddle`: a centred tip above or below its
  anchor that is wider than the content area is pinned to that area. Its
  arrow then points at the middle of the content area, so it no longer
  points at its anchor.
- `ArrowDegenerateIff`: the arrow is a proper triangle exactly when its
  height is non-zero and its width is at least 2 pixels in absolute value.
  A width of 1 gives a zero half-width, so the two base points coincide.
  Any positive width might be expected to give a proper triangle; width 1
  does not. The model follows the code.
- `CenteredRuleBoundsOnlyWidth`: the centred out-of-bounds rule limits the
  width but not the position. A centred tip near the root's edge can still
  start outside the content area.

## Model

| member | source | states |
|---|---|---|
| Geometry.Half | tooltips/src/main/java/com/tomergoldst/tooltips/ToolTipCoordinatesFinder.kt:262 | Kotlin Int division by 2: the remainder has the sign of the dividend and magnitude at most 1 |
| CoordinatesFinder.XOffset | tooltips/src/main/java/com/tomergoldst/tooltips/ToolTipCoordinatesFinder.kt:259-268 | CENTER centres the tip on the anchor to within half a pixel, truncating toward zero; LEFT and unknown give 0; RIGHT puts the tip's right edge on the anchor's right edge |
| CoordinatesFinder.YCenteringOffset | tooltips/src/main/java/com/tomergoldst/tooltips/ToolTipCoordinatesFinder.kt:275-277 | the tip is vertically centred on the anchor to within half a pixel, truncating toward zero |
| CoordinatesFinder.CenteredFit | tooltips/src/main/java/com/tomergoldst/tooltips/ToolTipCoordinatesFinder.kt:230-243 | fires iff the tip is wider than the root's content width; then the tip spans the content area exactly; otherwise x is unchanged |
| CoordinatesFinder.LeftAlignedFit | tooltips/src/main/java/com/tomergoldst/tooltips/ToolTipCoordinatesFinder.kt:215-228 | x never changes; fires iff x + width passes the inner right edge; then the width runs from anchor.left to that edge |
| CoordinatesFinder.RightAlignedFit | tooltips/src/main/java/com/tomergoldst/tooltips/ToolTipCoordinatesFinder.kt:198-213 | fires iff x is left of the inner left edge; then x is clamped to that edge and the tip still ends at anchor.right |
| CoordinatesFinder.LeftToFit | tooltips/src/main/java/com/tomergoldst/tooltips/ToolTipCoordinatesFinder.kt:179-196 | fires iff x is left of the inner left edge; then x is clamped to that edge and the tip still ends at anchor.left |
| CoordinatesFinder.RightToFit | tooltips/src/main/java/com/tomergoldst/tooltips/ToolTipCoordinatesFinder.kt:162-177 | x never changes; fires iff x + width passes the inner right edge; then the width is the space from anchor.right to that edge |
| CoordinatesFinder.HorizontalFit | tooltips/src/main/java/com/tomergoldst/tooltips/ToolTipCoordinatesFinder.kt:137-157 | the x of getPositionAbove/Below after the rule its alignment selects: CENTER centred over the anchor unless wider than the content area, then spanning it exactly; LEFT on anchor.left, narrowed to the content edge iff it would pass it; RIGHT ending on anchor.right, clamped to the content edge iff it would start left of it; another alignment anchor.left with no rule |
| CoordinatesFinder.SideFit | tooltips/src/main/java/com/tomergoldst/tooltips/ToolTipCoordinatesFinder.kt:64-160 | the x and fixed width per side: ABOVE/BELOW as HorizontalFit; LEFT_TO ends on anchor.left, clamped iff it would start left of the content area; RIGHT_TO starts on anchor.right, narrowed iff it would pass the content edge; an unknown side x = 0 and no rule |
| CoordinatesFinder.Settled | tooltips/src/main/java/com/tomergoldst/tooltips/ToolTipCoordinatesFinder.kt:172-175 | after a fired rule the tip measures the fixed width and the content height at that width; otherwise its size is unchanged |
| CoordinatesFinder.AfterFit | tooltips/src/main/java/com/tomergoldst/tooltips/ToolTipCoordinatesFinder.kt:169-175 | after a fired rule the layout params are (fixed width, WRAP_CONTENT), the measured width equals the layout width and the height is re-measured at it; an unfired rule changes nothing |
| CoordinatesFinder.Locate | tooltips/src/main/java/com/tomergoldst/tooltips/ToolTipCoordinatesFinder.kt:64-160 | for each side: ABOVE rests the tip's bottom on anchor.top at its final height; BELOW starts at anchor.bottom; LEFT_TO/RIGHT_TO centre vertically after any re-measure; the containment and edge-contact facts of each side/alignment; an unknown side gives (0,0) and keeps the size |
| CoordinatesFinder.ResolvedPoint | tooltips/src/main/java/com/tomergoldst/tooltips/ToolTipCoordinatesFinder.kt:52-60 | the returned point is the placement shifted by the user offset (x negated in RTL) less the root's left/top padding, a shift that does not depend on the anchor or the tip's size |
| CoordinatesFinder.RtlMirrorsOffsetOnly | tooltips/src/main/java/com/tomergoldst/tooltips/ToolTipCoordinatesFinder.kt:52-60 | flipping the layout direction changes x by exactly 2·offsetX and leaves y unchanged |
| CoordinatesFinder.UnknownPositionIgnoresAnchor | tooltips/src/main/java/com/tomergoldst/tooltips/ToolTipCoordinatesFinder.kt:26-61 | an unrecognised side yields the user offset minus the root padding, starting from (0,0) |
| CoordinatesFinder.CenteredRuleBoundsOnlyWidth | tooltips/src/main/java/com/tomergoldst/tooltips/ToolTipCoordinatesFinder.kt:230-243 | a centred tip narrower than the root can still start left of the content area |
| CoordinatesFinder.TipView.MeasureWrapContent | tooltips/src/main/java/com/tomergoldst/tooltips/ToolTipCoordinatesFinder.kt:30 | the measured size becomes the natural size; layout params unchanged |
| CoordinatesFinder.TipView.MeasureExactWidth | tooltips/src/main/java/com/tomergoldst/tooltips/ToolTipCoordinatesFinder.kt:246-251 | the measured width becomes exactly the given width and the height the content's height at that width; layout params unchanged |
| CoordinatesFinder.MeasureViewWithFixedWidth | tooltips/src/main/java/com/tomergoldst/tooltips/ToolTipCoordinatesFinder.kt:245-252 | the measured width becomes the given width and the height the content's height at that width; layout params unchanged |
| CoordinatesFinder.AdjustHorizontalCenteredOutOfBounds | tooltips/src/main/java/com/tomergoldst/tooltips/ToolTipCoordinatesFinder.kt:230-243 | the point and the tip's state afterwards are as CenteredFit prescribes (params width fixed, height wrap-content, re-measured) |
| CoordinatesFinder.AdjustHorizontalLeftAlignmentOutOfBounds | tooltips/src/main/java/com/tomergoldst/tooltips/ToolTipCoordinatesFinder.kt:215-228 | the tip's state afterwards is as LeftAlignedFit prescribes; the point is not touched |
| CoordinatesFinder.AdjustHorizontalRightAlignmentOutOfBounds | tooltips/src/main/java/com/tomergoldst/tooltips/ToolTipCoordinatesFinder.kt:198-213 | the point and the tip's state afterwards are as RightAlignedFit prescribes |
| CoordinatesFinder.AdjustLeftToOutOfBounds | tooltips/src/main/java/com/tomergoldst/tooltips/ToolTipCoordinatesFinder.kt:179-196 | the point and the tip's state afterwards are as LeftToFit prescribes |
| CoordinatesFinder.AdjustRightToOutOfBounds | tooltips/src/main/java/com/tomergoldst/tooltips/ToolTipCoordinatesFinder.kt:162-177 | the tip's state afterwards is as RightToFit prescribes; the point is not touched |
| CoordinatesFinder.HorizontalPosition | tooltips/src/main/java/com/tomergoldst/tooltips/ToolTipCoordinatesFinder.kt:137-157 | a fresh point whose x is the aligned x after the rule the alignment selects (none for an unknown alignment) |
| CoordinatesFinder.GetPositionAbove | tooltips/src/main/java/com/tomergoldst/tooltips/ToolTipCoordinatesFinder.kt:133-160 | the returned point is Locate's point for ABOVE, with y taken after the re-measure |
| CoordinatesFinder.GetPositionBelow | tooltips/src/main/java/com/tomergoldst/tooltips/ToolTipCoordinatesFinder.kt:102-131 | the returned point is Locate's point for BELOW |
| CoordinatesFinder.GetPositionLeftTo | tooltips/src/main/java/com/tomergoldst/tooltips/ToolTipCoordinatesFinder.kt:83-100 | the returned point is Locate's point for LEFT_TO, centred using the re-measured height |
| CoordinatesFinder.GetPositionRightTo | tooltips/src/main/java/com/tomergoldst/tooltips/ToolTipCoordinatesFinder.kt:64-81 | the returned point is Locate's point for RIGHT_TO; x = anchor.right is never changed by its rule |
| CoordinatesFinder.GetCoordinates | tooltips/src/main/java/com/tomergoldst/tooltips/ToolTipCoordinatesFinder.kt:25-62 | the point is the placement plus the user offset (x negated in RTL) minus the root's left/top padding; the tip ends measured and laid out as the side's rule prescribes |
| Bubble.FillRect | tooltips/src/main/java/com/tomergoldst/tooltips/TooltipView.kt:58-75 | the view box with only the arrow's side moved inward by the arrow height; the other three sides kept |
| Bubble.FillRectArea | tooltips/src/main/java/com/tomergoldst/tooltips/TooltipView.kt:58-75 | fill area = view area − (length of the arrow's side × arrow height) |
| Bubble.BaseOffset | tooltips/src/main/java/com/tomergoldst/tooltips/TooltipView.kt:141-145 | CENTER is the middle of the edge truncated toward zero (never past the exact half, within half a pixel of it) and lies on the edge; START is arrowOffset from the start; END is arrowOffset from the end |
| Bubble.ArrowBaseCoordinate | tooltips/src/main/java/com/tomergoldst/tooltips/TooltipView.kt:135-154 | the base lies on the fill rect's edge for the arrow side (top, bottom, left, right); CENTER at the middle of that edge truncated toward zero, START/END arrowOffset from its start/end |
| Bubble.ArrowPath | tooltips/src/main/java/com/tomergoldst/tooltips/TooltipView.kt:97-123 | the apex is arrowHeight beyond the base, pointing out of the bubble; p1 and p3 are on the base line, symmetric about the base, 2·(width/2) apart, in reverse order for LEFT |
| Bubble.ArrowDegenerateIff | tooltips/src/main/java/com/tomergoldst/tooltips/TooltipView.kt:102-123 | the triangle has non-zero area iff height ≠ 0 and \|width\| ≥ 2 |
| Bubble.BubbleArrow | tooltips/src/main/java/com/tomergoldst/tooltips/TooltipView.kt:83-90 | the arrow dispatchDraw draws: its base points lie on the fill rect's edge and its apex on the outer view boundary, y = 0 (ABOVE), y = h (BELOW), x = 0 (LEFT), x = w (RIGHT) |
| Bubble.MeasureCache | tooltips/src/main/java/com/tomergoldst/tooltips/TooltipView.kt:40-49 | while a cached dimension is 0 the cache becomes the content size plus the arrow height (width for LEFT/RIGHT, height otherwise); else it is kept |
| Bubble.MeasurePasses | tooltips/src/main/java/com/tomergoldst/tooltips/TooltipView.kt:38-51 | after any series of onMeasure passes the cache is either where it started or one pass's content with the arrow height added once, never several heights |
| Bubble.CacheIsFrozen | tooltips/src/main/java/com/tomergoldst/tooltips/TooltipView.kt:40-50 | a cache with both dimensions non-zero survives any series of measure passes |
| Bubble.FirstMeasureIsFinal | tooltips/src/main/java/com/tomergoldst/tooltips/TooltipView.kt:38-51 | if the first pass fills the cache, the reported size after any number of passes is that pass's content plus one arrow height |
| Bubble.TooltipView.constructor | tooltips/src/main/java/com/tomergoldst/tooltips/TooltipView.kt:14-31 | defaults: CENTER alignment, BELOW position, empty cache, arrowTip (0,0) |
| Bubble.TooltipView.OnMeasure | tooltips/src/main/java/com/tomergoldst/tooltips/TooltipView.kt:38-51 | the cache steps as MeasureCache says, and the reported dimensions equal the cache |
| Bubble.TooltipView.GetArrowPath | tooltips/src/main/java/com/tomergoldst/tooltips/TooltipView.kt:97-133 | returns ArrowPath's triangle and stores its apex p2 in arrowTip |
| Bubble.TooltipView.DispatchDraw | tooltips/src/main/java/com/tomergoldst/tooltips/TooltipView.kt:53-95 | draws FillRect and the arrow on its edge; the content child's left/top margins are the fill rect's top-left corner; arrowTip is the apex |
| TipsManager.ArrowPositionFor | tooltips/src/main/java/com/tomergoldst/tooltips/ToolTipsManager.kt:41-46 | the arrow's outward direction is opposite to the tip's side (ABOVE→BELOW, BELOW→ABOVE, LEFT_TO→RIGHT, RIGHT_TO→LEFT); an unknown side keeps BELOW |
| TipsManager.ArrowAlignmentFor | tooltips/src/main/java/com/tomergoldst/tooltips/ToolTipsManager.kt:47-51 | LEFT→START and RIGHT→END, both ways; CENTER and unknown → CENTER |
| TipsManager.Translation | tooltips/src/main/java/com/tomergoldst/tooltips/ToolTipsManager.kt:70-76 | the translation carries the view's current top-left onto the point, with x negated in RTL |
| TipsManager.ArrowApexTouchesAnchor | tooltips/src/main/java/com/tomergoldst/tooltips/ToolTipsManager.kt:41-57 | with the arrow side create picks, the apex lies on the anchor's facing edge for every known side and alignment, before the user offset |
| TipsManager.CenteredSideArrowAtAnchorMiddle | tooltips/src/main/java/com/tomergoldst/tooltips/ToolTipsManager.kt:41-51 | a CENTER-aligned LEFT_TO/RIGHT_TO tip's arrow apex is within a pixel of the anchor's vertical middle, whatever its final height |
| TipsManager.CenteredArrowAtAnchorMiddle | tooltips/src/main/java/com/tomergoldst/tooltips/ToolTipsManager.kt:41-51 | a CENTER-aligned ABOVE/BELOW tip that fits the content area has its arrow apex within a pixel of the anchor's horizontal middle |
| TipsManager.ClampedCenteredArrowAtContentMiddle | tooltips/src/main/java/com/tomergoldst/tooltips/ToolTipCoordinatesFinder.kt:236-241 | a CENTER-aligned ABOVE/BELOW tip wider than the content area has its arrow apex at the content area's middle, not the anchor's |
| TipsManager.ToolTipsManager.constructor | tooltips/src/main/java/com/tomergoldst/tooltips/ToolTipsManager.kt:18-22 | the registry starts empty, with no hide animation started |
| TipsManager.ToolTipsManager.Create | tooltips/src/main/java/com/tomergoldst/tooltips/ToolTipsManager.kt:34-68 | an anchor id already present returns the stored view and leaves the map unchanged; otherwise stores map[anchorId] = view with tag = anchorId, the mapped arrow and the translation to the resolved point; keeps one tip per anchor |
| TipsManager.ToolTipsManager.Dismiss | tooltips/src/main/java/com/tomergoldst/tooltips/ToolTipsManager.kt:82-90 | a missing or invisible view gives false and changes nothing; a visible one gives true, removes exactly the key `tag` and starts its hide animation |
| TipsManager.ToolTipsManager.AnimateDismiss | tooltips/src/main/java/com/tomergoldst/tooltips/ToolTipsManager.kt:114-124 | records one started hide animation for the view with its byUser flag |
| TipsManager.ToolTipsManager.Find | tooltips/src/main/java/com/tomergoldst/tooltips/ToolTipsManager.kt:108-112 | Some exactly when the key is registered, and then the registered view, whose tag is the key |
| TipsManager.ToolTipsManager.FindAndDismiss | tooltips/src/main/java/com/tomergoldst/tooltips/ToolTipsManager.kt:92-95 | false and no change for an anchor with no entry; otherwise it behaves as dismiss of the registered view (not by the user) |
| TipsManager.ToolTipsManager.DismissAll | tooltips/src/main/java/com/tomergoldst/tooltips/ToolTipsManager.kt:97-106 | the map ends empty; every visible registered view starts hiding (not by the user), no anchor's tip hides twice, earlier hides are kept and nothing else is hidden |
| TipsManager.EntriesSnapshot | tooltips/src/main/java/com/tomergoldst/tooltips/ToolTipsManager.kt:99-100 | the snapshot lists every key of the map exactly once |

## Left out

- The user x offset's sign and the RTL translation depend on the device
  locale (`UiUtils.isRtl`). Both are a boolean parameter `rtl`.
- `UiUtils.toPixel`/`toDp` are float density arithmetic. The arrow's height,
  width and offset (7, 14 and 20 dp) are constructor parameters in pixels.
- Kotlin `Int` is 32-bit and wraps around. Sums such as
  `anchor.left + getXOffset`, `point.x + measuredWidth` and the user offset
  would wrap near 2^31. The model uses unbounded integers and assumes no such
  overflow.
- The integer/float conversions (`RectF`, `toFloat`, `toInt`) are exact
  only for coordinates below 2^24. The model assumes exact conversion.
- Android measure specs are not modelled. This includes `measure(WRAP_CONTENT,
  WRAP_CONTENT)` passing a layout-params constant as a spec, and
  `super.onMeasure(widthMeasureSpec, widthMeasureSpec)`. Measurement is the
  natural size plus `heightAt`.
- Placement and the `onMeasure` cache are modelled separately, so their
  interaction is not. In the composed library the tip view is a
  `TooltipView`, whose cache is already filled by the first measure.
  Re-measuring at a fixed width would then report the cached size. So in
  the library a clamped LEFT_TO tip moves to the content area's left edge
  at its full cached width and overlaps its anchor. The model's re-measure
  narrows it instead.
- A negative constrained width is passed on as it is. The model does not
  clamp it.
- Drawing is not modelled: `drawRoundRect`, `drawPath`, the corner radius,
  `Paint`, the even-odd fill type, `inflate`/`setContentLayout`,
  `findViewById` and the button's click listener (which calls
  `dismiss(tipView, true)`).
- `show` is `create` followed by the show animation. Animations
  (`DefaultTooltipAnimator`, `TooltipAnimator`) are not modelled. A
  dismissal is recorded as a started hide animation (`hiding`). What happens
  when the animation ends is not modelled: the listener is notified, then
  the view is detached from its parent.
- `setToolTipAnimator` only swaps the animation strategy, so it has no
  model.
- `tipView.tag as Int` cannot fail in the model, because every tip record
  has an integer tag. Views are records, so view identity and aliasing are
  not modelled.
- The iteration order of `HashMap` entries in `dismissAll` is left open. The
  snapshot lists the keys in an arbitrary order.
