/** ToolTipsManager: creates tip views, keeps at most one per anchor id, and
    dismisses them one at a time or all at once. */
module TipsManager {
  import opened Geometry
  import CoordinatesFinder
  import Bubble

  /** A tip view as the registry sees it: its tag (the anchor id it was
      created for), whether it is visible, the arrow it was configured with
      and the translation that moved it into place. */
  datatype TipRecord = TipRecord(tag: int, visible: bool,
                                 arrowPosition: Bubble.ArrowPosition,
                                 arrowAlignment: Bubble.ArrowAlignment,
                                 translation: Point)

  /** The unit vector from the anchor toward a tip placed on side `pos`. */
  function Direction(pos: CoordinatesFinder.Position): Point
  {
    match pos
    case Above => Point(0, -1)
    case Below => Point(0, 1)
    case LeftTo => Point(-1, 0)
    case RightTo => Point(1, 0)
    case UnknownPosition(_) => Point(0, 0)
  }

  /** The arrow side chosen in create: the arrow leaves the bubble pointing
      back at the anchor, opposite to the side the tip is placed on; an
      unknown side keeps TooltipView's default, BELOW. */
  function ArrowPositionFor(pos: CoordinatesFinder.Position): (r: Bubble.ArrowPosition)
    ensures !pos.UnknownPosition? ==>
      Bubble.Outward(r) == Point(-Direction(pos).x, -Direction(pos).y)
    ensures pos.UnknownPosition? ==> r == Bubble.Below
  {
    match pos
    case Above => Bubble.Below
    case Below => Bubble.Above
    case LeftTo => Bubble.Right
    case RightTo => Bubble.Left
    case UnknownPosition(_) => Bubble.Below
  }

  /** The arrow alignment chosen in create: a left-aligned tip puts its arrow
      at the start of its edge, a right-aligned one at the end; centred and
      unknown alignments keep TooltipView's default, CENTER. */
  function ArrowAlignmentFor(align: CoordinatesFinder.Align): (r: Bubble.ArrowAlignment)
    ensures r.Start? <==> align.AlignLeft?
    ensures r.End? <==> align.AlignRight?
    ensures r.Center? <==> align.AlignCenter? || align.UnknownAlign?
  {
    match align
    case AlignCenter => Bubble.Center
    case AlignLeft => Bubble.Start
    case AlignRight => Bubble.End
    case UnknownAlign(_) => Bubble.Center
  }

  /** moveTipToCorrectPosition: the translation that carries the view's
      current top-left onto `point`; its x is negated in right-to-left
      layouts. */
  function Translation(point: Point, current: Point, rtl: bool): (tr: Point)
    ensures current.y + tr.y == point.y
    ensures !rtl ==> current.x + tr.x == point.x
    ensures rtl ==> current.x - tr.x == point.x
  {
    var translationX := point.x - current.x;
    var translationY := point.y - current.y;
    Point(if !rtl then translationX else -translationX, translationY)
  }

  /** The coordinate of the anchor's edge that a tip on side `pos` faces. */
  function AnchorEdge(anchor: Rect, pos: CoordinatesFinder.Position): int
  {
    match pos
    case Above => anchor.top
    case Below => anchor.bottom
    case LeftTo => anchor.left
    case RightTo => anchor.right
    case UnknownPosition(_) => 0
  }

  /** The point of the whole design: a tip laid out at the size the finder
      left it with, and drawn with the arrow side create picks, has its arrow
      apex exactly on the anchor's facing edge (before the user offset),
      whatever the alignment, the clamping and the re-measured height. */
  lemma ArrowApexTouchesAnchor(t: CoordinatesFinder.ToolTip, natural: CoordinatesFinder.Size,
                               heightAt: int -> int, align: Bubble.ArrowAlignment,
                               arrowWidth: int, arrowHeight: int, arrowOffset: int)
    requires !t.position.UnknownPosition?
    ensures var p := CoordinatesFinder.Locate(t, natural, heightAt);
      var pos := ArrowPositionFor(t.position);
      var apex := Bubble.BubbleArrow(p.size.width, p.size.height, pos, align,
                                     arrowWidth, arrowHeight, arrowOffset).p2;
      Bubble.Across(Point(p.point.x + apex.x, p.point.y + apex.y), pos)
        == AnchorEdge(t.anchor, t.position)
  {
  }

  /** The arrow apex of a tip created for `t`, in the root's coordinates
      before the user offset: placed by the finder, laid out at the size it
      left the tip with, and drawn with the arrow create configures. */
  function CreatedApex(t: CoordinatesFinder.ToolTip, natural: CoordinatesFinder.Size,
                       heightAt: int -> int, arrowWidth: int, arrowHeight: int,
                       arrowOffset: int): Point
  {
    var p := CoordinatesFinder.Locate(t, natural, heightAt);
    var apex := Bubble.BubbleArrow(p.size.width, p.size.height, ArrowPositionFor(t.position),
                                   ArrowAlignmentFor(t.align), arrowWidth, arrowHeight, arrowOffset).p2;
    Point(p.point.x + apex.x, p.point.y + apex.y)
  }

  /** A centred tip beside its anchor points its arrow at the anchor's
      vertical middle, to within a pixel, whatever height it ends up with. */
  lemma CenteredSideArrowAtAnchorMiddle(t: CoordinatesFinder.ToolTip, natural: CoordinatesFinder.Size,
                                        heightAt: int -> int, arrowWidth: int, arrowHeight: int,
                                        arrowOffset: int)
    requires t.position.LeftTo? || t.position.RightTo?
    requires t.align.AlignCenter?
    ensures var apex := CreatedApex(t, natural, heightAt, arrowWidth, arrowHeight, arrowOffset);
      -2 <= 2 * apex.y - (t.anchor.top + t.anchor.bottom) <= 2
  {
  }

  /** A centred tip above or below its anchor that fits the root's content
      area points its arrow at the anchor's horizontal middle, to within a
      pixel. */
  lemma CenteredArrowAtAnchorMiddle(t: CoordinatesFinder.ToolTip, natural: CoordinatesFinder.Size,
                                    heightAt: int -> int, arrowWidth: int, arrowHeight: int,
                                    arrowOffset: int)
    requires t.position.Above? || t.position.Below?
    requires t.align.AlignCenter?
    requires natural.width <= CoordinatesFinder.InnerWidth(t.root, t.rootPadding)
    ensures var apex := CreatedApex(t, natural, heightAt, arrowWidth, arrowHeight, arrowOffset);
      -2 <= 2 * apex.x - (t.anchor.left + t.anchor.right) <= 2
  {
  }

  /** A centred tip above or below its anchor that is wider than the root's
      content area is pinned to that area, and its arrow then points at the
      middle of the content area rather than at the anchor. */
  lemma ClampedCenteredArrowAtContentMiddle(t: CoordinatesFinder.ToolTip, natural: CoordinatesFinder.Size,
                                            heightAt: int -> int, arrowWidth: int, arrowHeight: int,
                                            arrowOffset: int)
    requires t.position.Above? || t.position.Below?
    requires t.align.AlignCenter?
    requires natural.width > CoordinatesFinder.InnerWidth(t.root, t.rootPadding)
    ensures var apex := CreatedApex(t, natural, heightAt, arrowWidth, arrowHeight, arrowOffset);
      apex.x == CoordinatesFinder.InnerLeft(t.root, t.rootPadding)
                + Half(CoordinatesFinder.InnerWidth(t.root, t.rootPadding))
  {
  }

  /** A hide animation started by animateDismiss. When it ends the listener
      is told (view, view.tag, byUser) first, and the view is detached from
      its parent after that. */
  datatype Dismissal = Dismissal(view: TipRecord, byUser: bool)

  class ToolTipsManager {
    /** mTipsMap: anchor id to the tip shown for it. */
    var tips: map<int, TipRecord>
    /** The hide animations started, oldest first. */
    var hiding: seq<Dismissal>

    /** Each tip is filed under the anchor id it is tagged with, so an anchor
        has at most one tip and dismissing a tip by its tag removes its own
        entry. */
    ghost predicate Valid()
      reads this
    {
      forall id :: id in tips ==> tips[id].tag == id
    }

    constructor ()
      ensures Valid() && tips == map[] && hiding == []
    {
      tips, hiding := map[], [];
    }

    /** create, for a tool tip anchored at the view with id `anchorId`. The
        new tip view measures `natural` at wrap-content, `heightAt(w)` when
        measured at width `w`, is given `params` by the root it is added to,
        and starts with its top-left at `tipTopLeft`. */
    method Create(t: CoordinatesFinder.ToolTip, anchorId: int, natural: CoordinatesFinder.Size,
                  heightAt: int -> int, params: CoordinatesFinder.Size, tipTopLeft: Point,
                  rtl: bool) returns (view: TipRecord)
      requires Valid()
      modifies this`tips
      ensures Valid()
      ensures old(anchorId in tips) ==> view == old(tips[anchorId]) && tips == old(tips)
      ensures old(anchorId !in tips) ==>
        tips == old(tips)[anchorId := view] &&
        view == TipRecord(anchorId, true, ArrowPositionFor(t.position), ArrowAlignmentFor(t.align),
                          Translation(CoordinatesFinder.ResolvedPoint(t, natural, heightAt, rtl),
                                      tipTopLeft, rtl))
    {
      if anchorId in tips {
        return tips[anchorId];
      }

      var arrowPosition := ArrowPositionFor(t.position);
      var arrowAlignment := ArrowAlignmentFor(t.align);
      var tipView := new CoordinatesFinder.TipView(natural, params, heightAt);
      var point := CoordinatesFinder.GetCoordinates(tipView, t, rtl);
      var translation := Translation(point.Value(), tipTopLeft, rtl);

      view := TipRecord(anchorId, true, arrowPosition, arrowAlignment, translation);
      tips := tips[anchorId := view];
    }

    /** dismiss: a missing or invisible view is left alone; a visible one
        loses the entry under its tag and starts hiding. */
    method Dismiss(tipView: Option<TipRecord>, byUser: bool) returns (dismissed: bool)
      requires Valid()
      modifies this`tips, this`hiding
      ensures Valid()
      ensures dismissed <==> tipView.Some? && tipView.value.visible
      ensures dismissed ==>
        tips == old(tips) - {tipView.value.tag} &&
        hiding == old(hiding) + [Dismissal(tipView.value, byUser)]
      ensures !dismissed ==> tips == old(tips) && hiding == old(hiding)
    {
      if tipView.Some? && tipView.value.visible {
        var key := tipView.value.tag;
        tips := tips - {key};
        AnimateDismiss(tipView.value, byUser);
        return true;
      }
      return false;
    }

    method AnimateDismiss(view: TipRecord, byUser: bool)
      modifies this`hiding
      ensures hiding == old(hiding) + [Dismissal(view, byUser)]
    {
      hiding := hiding + [Dismissal(view, byUser)];
    }

    /** find: the tip registered for `key`, if any. */
    method Find(key: int) returns (view: Option<TipRecord>)
      requires Valid()
      ensures view.Some? <==> key in tips
      ensures view.Some? ==> view.value == tips[key] && view.value.tag == key
    {
      if key in tips {
        return Some(tips[key]);
      }
      return None;
    }

    /** findAndDismiss: false for an anchor without a tip; otherwise dismiss
        of the tip registered for it. */
    method FindAndDismiss(anchorId: int) returns (dismissed: bool)
      requires Valid()
      modifies this`tips, this`hiding
      ensures Valid()
      ensures anchorId !in old(tips) ==> !dismissed && tips == old(tips) && hiding == old(hiding)
      ensures anchorId in old(tips) ==>
        (dismissed <==> old(tips[anchorId]).visible) &&
        (dismissed ==> tips == old(tips) - {anchorId} &&
                       hiding == old(hiding) + [Dismissal(old(tips[anchorId]), false)]) &&
        (!dismissed ==> tips == old(tips) && hiding == old(hiding))
    {
      var view := Find(anchorId);
      if view.Some? {
        dismissed := Dismiss(view, false);
      } else {
        dismissed := false;
      }
    }

    /** dismissAll: every visible tip of a snapshot of the registry starts
        hiding, in the order the snapshot lists them; then the registry is
        cleared. */
    method DismissAll()
      requires Valid()
      modifies this`tips, this`hiding
      ensures Valid() && tips == map[]
      ensures |hiding| >= |old(hiding)| && hiding[..|old(hiding)|] == old(hiding)
      ensures forall d :: d in hiding[|old(hiding)|..] ==>
        !d.byUser && d.view.visible && d.view in old(tips).Values
      ensures forall id :: id in old(tips) && old(tips)[id].visible ==>
        Dismissal(old(tips)[id], false) in hiding[|old(hiding)|..]
      // each anchor's tip starts hiding at most once
      ensures forall a, b :: |old(hiding)| <= a < b < |hiding| ==>
        hiding[a].view.tag != hiding[b].view.tag
    {
      if tips != map[] {
        var entries := tips;
        assert forall id :: id in entries ==> entries[id].tag == id;
        var keys := EntriesSnapshot(entries);
        for i := 0 to |keys|
          invariant Valid()
          invariant |hiding| >= |old(hiding)| && hiding[..|old(hiding)|] == old(hiding)
          invariant forall d :: d in hiding[|old(hiding)|..] ==>
            !d.byUser && d.view.visible && d.view in entries.Values
          invariant forall j :: 0 <= j < i && entries[keys[j]].visible ==>
            Dismissal(entries[keys[j]], false) in hiding[|old(hiding)|..]
          invariant forall k :: |old(hiding)| <= k < |hiding| ==> hiding[k].view.tag in keys[..i]
          invariant forall a, b :: |old(hiding)| <= a < b < |hiding| ==>
            hiding[a].view.tag != hiding[b].view.tag
        {
          ghost var before := hiding;
          var dismissed := Dismiss(Some(entries[keys[i]]), false);
          if dismissed {
            assert hiding[|old(hiding)|..] == before[|old(hiding)|..] + [Dismissal(entries[keys[i]], false)];
          }
        }
        forall id | id in entries && entries[id].visible
          ensures Dismissal(entries[id], false) in hiding[|old(hiding)|..]
        {
          var j :| 0 <= j < |keys| && keys[j] == id;
        }
      }
      tips := map[];
    }
  }

  /** ArrayList(mTipsMap.entries): the registry's keys, each exactly once,
      in an order the map does not promise. */
  method EntriesSnapshot(m: map<int, TipRecord>) returns (keys: seq<int>)
    ensures forall k :: k in keys <==> k in m
    ensures forall i, j :: 0 <= i < j < |keys| ==> keys[i] != keys[j]
  {
    keys := [];
    var rest := m.Keys;
    while rest != {}
      invariant forall k :: k in m <==> k in rest || k in keys
      invariant forall k :: k in keys ==> k !in rest
      invariant forall i, j :: 0 <= i < j < |keys| ==> keys[i] != keys[j]
      decreases rest
    {
      HasElement(rest);
      var k :| k in rest;
      keys := keys + [k];
      rest := rest - {k};
    }
  }

  /** A non-empty set has an element to pick. */
  lemma HasElement(s: set<int>)
    requires s != {}
    ensures exists k :: k in s
  {
    if forall k :: k !in s {
      assert false;
    }
  }
}
