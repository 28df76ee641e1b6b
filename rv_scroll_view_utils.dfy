/**
 * RVScrollViewUtils: helpers a PowerfulScrollView uses on a RecyclerView it
 * hosts: probes for whether the list sits at its top or bottom edge, a
 * scroll delegate that keeps the RecyclerView from re-laying itself out
 * while the layout manager scrolls, and a best-effort read of the current
 * fling velocity.
 */
module RVScrollViewUtils {
  import opened Views

  // ---------------------------------------------------------------------
  // Boundary probes
  // ---------------------------------------------------------------------

  /**
   * isTopOverScrolled: no child is rendered, or the first rendered child is
   * adapter item 0 and that child's own scroll offset is 0.
   */
  predicate IsTopOverScrolled(children: seq<ChildView>)
    ensures children == [] ==> IsTopOverScrolled(children)
    ensures children != [] && ChildAdapterPosition(children[0]) != 0 ==> !IsTopOverScrolled(children)
    ensures children != [] && children[0].scrollY != 0 ==> !IsTopOverScrolled(children)
    ensures children != [] && ChildAdapterPosition(children[0]) == 0 && children[0].scrollY == 0 ==> IsTopOverScrolled(children)
  {
    if |children| == 0 then true
    else
      var topChild := children[0];
      ChildAdapterPosition(topChild) == 0 && topChild.scrollY == 0
  }

  /**
   * isBottomOverScrolled: no child is rendered, or the last rendered child is
   * the adapter's last item and its bottom edge plus the list's bottom
   * padding is exactly the list's height. It reads the adapter only when a
   * child is rendered; setting the adapter to null removes every child.
   */
  predicate IsBottomOverScrolled(children: seq<ChildView>, adapter: Option<Adapter>, paddingBottom: int, height: int)
    requires |children| > 0 ==> adapter.Some?
    ensures children == [] ==> IsBottomOverScrolled(children, adapter, paddingBottom, height)
    ensures children != [] && ChildAdapterPosition(children[|children| - 1]) != adapter.value.itemCount - 1 ==>
      !IsBottomOverScrolled(children, adapter, paddingBottom, height)
    ensures children != [] && children[|children| - 1].bottom + paddingBottom != height ==>
      !IsBottomOverScrolled(children, adapter, paddingBottom, height)
    ensures (children != [] && ChildAdapterPosition(children[|children| - 1]) == adapter.value.itemCount - 1
             && children[|children| - 1].bottom + paddingBottom == height) ==>
      IsBottomOverScrolled(children, adapter, paddingBottom, height)
  {
    if |children| == 0 then true
    else
      var bottomChild := children[|children| - 1];
      && ChildAdapterPosition(bottomChild) == adapter.value.itemCount - 1
      && bottomChild.bottom + paddingBottom == height
  }

  lemma EmptyListIsAtBothEdges(adapter: Option<Adapter>, paddingBottom: int, height: int)
    ensures IsTopOverScrolled([])
    ensures IsBottomOverScrolled([], adapter, paddingBottom, height)
  {
  }

  /** With children, the top probe holds exactly for item 0 scrolled to 0. */
  lemma TopOverScrolledWithChildren(children: seq<ChildView>)
    requires |children| > 0
    ensures IsTopOverScrolled(children) <==>
      children[0].hasViewHolder && children[0].adapterPosition == 0 && children[0].scrollY == 0
  {
  }

  /**
   * With children and a non-empty adapter, the bottom probe holds exactly for
   * the last item flush with the bottom padding; a child without a holder
   * (NO_POSITION) never matches.
   */
  lemma BottomOverScrolledWithChildren(children: seq<ChildView>, adapter: Option<Adapter>, paddingBottom: int, height: int)
    requires |children| > 0 && adapter.Some? && adapter.value.itemCount > 0
    ensures IsBottomOverScrolled(children, adapter, paddingBottom, height) <==>
      && children[|children| - 1].hasViewHolder
      && children[|children| - 1].adapterPosition == adapter.value.itemCount - 1
      && children[|children| - 1].bottom + paddingBottom == height
  {
  }

  /** The child list with the last child's bottom edge moved by `delta`. */
  function ShiftLastBottom(children: seq<ChildView>, delta: int): (shifted: seq<ChildView>)
    requires |children| > 0
    ensures |shifted| == |children|
    ensures shifted[..|children| - 1] == children[..|children| - 1]
    ensures shifted[|children| - 1].bottom == children[|children| - 1].bottom + delta
    ensures shifted[|children| - 1] == children[|children| - 1].(bottom := children[|children| - 1].bottom + delta)
  {
    var last := children[|children| - 1];
    children[..|children| - 1] + [last.(bottom := last.bottom + delta)]
  }

  /**
   * The bottom probe compares exactly: once the last item is flush with the
   * bottom padding, moving its bottom edge by any nonzero amount, one pixel
   * included, makes the probe false.
   */
  lemma BottomOverScrolledIsExact(children: seq<ChildView>, adapter: Option<Adapter>, paddingBottom: int, height: int, delta: int)
    requires |children| > 0 && adapter.Some?
    requires ChildAdapterPosition(children[|children| - 1]) == adapter.value.itemCount - 1
    requires children[|children| - 1].bottom + paddingBottom == height
    ensures IsBottomOverScrolled(children, adapter, paddingBottom, height)
    ensures IsBottomOverScrolled(ShiftLastBottom(children, delta), adapter, paddingBottom, height) <==> delta == 0
  {
  }

  // ---------------------------------------------------------------------
  // scrollVerticallyBy
  // ---------------------------------------------------------------------

  /** What the RecyclerView records of a guarded scroll, in order. */
  datatype ScrollEvent =
    | InterceptStarted
    | LayoutManagerScrolled(dy: int, interceptDepth: nat)
    | InterceptStopped(performLayoutChildren: bool)

  /** The parts of a RecyclerView that scrollVerticallyBy touches. */
  class RecyclerView {
    /** getLayoutManager() != null */
    var hasLayoutManager: bool
    /** How many startInterceptRequestLayout calls are not yet matched by a stop. */
    var interceptDepth: nat
    var events: seq<ScrollEvent>

    /** startInterceptRequestLayout: from here on, layout requests are held back. */
    method StartInterceptRequestLayout()
      modifies this`interceptDepth, this`events
      ensures interceptDepth == old(interceptDepth) + 1
      ensures events == old(events) + [InterceptStarted]
    {
      interceptDepth := interceptDepth + 1;
      events := events + [InterceptStarted];
    }

    /** stopInterceptRequestLayout: closes the innermost startInterceptRequestLayout. */
    method StopInterceptRequestLayout(performLayoutChildren: bool)
      requires interceptDepth > 0
      modifies this`interceptDepth, this`events
      ensures interceptDepth == old(interceptDepth) - 1
      ensures events == old(events) + [InterceptStopped(performLayoutChildren)]
    {
      interceptDepth := interceptDepth - 1;
      events := events + [InterceptStopped(performLayoutChildren)];
    }

    /** The layout manager's scrollVerticallyBy; `consume` gives the pixels it consumes for a delta. */
    method LayoutManagerScrollVerticallyBy(dy: int, consume: int -> int) returns (consumed: int)
      requires hasLayoutManager
      modifies this`events
      ensures consumed == consume(dy)
      ensures events == old(events) + [LayoutManagerScrolled(dy, interceptDepth)]
    {
      consumed := consume(dy);
      events := events + [LayoutManagerScrolled(dy, interceptDepth)];
    }
  }

  /**
   * scrollVerticallyBy: without a layout manager nothing happens and 0 is
   * returned; otherwise the layout manager scrolls inside one balanced
   * start/stop of layout-request interception and its consumed amount is
   * returned.
   */
  method ScrollVerticallyBy(recyclerView: RecyclerView, scroll: int, consume: int -> int) returns (consumed: int)
    modifies recyclerView`interceptDepth, recyclerView`events
    ensures !recyclerView.hasLayoutManager ==>
      consumed == 0 && unchanged(recyclerView)
    ensures recyclerView.hasLayoutManager ==>
      && consumed == consume(scroll)
      && recyclerView.interceptDepth == old(recyclerView.interceptDepth)
      && recyclerView.events == old(recyclerView.events) +
           [InterceptStarted, LayoutManagerScrolled(scroll, old(recyclerView.interceptDepth) + 1), InterceptStopped(false)]
  {
    if !recyclerView.hasLayoutManager {
      return 0;
    }
    recyclerView.StartInterceptRequestLayout();
    consumed := recyclerView.LayoutManagerScrollVerticallyBy(scroll, consume);
    recyclerView.StopInterceptRequestLayout(false);
  }

  // ---------------------------------------------------------------------
  // getCurrentVelocityY
  // ---------------------------------------------------------------------

  /** The scroller object found in the fling runner's private field. */
  datatype Scroller = CompatScroller(compatVelocity: real) | PlainOverScroller(velocity: real)

  /** The outcome of reading that field by reflection. */
  datatype ScrollerLookup = NoSuchField | IllegalAccess | Found(scroller: Scroller)

  /** getCurrentVelocityY: the scroller's current velocity, or 0 when the reflective read fails. */
  function CurrentVelocityY(lookup: ScrollerLookup): (v: real)
    ensures !lookup.Found? ==> v == 0.0
  {
    match lookup
    case NoSuchField => 0.0
    case IllegalAccess => 0.0
    case Found(scroller) =>
      match scroller
      case CompatScroller(v) => v
      case PlainOverScroller(v) => v
  }
}
