/**
 * AutoMeasureRecyclerView: a RecyclerView that sizes its height to its
 * content, up to the height of the enclosing PowerfulScrollView, and that
 * moves that container before scrolling itself to a position.
 *
 * The calls the view makes into the framework that the decisions are about
 * (super.onMeasure, addOnPreDrawListener, requestLayout, the container's
 * scrollTo, the superclass scrolls) are Effects appended to the view's log.
 * super.setAdapter is modelled by its effect on the children and its layout
 * request; the observer's super.on... callbacks (which do nothing) and the
 * listener's removeOnPreDrawListener are not logged. Pure functions
 * give the effects of each decision; the class's methods perform the
 * decisions step by step and are proved to append exactly those effects.
 */
module AutoMeasure {
  import opened Views

  /** A call the list makes into the framework, in the order it makes them. */
  datatype Effect =
    | SuperMeasure(widthSpec: MeasureSpec, heightSpec: MeasureSpec)
    | AddPreDrawListener
    | RequestLayout
    | ContainerScrollTo(x: int, y: int)
    | SuperScrollToPosition(position: int)
    | SuperSmoothScrollToPosition(position: int)
  {
    /** A scroll of the list itself (through the RecyclerView superclass). */
    predicate IsListScroll() {
      SuperScrollToPosition? || SuperSmoothScrollToPosition?
    }
  }

  // ---------------------------------------------------------------------
  // Finding the enclosing PowerfulScrollView
  // ---------------------------------------------------------------------

  /** The index of the nearest PowerfulScrollView in the parent chain, or |chain| when there is none. */
  function FirstContainerIndex(chain: seq<ViewParent>): (i: nat)
    ensures i <= |chain|
    ensures forall k :: 0 <= k < i ==> !IsContainer(chain[k])
    ensures i < |chain| ==> IsContainer(chain[i])
  {
    if chain == [] || IsContainer(chain[0]) then 0
    else 1 + FirstContainerIndex(chain[1..])
  }

  /** The container findMultiRVScrollView answers: the nearest PowerfulScrollView above the list, if any. */
  function NearestContainer(chain: seq<ViewParent>): (r: Option<Container>)
    ensures r.None? <==> forall k :: 0 <= k < |chain| ==> !IsContainer(chain[k])
    ensures r.Some? ==>
      exists k :: 0 <= k < |chain| && chain[k] == PowerfulScrollView(r.value) &&
        forall j :: 0 <= j < k ==> !IsContainer(chain[j])
  {
    var i := FirstContainerIndex(chain);
    if i < |chain| then Some(chain[i].container) else None
  }

  /** findMultiRVScrollView: walk up getParent() until a PowerfulScrollView or the root. */
  method FindMultiRVScrollView(parents: seq<ViewParent>) returns (r: Option<Container>)
    ensures r == NearestContainer(parents)
  {
    var i := 0;
    while i < |parents|
      invariant i <= |parents|
      invariant forall k :: 0 <= k < i ==> !IsContainer(parents[k])
    {
      if IsContainer(parents[i]) {
        return Some(parents[i].container);
      }
      i := i + 1;
    }
    return None;
  }

  // ---------------------------------------------------------------------
  // Queries on the rendered children
  // ---------------------------------------------------------------------

  /** getLastItemRect: the last child's decorated bounds with margins, or an empty rect without children. */
  function LastItemRect(children: seq<ChildView>): (r: Rect)
    ensures children == [] ==> r == EmptyRect
    ensures children != [] ==> r == children[|children| - 1].decoratedBounds
  {
    if |children| > 0 then children[|children| - 1].decoratedBounds else EmptyRect
  }

  /**
   * findViewHolderForAdapterPosition: the first rendered child whose holder
   * sits at `position`, or None when no rendered child does.
   */
  function FindViewHolderForAdapterPosition(children: seq<ChildView>, position: int): (r: Option<ChildView>)
    ensures r.Some? ==> r.value in children && r.value.hasViewHolder && r.value.adapterPosition == position
    ensures r.None? ==> forall c :: c in children ==> !(c.hasViewHolder && c.adapterPosition == position)
  {
    if children == [] then None
    else if children[0].hasViewHolder && children[0].adapterPosition == position then Some(children[0])
    else FindViewHolderForAdapterPosition(children[1..], position)
  }

  // ---------------------------------------------------------------------
  // onMeasure
  // ---------------------------------------------------------------------

  /**
   * The height spec of the first super.onMeasure when the adapter has items:
   * an unsized spec borrows the measured height of a measured container.
   */
  function FirstPassHeightSpec(heightSpec: MeasureSpec, container: Option<Container>): MeasureSpec {
    if heightSpec.size == 0 && container.Some? && container.value.measuredHeight > 0
    then Exact(container.value.measuredHeight)
    else heightSpec
  }

  /** The height of the corrective pass: the content's extent plus the paddings, floored at the minimum height. */
  function ContentHeight(children: seq<ChildView>, paddingTop: int, paddingBottom: int, minHeight: nat): nat {
    Max(LastItemRect(children).bottom + paddingTop + paddingBottom, minHeight)
  }

  /**
   * The calls onMeasure makes, given the adapter, the incoming specs, the
   * nearest container, the suggested minimum height, the paddings and the
   * children a super.onMeasure pass lays out for a pair of specs.
   */
  function OnMeasureEffects(
    adapter: Option<Adapter>, widthSpec: MeasureSpec, heightSpec: MeasureSpec,
    container: Option<Container>, minHeight: nat, paddingTop: int, paddingBottom: int,
    layout: (MeasureSpec, MeasureSpec) -> seq<ChildView>): (e: seq<Effect>)
    // one measure pass, possibly followed by a corrective pass or by one pre-draw listener
    ensures 1 <= |e| <= 2 && e[0].SuperMeasure?
    ensures forall i :: 0 <= i < |e| && e[i].SuperMeasure? ==> e[i].widthSpec == widthSpec
    ensures |e| == 2 ==> e[1] == AddPreDrawListener || e[1].SuperMeasure?
    // a corrective pass is EXACT, at least the minimum height and tall enough for the laid-out content
    ensures |e| == 2 && e[1].SuperMeasure? ==>
      && e[1].heightSpec.mode == Exactly
      && e[1].heightSpec.size >= minHeight
      && e[1].heightSpec.size >= LastItemRect(layout(widthSpec, e[0].heightSpec)).bottom + paddingTop + paddingBottom
    // with nothing to show, the one pass is never below the minimum height
    ensures ItemCount(adapter) == 0 ==> |e| == 1 && e[0].heightSpec.size >= minHeight
  {
    var itemCount := ItemCount(adapter);
    if itemCount > 0 then
      var first := FirstPassHeightSpec(heightSpec, container);
      var laidOut := layout(widthSpec, first);
      if |laidOut| == itemCount then
        [SuperMeasure(widthSpec, first),
         SuperMeasure(widthSpec, Exact(ContentHeight(laidOut, paddingTop, paddingBottom, minHeight)))]
      else if |laidOut| == 0 then
        [SuperMeasure(widthSpec, first), AddPreDrawListener]
      else
        [SuperMeasure(widthSpec, first)]
    else
      [SuperMeasure(widthSpec, if heightSpec.size < minHeight then Exact(minHeight) else heightSpec)]
  }

  lemma OnMeasureWithoutItems(
    adapter: Option<Adapter>, widthSpec: MeasureSpec, heightSpec: MeasureSpec,
    container: Option<Container>, minHeight: nat, paddingTop: int, paddingBottom: int,
    layout: (MeasureSpec, MeasureSpec) -> seq<ChildView>)
    requires adapter.None? || adapter.value.itemCount == 0
    ensures OnMeasureEffects(adapter, widthSpec, heightSpec, container, minHeight, paddingTop, paddingBottom, layout)
         == [SuperMeasure(widthSpec, if heightSpec.size < minHeight then MeasureSpec(minHeight, Exactly) else heightSpec)]
  {
  }

  lemma OnMeasureFirstPass(
    adapter: Option<Adapter>, widthSpec: MeasureSpec, heightSpec: MeasureSpec,
    container: Option<Container>, minHeight: nat, paddingTop: int, paddingBottom: int,
    layout: (MeasureSpec, MeasureSpec) -> seq<ChildView>)
    requires adapter.Some? && adapter.value.itemCount > 0
    ensures var e := OnMeasureEffects(adapter, widthSpec, heightSpec, container, minHeight, paddingTop, paddingBottom, layout);
      if heightSpec.size == 0 && container.Some? && container.value.measuredHeight > 0
      then e[0] == SuperMeasure(widthSpec, MeasureSpec(container.value.measuredHeight, Exactly))
      else e[0] == SuperMeasure(widthSpec, heightSpec)
  {
  }

  lemma OnMeasureAllItemsLaidOut(
    adapter: Option<Adapter>, widthSpec: MeasureSpec, heightSpec: MeasureSpec,
    container: Option<Container>, minHeight: nat, paddingTop: int, paddingBottom: int,
    layout: (MeasureSpec, MeasureSpec) -> seq<ChildView>)
    requires adapter.Some? && adapter.value.itemCount > 0
    requires |layout(widthSpec, FirstPassHeightSpec(heightSpec, container))| == adapter.value.itemCount
    ensures var first := FirstPassHeightSpec(heightSpec, container);
      var laidOut := layout(widthSpec, first);
      var target := laidOut[|laidOut| - 1].decoratedBounds.bottom + paddingTop + paddingBottom;
      OnMeasureEffects(adapter, widthSpec, heightSpec, container, minHeight, paddingTop, paddingBottom, layout)
        == [SuperMeasure(widthSpec, first),
            SuperMeasure(widthSpec, MeasureSpec(if target >= minHeight then target else minHeight, Exactly))]
  {
  }

  lemma OnMeasureNothingLaidOut(
    adapter: Option<Adapter>, widthSpec: MeasureSpec, heightSpec: MeasureSpec,
    container: Option<Container>, minHeight: nat, paddingTop: int, paddingBottom: int,
    layout: (MeasureSpec, MeasureSpec) -> seq<ChildView>)
    requires adapter.Some? && adapter.value.itemCount > 0
    requires layout(widthSpec, FirstPassHeightSpec(heightSpec, container)) == []
    ensures OnMeasureEffects(adapter, widthSpec, heightSpec, container, minHeight, paddingTop, paddingBottom, layout)
         == [SuperMeasure(widthSpec, FirstPassHeightSpec(heightSpec, container)), AddPreDrawListener]
  {
  }

  lemma OnMeasurePartlyLaidOut(
    adapter: Option<Adapter>, widthSpec: MeasureSpec, heightSpec: MeasureSpec,
    container: Option<Container>, minHeight: nat, paddingTop: int, paddingBottom: int,
    layout: (MeasureSpec, MeasureSpec) -> seq<ChildView>)
    requires adapter.Some? && adapter.value.itemCount > 0
    requires var n := |layout(widthSpec, FirstPassHeightSpec(heightSpec, container))|;
      n != 0 && n != adapter.value.itemCount
    ensures OnMeasureEffects(adapter, widthSpec, heightSpec, container, minHeight, paddingTop, paddingBottom, layout)
         == [SuperMeasure(widthSpec, FirstPassHeightSpec(heightSpec, container))]
  {
  }

  // ---------------------------------------------------------------------
  // refreshHeightIfNeed
  // ---------------------------------------------------------------------

  /**
   * When refreshHeightIfNeed requests a layout: the content overflows the
   * list, a measured container encloses it, and the container's height
   * differs from the list's.
   */
  predicate NeedsRemeasure(scrollRange: int, height: int, container: Option<Container>)
    // no request while the content fits, without a measured container, or when the heights agree
    ensures scrollRange <= height ==> !NeedsRemeasure(scrollRange, height, container)
    ensures container.None? || container.value.measuredHeight == 0 ==> !NeedsRemeasure(scrollRange, height, container)
    ensures container.Some? && container.value.height == height ==> !NeedsRemeasure(scrollRange, height, container)
  {
    && scrollRange > height
    && container.Some?
    && container.value.measuredHeight > 0
    && container.value.height != height
  }

  /**
   * The layout requests observerForReMeasure makes for one callback. Every
   * callback runs refreshHeightIfNeed once; the three-argument
   * onItemRangeChanged runs it twice, because its super call forwards to the
   * two-argument onItemRangeChanged, which this observer also overrides.
   */
  function RemeasureRequests(change: AdapterChange, scrollRange: int, height: int, container: Option<Container>): (e: seq<Effect>)
    ensures forall i :: 0 <= i < |e| ==> e[i] == RequestLayout
    ensures e != [] <==> NeedsRemeasure(scrollRange, height, container)
    ensures |e| == 2 <==> change.ItemRangeChangedPayload? && NeedsRemeasure(scrollRange, height, container)
    ensures |e| <= 2
  {
    var once := if NeedsRemeasure(scrollRange, height, container) then [RequestLayout] else [];
    if change.ItemRangeChangedPayload? then once + once else once
  }

  /**
   * Every range change an adapter announces, with or without a payload,
   * reaches the observer through the three-argument callback, so it asks for
   * a layout twice whenever the re-measure rule holds.
   */
  lemma RangeChangeRequestsTwice(change: AdapterChange, scrollRange: int, height: int, container: Option<Container>)
    requires change.ItemRangeChanged? || change.ItemRangeChangedPayload?
    ensures RemeasureRequests(DeliveredCallback(change), scrollRange, height, container)
         == if NeedsRemeasure(scrollRange, height, container) then [RequestLayout, RequestLayout] else []
  {
  }

  // ---------------------------------------------------------------------
  // scrollToPosition / smoothScrollToPosition
  // ---------------------------------------------------------------------

  /** rvScrollToPosition: the superclass's smooth or immediate scroll to `position`. */
  function RvScrollToPosition(position: int, isSmooth: bool): (e: Effect)
    ensures e.IsListScroll() && e.position == position
    ensures e.SuperSmoothScrollToPosition? <==> isSmooth
  {
    if isSmooth then SuperSmoothScrollToPosition(position) else SuperScrollToPosition(position)
  }

  /** Whether scrolling is coordinated with `container`: it exists, coordinates this list, and the list renders children. */
  predicate Coordinated(container: Option<Container>, children: seq<ChildView>) {
    container.Some? && container.value.coordinatesList && |children| > 0
  }

  /** The calls scrollToPositionInternal makes for a scroll to `position`. */
  function ScrollToPositionEffects(container: Option<Container>, children: seq<ChildView>, position: int, isSmooth: bool): (e: seq<Effect>)
    ensures |e| <= 2
    // the list scroll, when issued, is issued once and last; anything before it is a container scroll
    ensures e != [] ==> e[|e| - 1] == RvScrollToPosition(position, isSmooth)
    ensures forall i :: 0 <= i < |e| - 1 ==> e[i].ContainerScrollTo?
    // the container scroll brings the list's top to the container's origin
    ensures |e| == 2 ==> Coordinated(container, children) && e[0] == ContainerScrollTo(0, container.value.coordinatedTop)
    // nothing at all is issued only when the last rendered child has no holder
    ensures e == [] <==> Coordinated(container, children) && !children[|children| - 1].hasViewHolder
    ensures !Coordinated(container, children) ==> e == [RvScrollToPosition(position, isSmooth)]
  {
    if Coordinated(container, children) then
      var last := children[|children| - 1];
      if !last.hasViewHolder then []
      else
        var c := container.value;
        if last.adapterPosition < position then
          [ContainerScrollTo(0, c.coordinatedTop), RvScrollToPosition(position, isSmooth)]
        else
          var target := FindViewHolderForAdapterPosition(children, position);
          if target.Some? && target.value.bottom + c.coordinatedTop - c.scrollY > c.height then
            [ContainerScrollTo(0, c.coordinatedTop), RvScrollToPosition(position, isSmooth)]
          else
            [RvScrollToPosition(position, isSmooth)]
    else
      [RvScrollToPosition(position, isSmooth)]
  }

  /** Beyond everything rendered: the container moves to the list's top first. */
  lemma ScrollForwardMovesContainerFirst(container: Option<Container>, children: seq<ChildView>, position: int, isSmooth: bool)
    requires Coordinated(container, children)
    requires children[|children| - 1].hasViewHolder
    requires children[|children| - 1].adapterPosition < position
    ensures ScrollToPositionEffects(container, children, position, isSmooth)
         == [ContainerScrollTo(0, container.value.coordinatedTop), RvScrollToPosition(position, isSmooth)]
  {
  }

  /**
   * Not beyond what is rendered: the container moves first exactly when the
   * target is rendered and its bottom, in container space, lies below the
   * container's viewport.
   */
  lemma ScrollWithinRendered(container: Option<Container>, children: seq<ChildView>, position: int, isSmooth: bool)
    requires Coordinated(container, children)
    requires children[|children| - 1].hasViewHolder
    requires children[|children| - 1].adapterPosition >= position
    ensures var e := ScrollToPositionEffects(container, children, position, isSmooth);
      var c := container.value;
      var target := FindViewHolderForAdapterPosition(children, position);
      && e[|e| - 1] == RvScrollToPosition(position, isSmooth)
      && (e[0].ContainerScrollTo? <==> target.Some? && target.value.bottom + c.coordinatedTop - c.scrollY > c.height)
  {
  }

  /** A target below the container's viewport: for the first rendered child at the position, the container moves. */
  lemma ScrollToChildBelowViewport(container: Option<Container>, children: seq<ChildView>, k: nat, isSmooth: bool)
    requires Coordinated(container, children)
    requires children[|children| - 1].hasViewHolder
    requires k < |children| && children[k].hasViewHolder
    requires forall j :: 0 <= j < k ==> !(children[j].hasViewHolder && children[j].adapterPosition == children[k].adapterPosition)
    requires children[k].bottom + container.value.coordinatedTop - container.value.scrollY > container.value.height
    ensures ScrollToPositionEffects(container, children, children[k].adapterPosition, isSmooth)
         == [ContainerScrollTo(0, container.value.coordinatedTop), RvScrollToPosition(children[k].adapterPosition, isSmooth)]
  {
    FirstHolderAt(children, k);
  }

  /** The first child with a holder at a position is the one findViewHolderForAdapterPosition returns. */
  lemma {:induction false} FirstHolderAt(children: seq<ChildView>, k: nat)
    requires k < |children| && children[k].hasViewHolder
    requires forall j :: 0 <= j < k ==> !(children[j].hasViewHolder && children[j].adapterPosition == children[k].adapterPosition)
    ensures FindViewHolderForAdapterPosition(children, children[k].adapterPosition) == Some(children[k])
  {
    if k > 0 {
      var rest := children[1..];
      assert rest[k - 1] == children[k];
      assert forall j :: 0 <= j < k - 1 ==> rest[j] == children[j + 1];
      FirstHolderAt(rest, k - 1);
    }
  }

  /** The last rendered child has no holder: nothing is scrolled. */
  lemma ScrollWithoutHolderDoesNothing(container: Option<Container>, children: seq<ChildView>, position: int, isSmooth: bool)
    requires Coordinated(container, children)
    requires !children[|children| - 1].hasViewHolder
    ensures ScrollToPositionEffects(container, children, position, isSmooth) == []
  {
  }

  /** The last rendered position is 10, the container 500 tall at coordinated top 0: a scroll to 20 moves the container to 0 first. */
  lemma ForwardNavigationExample()
    ensures var container := Container(500, 500, 0, true, 0);
      var children := [ChildView(true, 9, 450, 0, Rect(0, 400, 100, 450)), ChildView(true, 10, 500, 0, Rect(0, 450, 100, 500))];
      ScrollToPositionEffects(Some(container), children, 20, false) == [ContainerScrollTo(0, 0), SuperScrollToPosition(20)]
  {
  }

  /** A rendered child at position 5 whose bottom sits at 300 inside a 500-tall container: only the list scrolls. */
  lemma AlreadyVisibleExample()
    ensures var container := Container(500, 500, 0, true, 0);
      var children := [ChildView(true, 4, 200, 0, Rect(0, 100, 100, 200)), ChildView(true, 5, 300, 0, Rect(0, 200, 100, 300)),
                       ChildView(true, 6, 400, 0, Rect(0, 300, 100, 400))];
      ScrollToPositionEffects(Some(container), children, 5, false) == [SuperScrollToPosition(5)]
  {
  }

  // ---------------------------------------------------------------------
  // Adapter notifications
  // ---------------------------------------------------------------------

  /**
   * The callbacks of an AdapterDataObserver. ItemRangeChanged is the
   * two-argument onItemRangeChanged, ItemRangeChangedPayload the
   * three-argument one, whose payload may be null (its content is not read).
   */
  datatype AdapterChange =
    | Changed
    | ItemRangeChanged(positionStart: int, itemCount: int)
    | ItemRangeChangedPayload(positionStart: int, itemCount: int, hasPayload: bool)
    | ItemRangeInserted(positionStart: int, itemCount: int)
    | ItemRangeRemoved(positionStart: int, itemCount: int)
    | ItemRangeMoved(fromPosition: int, toPosition: int, itemCount: int)

  /**
   * The callback a registered observer receives when an adapter announces
   * `change`: the adapter's notifyItemRangeChanged(start, count) calls the
   * three-argument callback with a null payload, so the two-argument one is
   * never called by an adapter; every other announcement is passed on as is.
   */
  function DeliveredCallback(change: AdapterChange): (delivered: AdapterChange)
    ensures !delivered.ItemRangeChanged?
    ensures change.ItemRangeChanged? ==> delivered == ItemRangeChangedPayload(change.positionStart, change.itemCount, false)
    ensures !change.ItemRangeChanged? ==> delivered == change
  {
    if change.ItemRangeChanged? then ItemRangeChangedPayload(change.positionStart, change.itemCount, false) else change
  }

  // ---------------------------------------------------------------------
  // The view
  // ---------------------------------------------------------------------

  class AutoMeasureRecyclerView {
    /** getAdapter() */
    var adapter: Option<Adapter>
    /** The adapters on which observerForReMeasure is registered. */
    var observedAdapters: set<nat>
    /** getParent(), getParent().getParent(), ... up to the root. */
    var parents: seq<ViewParent>
    /** The children rendered by the last layout pass, in layout order. */
    var children: seq<ChildView>
    var paddingTop: int
    var paddingBottom: int
    /** getSuggestedMinimumHeight() */
    var suggestedMinimumHeight: nat
    /** getHeight() */
    var height: int
    /** computeVerticalScrollRange() */
    var scrollRange: int
    /** One-shot pre-draw listeners registered by onMeasure and not yet fired. */
    var preDrawListeners: nat
    /** Every call into the framework, oldest first. */
    var log: seq<Effect>

    /** observerForReMeasure is registered exactly on the current adapter. */
    ghost predicate Valid()
      reads this
    {
      observedAdapters == AdapterIds(adapter)
    }

    /** A list with no adapter, no children and no pending listener, below the given parents. */
    constructor (parents: seq<ViewParent>, paddingTop: int, paddingBottom: int, suggestedMinimumHeight: nat)
      ensures Valid()
      ensures adapter == None && children == [] && preDrawListeners == 0 && log == []
      ensures this.parents == parents && this.paddingTop == paddingTop && this.paddingBottom == paddingBottom
      ensures this.suggestedMinimumHeight == suggestedMinimumHeight
    {
      adapter := None;
      observedAdapters := {};
      this.parents := parents;
      children := [];
      this.paddingTop := paddingTop;
      this.paddingBottom := paddingBottom;
      this.suggestedMinimumHeight := suggestedMinimumHeight;
      height := 0;
      scrollRange := 0;
      preDrawListeners := 0;
      log := [];
    }

    /**
     * setAdapter: move observerForReMeasure from the old adapter to the new
     * one. In between, super.setAdapter removes every rendered child and
     * requests a layout.
     */
    method SetAdapter(newAdapter: Option<Adapter>)
      requires Valid()
      modifies this`adapter, this`observedAdapters, this`children, this`log
      ensures Valid()
      ensures adapter == newAdapter
      ensures observedAdapters == (old(observedAdapters) - AdapterIds(old(adapter))) + AdapterIds(newAdapter)
      ensures children == []
      ensures log == old(log) + [RequestLayout]
    {
      if adapter.Some? {
        observedAdapters := observedAdapters - {adapter.value.id};
      }
      SuperSetAdapter(newAdapter);
      if newAdapter.Some? {
        observedAdapters := observedAdapters + {newAdapter.value.id};
      }
    }

    /** super.setAdapter: swap the adapter, remove and recycle the rendered children, request a layout. */
    method SuperSetAdapter(newAdapter: Option<Adapter>)
      modifies this`adapter, this`children, this`log
      ensures adapter == newAdapter && children == []
      ensures log == old(log) + [RequestLayout]
    {
      adapter := newAdapter;
      children := [];
      log := log + [RequestLayout];
    }

    /** One super.onMeasure pass: the engine lays out the children for the given specs. */
    method SuperOnMeasure(widthSpec: MeasureSpec, heightSpec: MeasureSpec, layout: (MeasureSpec, MeasureSpec) -> seq<ChildView>)
      modifies this`children, this`log
      ensures children == layout(widthSpec, heightSpec)
      ensures log == old(log) + [SuperMeasure(widthSpec, heightSpec)]
    {
      children := layout(widthSpec, heightSpec);
      log := log + [SuperMeasure(widthSpec, heightSpec)];
    }

    /** onMeasure: measure once, then correct with an EXACT pass or defer one relayout to the next draw. */
    method OnMeasure(widthSpec: MeasureSpec, heightSpec: MeasureSpec, layout: (MeasureSpec, MeasureSpec) -> seq<ChildView>)
      modifies this`children, this`log, this`preDrawListeners
      ensures var e := OnMeasureEffects(adapter, widthSpec, heightSpec, NearestContainer(parents),
                                        suggestedMinimumHeight, paddingTop, paddingBottom, layout);
        && log == old(log) + e
        && children == layout(widthSpec, (if |e| == 2 && e[1].SuperMeasure? then e[1] else e[0]).heightSpec)
        && preDrawListeners == old(preDrawListeners) + (if AddPreDrawListener in e then 1 else 0)
    {
      var container := FindMultiRVScrollView(parents);
      ghost var e := OnMeasureEffects(adapter, widthSpec, heightSpec, container,
                                      suggestedMinimumHeight, paddingTop, paddingBottom, layout);
      var spec := heightSpec;
      if adapter.Some? && adapter.value.itemCount > 0 {
        if spec.size == 0 && container.Some? && container.value.measuredHeight > 0 {
          spec := Exact(container.value.measuredHeight);
        }
        assert spec == FirstPassHeightSpec(heightSpec, container);
        SuperOnMeasure(widthSpec, spec, layout);
        if |children| == adapter.value.itemCount {
          var lastItemRect := LastItemRect(children);
          var targetHeight := lastItemRect.bottom + paddingTop + paddingBottom;
          targetHeight := Max(targetHeight, suggestedMinimumHeight);
          assert e == [SuperMeasure(widthSpec, spec), SuperMeasure(widthSpec, Exact(targetHeight))];
          spec := Exact(targetHeight);
          SuperOnMeasure(widthSpec, spec, layout);
        } else if |children| == 0 {
          assert e == [SuperMeasure(widthSpec, spec), AddPreDrawListener];
          preDrawListeners := preDrawListeners + 1;
          log := log + [AddPreDrawListener];
        } else {
          assert e == [SuperMeasure(widthSpec, spec)];
        }
      } else {
        if spec.size < suggestedMinimumHeight {
          spec := Exact(suggestedMinimumHeight);
        }
        SuperOnMeasure(widthSpec, spec, layout);
      }
    }

    /** The pre-draw listener onMeasure registers: it removes itself, requests a layout and cancels this draw. */
    method OnPreDraw() returns (proceedWithDraw: bool)
      requires preDrawListeners > 0
      modifies this`preDrawListeners, this`log
      ensures preDrawListeners == old(preDrawListeners) - 1
      ensures log == old(log) + [RequestLayout]
      ensures !proceedWithDraw
    {
      preDrawListeners := preDrawListeners - 1;
      log := log + [RequestLayout];
      proceedWithDraw := false;
    }

    /** refreshHeightIfNeed: request a layout when the list's height no longer matches its container's. */
    method RefreshHeightIfNeed()
      modifies this`log
      ensures log == old(log) + if NeedsRemeasure(scrollRange, height, NearestContainer(parents)) then [RequestLayout] else []
    {
      if scrollRange > height {
        var container := FindMultiRVScrollView(parents);
        if container.Some? && container.value.measuredHeight > 0 {
          if container.value.height != height {
            log := log + [RequestLayout];
          }
        }
      }
    }

    /** ObserverForReMeasure: every notification it receives re-checks the height. */
    method ObserverOnChange(change: AdapterChange)
      modifies this`log
      ensures log == old(log) + RemeasureRequests(change, scrollRange, height, NearestContainer(parents))
    {
      match change
      case Changed => RefreshHeightIfNeed();
      case ItemRangeChanged(_, _) => RefreshHeightIfNeed();
      case ItemRangeChangedPayload(_, _, _) =>
        // super.onItemRangeChanged(start, count, payload) calls the overridden two-argument form
        RefreshHeightIfNeed();
        RefreshHeightIfNeed();
      case ItemRangeInserted(_, _) => RefreshHeightIfNeed();
      case ItemRangeRemoved(_, _) => RefreshHeightIfNeed();
      case ItemRangeMoved(_, _, _) => RefreshHeightIfNeed();
    }

    /**
     * The adapter with id `source` announces `change` to its observers;
     * observerForReMeasure hears it, as DeliveredCallback(change), only when
     * registered there.
     */
    method DispatchAdapterChange(source: nat, change: AdapterChange)
      requires Valid()
      modifies this`log
      ensures log == old(log) +
        if adapter.Some? && adapter.value.id == source
        then RemeasureRequests(DeliveredCallback(change), scrollRange, height, NearestContainer(parents)) else []
      // a range change from the current adapter asks for a layout twice when the rule holds
      ensures adapter.Some? && adapter.value.id == source && (change.ItemRangeChanged? || change.ItemRangeChangedPayload?)
              && NeedsRemeasure(scrollRange, height, NearestContainer(parents))
              ==> log == old(log) + [RequestLayout, RequestLayout]
    {
      if source in observedAdapters {
        ObserverOnChange(DeliveredCallback(change));
      }
    }

    /** scrollToPositionInternal: move the container first when the target would otherwise stay out of its viewport. */
    method ScrollToPositionInternal(position: int, isSmooth: bool)
      modifies this`log
      ensures log == old(log) + ScrollToPositionEffects(NearestContainer(parents), children, position, isSmooth)
    {
      var container := FindMultiRVScrollView(parents);
      if container.Some? && container.value.coordinatesList && |children| > 0 {
        var last := children[|children| - 1];
        if last.hasViewHolder {
          var coordinatedTop := container.value.coordinatedTop;
          if last.adapterPosition < position {
            log := log + [ContainerScrollTo(0, coordinatedTop)];
            log := log + [RvScrollToPosition(position, isSmooth)];
          } else {
            var target := FindViewHolderForAdapterPosition(children, position);
            if target.Some? && target.value.bottom + coordinatedTop - container.value.scrollY > container.value.height {
              log := log + [ContainerScrollTo(0, coordinatedTop)];
            }
            log := log + [RvScrollToPosition(position, isSmooth)];
          }
        }
      } else {
        log := log + [RvScrollToPosition(position, isSmooth)];
      }
    }

    method ScrollToPosition(position: int)
      modifies this`log
      ensures log == old(log) + ScrollToPositionEffects(NearestContainer(parents), children, position, false)
    {
      ScrollToPositionInternal(position, false);
    }

    method SmoothScrollToPosition(position: int)
      modifies this`log
      ensures log == old(log) + ScrollToPositionEffects(NearestContainer(parents), children, position, true)
    {
      ScrollToPositionInternal(position, true);
    }
  }
}
