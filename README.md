# PowerfulScrollView core: auto-measuring list and scroll coordination

This project models the decision logic of two Android classes from PowerfulScrollView:

- `AutoMeasureRecyclerView` is a RecyclerView that sizes its height to its content. The height can grow up to the height of the enclosing `PowerfulScrollView` container.
  - `onMeasure` runs one measure pass. It may add an EXACT corrective pass, or register a one-shot pre-draw relayout.
  - Every adapter notification re-checks whether a new layout is needed.
  - A scroll to a position may first move the container to the list's top, and then scrolls the list.
- `RVScrollViewUtils` holds three helpers:
  - the top and bottom boundary probes;
  - a scroll delegate that brackets the layout manager's scroll with a balanced start/stop of layout-request interception;
  - a best-effort read of the fling velocity.

Layout: `views.dfy` (module `Views`) holds the framework values the core reads: measure specs, rects, rendered children, adapters, and the parent chain. `auto_measure.dfy` (module `AutoMeasure`) models `AutoMeasureRecyclerView.java`. `rv_scroll_view_utils.dfy` (module `RVScrollViewUtils`) models `RVScrollViewUtils.java`.

The calls the decisions are about are `Effect`s appended to the view's `log`:
- `super.onMeasure`;
- `addOnPreDrawListener`;
- `requestLayout`;
- the container's `scrollTo`;
- the superclass scrolls.

Other framework calls are not logged:
- `super.setAdapter` is modelled only through two effects: it clears the rendered children and logs its layout request.
- The observer's `super.on…` callbacks are not logged. They do nothing in `AdapterDataObserver`, except that the three-argument `onItemRangeChanged` forwards to the two-argument one, which is modelled.
- The listener's `removeOnPreDrawListener` is not logged. It is modelled as a decrement of the pending-listener count.

The pure functions `OnMeasureEffects`, `ScrollToPositionEffects` and `RemeasureRequests` give the effects of one decision. The predicate `NeedsRemeasure` gives the re-measure rule. The class methods take the source's steps one at a time and are proved to append exactly those effects. Lemmas state each branch of each decision.

Inputs that come from code outside this model are parameters:
- `super.onMeasure` is an oracle `layout` that maps the width and height specs to the children laid out.
- The layout manager's scroll is an oracle `consume` that maps a delta to the pixels consumed.
- The container's measured height, height, scroll offset, `isCoordinatedWith` answer and coordinated top are fields of a `Container` value in the parent chain.

## Model

| member | source | states |
|---|---|---|
| `AutoMeasure.FirstContainerIndex` | widget.PowerfulScrollView/src/main/java/com/lsjwzh/widget/powerfulscrollview/AutoMeasureRecyclerView.java:143-152 | The index is the first position in the parent chain that holds a PowerfulScrollView, or the chain's length when none does. No earlier parent is a container. |
| `AutoMeasure.NearestContainer` | widget.PowerfulScrollView/src/main/java/com/lsjwzh/widget/powerfulscrollview/AutoMeasureRecyclerView.java:143-152 | The result is None exactly when no parent is a container. Otherwise it is the container at some position with no container before it, which makes it the nearest one. |
| `AutoMeasure.FindMultiRVScrollView` | widget.PowerfulScrollView/src/main/java/com/lsjwzh/widget/powerfulscrollview/AutoMeasureRecyclerView.java:143-152 | The loop up the parent chain returns the nearest container, or None when there is none. |
| `AutoMeasure.LastItemRect` | widget.PowerfulScrollView/src/main/java/com/lsjwzh/widget/powerfulscrollview/AutoMeasureRecyclerView.java:89-95 | With no children the rect is empty (all edges 0). Otherwise it is the last child's decorated bounds with margins. |
| `AutoMeasure.FindViewHolderForAdapterPosition` | widget.PowerfulScrollView/src/main/java/com/lsjwzh/widget/powerfulscrollview/AutoMeasureRecyclerView.java:120-121 | A found child is rendered, has a holder, and sits at the position. None means that no rendered child with a holder sits there. |
| `AutoMeasure.OnMeasureEffects` | widget.PowerfulScrollView/src/main/java/com/lsjwzh/widget/powerfulscrollview/AutoMeasureRecyclerView.java:52-87 | onMeasure makes one measure pass, optionally followed by either a second pass or one pre-draw listener. Every pass keeps the width spec. A second pass is EXACT, at least the minimum height, and at least the laid-out content's bottom plus both paddings. With no items there is exactly one pass, and its height is never below the minimum. |
| `AutoMeasure.OnMeasureWithoutItems` | widget.PowerfulScrollView/src/main/java/com/lsjwzh/widget/powerfulscrollview/AutoMeasureRecyclerView.java:81-86 | With a null or empty adapter there is exactly one pass. It uses EXACT(minHeight) when the incoming size is below the minimum, and the incoming spec otherwise. Nothing is scheduled. |
| `AutoMeasure.OnMeasureFirstPass` | widget.PowerfulScrollView/src/main/java/com/lsjwzh/widget/powerfulscrollview/AutoMeasureRecyclerView.java:56-62 | With items, the first pass uses EXACT(the container's measured height) exactly when the incoming size is 0 and a container with measured height > 0 exists. Otherwise it uses the incoming spec unchanged. |
| `AutoMeasure.OnMeasureAllItemsLaidOut` | widget.PowerfulScrollView/src/main/java/com/lsjwzh/widget/powerfulscrollview/AutoMeasureRecyclerView.java:63-69 | When the first pass lays out every item, exactly two passes happen. The second is EXACT(max(last child's decorated bottom + paddingTop + paddingBottom, minHeight)). |
| `AutoMeasure.OnMeasureNothingLaidOut` | widget.PowerfulScrollView/src/main/java/com/lsjwzh/widget/powerfulscrollview/AutoMeasureRecyclerView.java:70-79 | When the first pass lays out no child, that single pass is followed by the registration of one pre-draw listener. |
| `AutoMeasure.OnMeasurePartlyLaidOut` | widget.PowerfulScrollView/src/main/java/com/lsjwzh/widget/powerfulscrollview/AutoMeasureRecyclerView.java:63-80 | When the child count is neither 0 nor the item count, exactly one pass happens and nothing is scheduled. |
| `AutoMeasure.RvScrollToPosition` | widget.PowerfulScrollView/src/main/java/com/lsjwzh/widget/powerfulscrollview/AutoMeasureRecyclerView.java:135-141 | The result is a list scroll to the same position. It is the smooth variant exactly when a smooth scroll was asked for. |
| `AutoMeasure.ScrollToPositionEffects` | widget.PowerfulScrollView/src/main/java/com/lsjwzh/widget/powerfulscrollview/AutoMeasureRecyclerView.java:109-133 | At most two calls are made. The list scroll, when issued, comes once and last, and only a container scroll can precede it. A container scroll targets (0, coordinatedTop) and happens only under coordination. Nothing is issued exactly when coordination applies and the last child has no holder. Without coordination the only call is the list scroll. |
| `AutoMeasure.ScrollForwardMovesContainerFirst` | widget.PowerfulScrollView/src/main/java/com/lsjwzh/widget/powerfulscrollview/AutoMeasureRecyclerView.java:116-118 | When the last rendered position is below the target, the container scrolls to (0, coordinatedTop), and then the list scrolls. |
| `AutoMeasure.ScrollWithinRendered` | widget.PowerfulScrollView/src/main/java/com/lsjwzh/widget/powerfulscrollview/AutoMeasureRecyclerView.java:119-128 | Otherwise the list scroll still comes last. The container scrolls first exactly when the target child is found and bottom + coordinatedTop - scrollY exceeds the container's height. |
| `AutoMeasure.ScrollToChildBelowViewport` | widget.PowerfulScrollView/src/main/java/com/lsjwzh/widget/powerfulscrollview/AutoMeasureRecyclerView.java:119-128 | Take a scroll to the position of a rendered child whose container-space bottom lies below the viewport, where no earlier child has a holder at that position. This holds whether or not the position lies beyond the last rendered child. The container is moved first. |
| `AutoMeasure.FirstHolderAt` | widget.PowerfulScrollView/src/main/java/com/lsjwzh/widget/powerfulscrollview/AutoMeasureRecyclerView.java:120 | The lookup by adapter position returns the first rendered child that has a holder at that position. |
| `AutoMeasure.ScrollWithoutHolderDoesNothing` | widget.PowerfulScrollView/src/main/java/com/lsjwzh/widget/powerfulscrollview/AutoMeasureRecyclerView.java:113-114 | Under coordination, when the last child has no holder, no call is issued at all. |
| `AutoMeasure.ForwardNavigationExample` | widget.PowerfulScrollView/src/main/java/com/lsjwzh/widget/powerfulscrollview/AutoMeasureRecyclerView.java:116-118 | Take last position 10, container height 500 and coordinated top 0. A scroll to 20 gives scrollTo(0, 0) and then scrollToPosition(20). |
| `AutoMeasure.AlreadyVisibleExample` | widget.PowerfulScrollView/src/main/java/com/lsjwzh/widget/powerfulscrollview/AutoMeasureRecyclerView.java:119-128 | Take a child at position 5 with bottom 300 in a container 500 high. A scroll to 5 gives only scrollToPosition(5). |
| `AutoMeasure.NeedsRemeasure` | widget.PowerfulScrollView/src/main/java/com/lsjwzh/widget/powerfulscrollview/AutoMeasureRecyclerView.java:98-104 | The rule never holds in three cases: the content fits (scroll range ≤ height), there is no container with measured height > 0, or the container's height equals the list's. |
| `AutoMeasure.DeliveredCallback` | widget.PowerfulScrollView/src/main/java/com/lsjwzh/widget/powerfulscrollview/AutoMeasureRecyclerView.java:162-171 | An adapter's range change, with or without a payload, reaches the observer as the three-argument `onItemRangeChanged` (null payload when none was given), never as the two-argument one. Every other announcement reaches it unchanged. |
| `AutoMeasure.RangeChangeRequestsTwice` | widget.PowerfulScrollView/src/main/java/com/lsjwzh/widget/powerfulscrollview/AutoMeasureRecyclerView.java:162-171 | Any range change an adapter announces yields two layout requests when the re-measure rule holds, and none otherwise. |
| `AutoMeasure.RemeasureRequests` | widget.PowerfulScrollView/src/main/java/com/lsjwzh/widget/powerfulscrollview/AutoMeasureRecyclerView.java:154-190 | A callback yields only layout requests. It yields some exactly when the re-measure rule holds, and two exactly when it is the three-argument `onItemRangeChanged` (payload possibly null) and the rule holds. |
| `AutoMeasure.AutoMeasureRecyclerView.constructor` | widget.PowerfulScrollView/src/main/java/com/lsjwzh/widget/powerfulscrollview/AutoMeasureRecyclerView.java:17 | A new list has no adapter, no children, no pending listener and an empty log. The observer is registered nowhere, so the invariant holds. |
| `AutoMeasure.AutoMeasureRecyclerView.SetAdapter` | widget.PowerfulScrollView/src/main/java/com/lsjwzh/widget/powerfulscrollview/AutoMeasureRecyclerView.java:31-40 | The observer is unregistered from the old adapter and registered on the new one. The invariant holds afterwards: the observer is registered exactly on the current adapter. In between, super.setAdapter removes every rendered child and requests one layout. |
| `AutoMeasure.AutoMeasureRecyclerView.SuperSetAdapter` | widget.PowerfulScrollView/src/main/java/com/lsjwzh/widget/powerfulscrollview/AutoMeasureRecyclerView.java:36 | The adapter is swapped, the rendered children are cleared, and one layout request is logged. |
| `AutoMeasure.AutoMeasureRecyclerView.SuperOnMeasure` | widget.PowerfulScrollView/src/main/java/com/lsjwzh/widget/powerfulscrollview/AutoMeasureRecyclerView.java:62 | One super.onMeasure pass is logged. The rendered children become what the engine lays out for the specs. |
| `AutoMeasure.AutoMeasureRecyclerView.OnMeasure` | widget.PowerfulScrollView/src/main/java/com/lsjwzh/widget/powerfulscrollview/AutoMeasureRecyclerView.java:52-87 | onMeasure appends exactly OnMeasureEffects for the nearest container to the log. The children are those of the last pass. The pending pre-draw listeners grow by one exactly when one is registered. Nothing else changes. |
| `AutoMeasure.AutoMeasureRecyclerView.OnPreDraw` | widget.PowerfulScrollView/src/main/java/com/lsjwzh/widget/powerfulscrollview/AutoMeasureRecyclerView.java:72-79 | The listener removes itself, requests layout once, and cancels the current draw. |
| `AutoMeasure.AutoMeasureRecyclerView.RefreshHeightIfNeed` | widget.PowerfulScrollView/src/main/java/com/lsjwzh/widget/powerfulscrollview/AutoMeasureRecyclerView.java:97-107 | One layout is requested exactly when three things hold: the scroll range exceeds the height, a container with measured height > 0 encloses the list, and that container's height differs from the list's. Otherwise nothing is requested. |
| `AutoMeasure.AutoMeasureRecyclerView.ObserverOnChange` | widget.PowerfulScrollView/src/main/java/com/lsjwzh/widget/powerfulscrollview/AutoMeasureRecyclerView.java:154-190 | Every callback runs refreshHeightIfNeed once, except the three-argument `onItemRangeChanged`, which runs it twice because line 169's super call forwards to the override at 162-165. Every range change an adapter announces arrives through that three-argument callback. The log grows by exactly RemeasureRequests. |
| `AutoMeasure.AutoMeasureRecyclerView.DispatchAdapterChange` | widget.PowerfulScrollView/src/main/java/com/lsjwzh/widget/powerfulscrollview/AutoMeasureRecyclerView.java:31-40 | An announcement from the current adapter reaches the observer as `DeliveredCallback` and adds its RemeasureRequests. A range change, with or without a payload, therefore asks for a layout twice when the rule holds. An announcement from any other adapter, such as one replaced earlier, changes nothing. |
| `AutoMeasure.AutoMeasureRecyclerView.ScrollToPositionInternal` | widget.PowerfulScrollView/src/main/java/com/lsjwzh/widget/powerfulscrollview/AutoMeasureRecyclerView.java:109-133 | The log grows by exactly ScrollToPositionEffects for the nearest container and the rendered children. |
| `AutoMeasure.AutoMeasureRecyclerView.ScrollToPosition` | widget.PowerfulScrollView/src/main/java/com/lsjwzh/widget/powerfulscrollview/AutoMeasureRecyclerView.java:42-45 | This is the coordinated scroll with smoothness off. |
| `AutoMeasure.AutoMeasureRecyclerView.SmoothScrollToPosition` | widget.PowerfulScrollView/src/main/java/com/lsjwzh/widget/powerfulscrollview/AutoMeasureRecyclerView.java:47-50 | This is the coordinated scroll with smoothness on. |
| `RVScrollViewUtils.IsTopOverScrolled` | widget.PowerfulScrollView/src/main/java/androidx/recyclerview/widget/RVScrollViewUtils.java:43-50 | With no children the probe is true. With children it is true exactly when the first child's adapter position (NO_POSITION without a holder) is 0 and its scrollY is 0. |
| `RVScrollViewUtils.IsBottomOverScrolled` | widget.PowerfulScrollView/src/main/java/androidx/recyclerview/widget/RVScrollViewUtils.java:52-60 | With no children the probe is true. With children it is true exactly when the last child's adapter position is itemCount - 1 and bottom + paddingBottom equals the height. |
| `RVScrollViewUtils.EmptyListIsAtBothEdges` | widget.PowerfulScrollView/src/main/java/androidx/recyclerview/widget/RVScrollViewUtils.java:43-55 | With no rendered child, both boundary probes are true. |
| `RVScrollViewUtils.TopOverScrolledWithChildren` | widget.PowerfulScrollView/src/main/java/androidx/recyclerview/widget/RVScrollViewUtils.java:47-49 | With children, the top probe holds exactly when the first child has a holder at adapter position 0 and its own scrollY is 0. |
| `RVScrollViewUtils.BottomOverScrolledWithChildren` | widget.PowerfulScrollView/src/main/java/androidx/recyclerview/widget/RVScrollViewUtils.java:56-59 | Take a list with children and a non-empty adapter. The bottom probe holds exactly when the last child has a holder at itemCount - 1 and bottom + paddingBottom == height. |
| `RVScrollViewUtils.ShiftLastBottom` | widget.PowerfulScrollView/src/main/java/androidx/recyclerview/widget/RVScrollViewUtils.java:56-59 | The list keeps its length and every child but the last. The last child is the same child with only its bottom edge moved by delta. |
| `RVScrollViewUtils.BottomOverScrolledIsExact` | widget.PowerfulScrollView/src/main/java/androidx/recyclerview/widget/RVScrollViewUtils.java:56-59 | Once the last item is flush with the bottom padding, the probe is true. Moving that edge by delta keeps it true exactly when delta is 0, so ±1 makes it false. |
| `RVScrollViewUtils.RecyclerView.StartInterceptRequestLayout` | widget.PowerfulScrollView/src/main/java/androidx/recyclerview/widget/RVScrollViewUtils.java:36 | The intercept depth goes up by one and the start is recorded. |
| `RVScrollViewUtils.RecyclerView.StopInterceptRequestLayout` | widget.PowerfulScrollView/src/main/java/androidx/recyclerview/widget/RVScrollViewUtils.java:39 | The intercept depth goes down by one and the stop is recorded. |
| `RVScrollViewUtils.RecyclerView.LayoutManagerScrollVerticallyBy` | widget.PowerfulScrollView/src/main/java/androidx/recyclerview/widget/RVScrollViewUtils.java:37-38 | The result is the layout manager's consumed amount. The scroll is recorded with the intercept depth at the time of the call. |
| `RVScrollViewUtils.ScrollVerticallyBy` | widget.PowerfulScrollView/src/main/java/androidx/recyclerview/widget/RVScrollViewUtils.java:29-41 | Without a layout manager the result is 0 and the view is unchanged. Otherwise the result is exactly the layout manager's consumed amount. The scroll runs between one start and one stop(false) of interception, at depth old + 1, and the depth ends where it began. |
| `RVScrollViewUtils.CurrentVelocityY` | widget.PowerfulScrollView/src/main/java/androidx/recyclerview/widget/RVScrollViewUtils.java:62-77 | When the reflective read fails (no such field, or illegal access), the velocity is 0. |

## Left out
- `DeliveredCallback`: the routing of an adapter's announcements to observer callbacks belongs to RecyclerView's `AdapterDataObservable`, which is not part of this model. It is stated as the framework behaves: `notifyItemRangeChanged(start, count)` calls the three-argument callback with a null payload.

- The internals of RecyclerView's `super.onMeasure`, layout-manager scrolling and view recycling are framework code. Each is an oracle parameter, and only its result is used.
- Android's bit packing of `MeasureSpec` is not modelled. A spec is a (size, mode) pair, and the size is an unbounded nat, so the 30-bit size mask is not modelled.
- `ViewTreeObserver` mechanics are reduced to a count of pending one-shot pre-draw listeners. `OnPreDraw` is the body of one such listener firing.
- Sizes, positions and offsets are unbounded integers, so 32-bit overflow of `bottom + paddingTop + paddingBottom` is not modelled.
- The container's coordinated top is a float in the source. It is an int here: the `(int)` truncation is taken as exact, and the comparison `bottom + coordinatedTop - scrollY > height` is done on ints.
- The container's own reaction to `scrollTo`, including clamping and its scroll state, is outside this model. The call is recorded in the log.
- `FindViewHolderForAdapterPosition` returns the first rendered child with a holder at the position. RecyclerView's own lookup also skips removed holders, prefers non-hidden ones, and returns null after an unlaid data-set change. Those framework details are not modelled.
- RecyclerView's own handling inside `startInterceptRequestLayout` and `stopInterceptRequestLayout` is not modelled: its deferred-layout flag, and its reset of a depth below 1. Only the depth counter is kept.
- `CurrentVelocityY`: the velocity is a real, not a float. Only the failure outcome is stated. A null scroller field, which would throw a NullPointerException, is not modelled.
- `setMeasureSpecs`, `getRecycler`, `getState` and `setScrollState` are one-line pass-throughs with no decision logic.
- The constructors and the adapter's data mutations are not modelled. Notifications arrive through `DispatchAdapterChange`, and the item count is part of the `Adapter` value given to `SetAdapter`.
- `IsBottomOverScrolled` requires an adapter whenever a child is rendered. The source dereferences the adapter in that case. `setAdapter(null)` removes every child when a layout manager is attached (see `SetAdapter`). The layout oracle given to `OnMeasure` is not constrained to agree.
- `SetAdapter`: super.setAdapter is taken to clear the children, which is what it does when a layout manager is attached. Its other internal bookkeeping (the recycled-view pool and the data-set-changed flags) is not modelled.

Behaviour of the code worth noting:
- The re-measure rule compares the container's laid-out height (`getHeight`), not its measured height, with the list's height. The container's measured height is only checked to be positive.
- A scroll under coordination issues nothing at all when the last rendered child has no holder.
- The velocity read degrades to 0 only for the two reflection failures it catches.
