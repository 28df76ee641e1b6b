/**
 * The parts of the Android view framework that the auto-measuring list and
 * the RecyclerView helpers read: measure specs, rectangles, rendered children,
 * adapters and the chain of parents above a view. Only the values the core
 * decides on are kept; the framework's own behaviour is not modelled.
 */
module Views {

  datatype Option<T> = None | Some(value: T)

  /** The mode half of an Android MeasureSpec. */
  datatype Mode = Unspecified | Exactly | AtMost

  /**
   * One axis of a layout constraint, as MeasureSpec.makeMeasureSpec(size, mode)
   * builds it and MeasureSpec.getSize reads it back. The framework packs both
   * halves into one int; that packing is not modelled, so a size is any nat.
   */
  datatype MeasureSpec = MeasureSpec(size: nat, mode: Mode)

  /** MeasureSpec.makeMeasureSpec(size, MeasureSpec.EXACTLY). */
  function Exact(size: nat): MeasureSpec {
    MeasureSpec(size, Exactly)
  }

  datatype Rect = Rect(left: int, top: int, right: int, bottom: int)

  /** What `new Rect()` holds: every edge at 0. */
  const EmptyRect := Rect(0, 0, 0, 0)

  /** RecyclerView.NO_POSITION. */
  const NoPosition := -1

  /**
   * A child view the list currently renders, as the core reads it:
   * whether it has a ViewHolder, that holder's adapter position, the view's
   * bottom edge (getBottom), its own vertical scroll offset (getScrollY) and
   * its bounds including item decorations and margins.
   */
  datatype ChildView = ChildView(
    hasViewHolder: bool,
    adapterPosition: int,
    bottom: int,
    scrollY: int,
    decoratedBounds: Rect)

  /** RecyclerView.getChildAdapterPosition: NO_POSITION when the child has no holder. */
  function ChildAdapterPosition(child: ChildView): int {
    if child.hasViewHolder then child.adapterPosition else NoPosition
  }

  /** An adapter, identified by `id` (object identity), holding `itemCount` items. */
  datatype Adapter = Adapter(id: nat, itemCount: nat)

  /** adapter.getItemCount(), with a null adapter read as holding nothing. */
  function ItemCount(adapter: Option<Adapter>): nat {
    if adapter.Some? then adapter.value.itemCount else 0
  }

  /** The ids of the adapters in `adapter`: none for null, one otherwise. */
  function AdapterIds(adapter: Option<Adapter>): set<nat> {
    if adapter.Some? then {adapter.value.id} else {}
  }

  /**
   * What the list reads of an enclosing PowerfulScrollView: its measured
   * height, its laid-out height, its scroll offset, whether it coordinates
   * this list (isCoordinatedWith) and the container-space offset of this
   * list's top edge (getCoordinatedTop, truncated to an int).
   */
  datatype Container = Container(
    measuredHeight: nat,
    height: int,
    scrollY: int,
    coordinatesList: bool,
    coordinatedTop: int)

  /** One link of the getParent() chain above the list: a PowerfulScrollView or any other parent. */
  datatype ViewParent = OtherParent | PowerfulScrollView(container: Container)

  predicate IsContainer(parent: ViewParent) {
    parent.PowerfulScrollView?
  }

  /** Math.max on ints. */
  function Max(a: int, b: int): int {
    if a >= b then a else b
  }
}
