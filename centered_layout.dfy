/**
  The centered ("reel") layout manager: a vertical list whose scroll range is
  padded so that every item's center can be brought to the view's center,
  which renders only the items in view, recycles the rest, applies an
  optional per-child transform and reports the settled selection.

  The host framework is reduced to a `Host` value passed to each call; the
  attached children are a sequence of rectangles; the listeners are a set of
  identities, and every listener call is recorded in a trace.
 */
module CenteredLayout {
  import opened ReelGeometry

  /** The identity of a registered `OnSelectionChangedListener`. */
  type ListenerId = nat

  /** One `onSelectionChanged(previousSelection, newSelection)` call on one listener. */
  datatype Notification = Notification(listener: ListenerId, previousSelection: int, newSelection: int)

  /** How a layout step ended: normally, or by the `ArithmeticException` of an integer division by zero. */
  datatype Outcome = Completed | ArithmeticException

  /** `RecyclerView.SCROLL_STATE_IDLE`. */
  const ScrollStateIdle: int := 0

  /** A batch of calls that notifies each listener of `ls` exactly once, all with `(prev, cur)`. */
  predicate NotifiesAll(batch: seq<Notification>, ls: set<ListenerId>, prev: int, cur: int)
  {
    && |batch| == |ls|
    && (forall k :: 0 <= k < |batch| ==>
          batch[k].listener in ls && batch[k].previousSelection == prev && batch[k].newSelection == cur)
    && (forall k, m :: 0 <= k < m < |batch| ==> batch[k].listener != batch[m].listener)
    && (forall l :: l in ls ==> exists k :: 0 <= k < |batch| && batch[k].listener == l)
  }

  /**
    The first loop of `recycle`: the positions of the first and the last
    child that meet the viewport, both 0 when none does.
   */
  method ScanVisible(cs: seq<Child>, host: Host) returns (first: nat, last: nat)
    ensures first == SpanFirst(cs, host) && last == SpanLast(cs, host)
    ensures (exists p :: 0 <= p < |cs| && Hits(cs[p], host)) ==>
              first <= last < |cs| && Hits(cs[first], host) && Hits(cs[last], host)
  {
    var foundFirst := false;
    first, last := 0, 0;
    var i := 0;
    while i < |cs|
      invariant 0 <= i <= |cs|
      invariant foundFirst ==>
                  && first <= last < i
                  && Hits(cs[first], host) && Hits(cs[last], host)
                  && (forall j :: 0 <= j < first ==> !Hits(cs[j], host))
                  && (forall j :: last < j < i ==> !Hits(cs[j], host))
      invariant !foundFirst ==>
                  first == 0 && last == 0 && forall j :: 0 <= j < i ==> !Hits(cs[j], host)
    {
      if Hits(cs[i], host) {
        if !foundFirst {
          first := i;
          foundFirst := true;
        }
        last := i;
      }
      i := i + 1;
    }
    if foundFirst {
      // the scan and the reference functions agree on the first and last hits
      assert FirstHit(cs, host) == first;
      assert LastHit(cs, host) == last;
    }
  }

  /** Notifying one more listener `l` extends a batch for `done` to one for `done + {l}`. */
  lemma NotifiesAllExtend(batch: seq<Notification>, done: set<ListenerId>, l: ListenerId, prev: int, cur: int)
    requires NotifiesAll(batch, done, prev, cur)
    requires l !in done
    ensures NotifiesAll(batch + [Notification(l, prev, cur)], done + {l}, prev, cur)
  {
    var longer := batch + [Notification(l, prev, cur)];
    forall l' | l' in done + {l}
      ensures exists k :: 0 <= k < |longer| && longer[k].listener == l'
    {
      if l' == l {
        assert longer[|batch|].listener == l;
      } else {
        var k :| 0 <= k < |batch| && batch[k].listener == l';
        assert longer[k].listener == l';
      }
    }
  }

  /** Appending in two steps is appending once. */
  lemma AppendAssociative<T>(a: seq<T>, b: seq<T>, c: seq<T>)
    ensures (a + b) + c == a + (b + c)
  {
  }

  /** One turn of the notifying loop: the listener taken from the pending ones joins the notified ones. */
  lemma NotifyStep(batch: seq<Notification>, ls: set<ListenerId>, pending: set<ListenerId>, l: ListenerId, prev: int, cur: int)
    requires pending <= ls && l in pending
    requires NotifiesAll(batch, ls - pending, prev, cur)
    ensures pending - {l} <= ls
    ensures NotifiesAll(batch + [Notification(l, prev, cur)], ls - (pending - {l}), prev, cur)
  {
    NotifiesAllExtend(batch, ls - pending, l, prev, cur);
    assert ls - (pending - {l}) == (ls - pending) + {l};
  }

  class CenteredLayoutManager {
    /** The registered selection listeners (a `HashSet`). */
    var listeners: set<ListenerId>
    /** The absolute scroll position. */
    var scrollY: int
    /** The largest scroll position reachable. */
    var maxScrollY: int
    /** The height of each child, sampled from child 0. */
    var childHeight: nat
    var topOffset: int
    var bottomOffset: int
    /** The vertical center of the viewable area. */
    var centerY: int
    /** The last selection reported to the listeners (-1 before the first report). */
    var previousSelection: int
    /** Whether a `ChildTransformer` is installed. */
    var hasTransformer: bool
    /** The attached children, in attach order. */
    var children: seq<Child>
    /** Every `onApplyTransform` call made so far. */
    var transforms: seq<TransformCall>
    /** Every `onSelectionChanged` call made so far. */
    var notifications: seq<Notification>

    /** The scroll position stays within `[0, maxScrollY]`. */
    ghost predicate Valid()
      reads this
    {
      0 <= scrollY <= maxScrollY
    }

    constructor ()
      ensures Valid()
      ensures listeners == {} && previousSelection == -1
      ensures scrollY == 0 && maxScrollY == 0 && childHeight == 0
      ensures topOffset == 0 && bottomOffset == 0 && centerY == 0
      ensures !hasTransformer && children == [] && transforms == [] && notifications == []
    {
      listeners := {};
      previousSelection := -1;
      scrollY, maxScrollY, childHeight := 0, 0, 0;
      topOffset, bottomOffset, centerY := 0, 0, 0;
      hasTransformer := false;
      children, transforms, notifications := [], [], [];
    }

    /** `setChildTransformer`: installs (`true`) or removes (`false`) the transformer. */
    method SetChildTransformer(present: bool)
      modifies this`hasTransformer
      ensures hasTransformer == present
    {
      hasTransformer := present;
    }

    /** Adds a listener; adding one already present leaves the set as it was. */
    method AddOnSelectionChangedListener(l: ListenerId)
      modifies this`listeners
      ensures listeners == old(listeners) + {l}
      ensures old(l in listeners) ==> listeners == old(listeners)
    {
      listeners := listeners + {l};
    }

    method RemoveOnSelectionChangedListener(l: ListenerId)
      modifies this`listeners
      ensures listeners == old(listeners) - {l}
      ensures l !in listeners
    {
      listeners := listeners - {l};
    }

    /** `getSelection`: the scroll position divided by the child height, rounded half up. */
    function GetSelection(): (sel: int)
      reads this
      ensures Valid() && childHeight > 0 ==> sel >= 0
    {
      Selection(scrollY, childHeight)
    }

    /** `detachAllViews`: every attached child goes to the scrap heap. */
    method DetachAllViews()
      modifies this`children
      ensures children == []
    {
      if |children| > 0 {
        children := [];
      }
    }

    /** `calculateDimensions`: samples the child height and derives the offsets and the scroll range. */
    method CalculateDimensions(host: Host)
      requires host.itemCount >= 1
      requires Valid()
      modifies this`centerY, this`childHeight, this`topOffset, this`bottomOffset, this`maxScrollY, this`scrollY
      ensures Valid()
      ensures centerY == CenterY(host) && childHeight == host.itemHeight
      ensures topOffset == TopOffset(host) && bottomOffset == BottomOffset(host)
      ensures maxScrollY == MaxScroll(host)
      ensures scrollY == Min(maxScrollY, old(scrollY)) && scrollY <= old(scrollY)
    {
      centerY := JavaDiv(host.ParentTop() + host.ParentBottom(), 2);
      childHeight := host.itemHeight;
      var halfChildHeight := childHeight / 2;
      topOffset := centerY - halfChildHeight;
      bottomOffset := host.height - centerY - halfChildHeight;
      maxScrollY := topOffset + host.itemCount * childHeight + bottomOffset - host.height;
      assert maxScrollY == MaxScroll(host);
      scrollY := Min(maxScrollY, scrollY);
    }

    /**
      `render`: places the items from the first visible one downward, edge to
      edge, until the parent bottom or the last item is passed, and calls the
      transformer on each.
     */
    method Render(host: Host) returns (outcome: Outcome)
      modifies this`children, this`transforms
      ensures host.itemCount == 0 ==>
                outcome == Completed && children == old(children) && transforms == old(transforms)
      ensures host.itemCount >= 1 && childHeight == 0 && scrollY >= topOffset ==>
                outcome == ArithmeticException && children == old(children) && transforms == old(transforms)
      ensures host.itemCount >= 1 && (childHeight > 0 || scrollY < topOffset) ==>
                var rendered := Window(scrollY, topOffset, childHeight, host.itemHeight, host);
                var first := FirstIndex(scrollY, topOffset, childHeight, host.itemCount);
                && outcome == Completed
                && children == old(children) + rendered
                && transforms == old(transforms) + (if hasTransformer then TransformCalls(rendered, first, centerY) else [])
    {
      var n := host.itemCount;
      if n == 0 {
        return Completed;
      }
      if scrollY >= topOffset && childHeight == 0 {
        return ArithmeticException;
      }
      var firstIndex := FirstIndex(scrollY, topOffset, childHeight, n);
      var firstTop := FirstTop(scrollY, topOffset, childHeight);
      LayOutFrom(firstIndex, firstTop, host);
      outcome := Completed;
    }

    /**
      The loop of `render`: lays out item after item from `firstIndex`, whose
      top edge is at `firstTop`, until the items run out or the next top edge
      is at or below the parent's bottom edge.
     */
    method LayOutFrom(firstIndex: nat, firstTop: int, host: Host)
      modifies this`children, this`transforms
      ensures var placed := Tiles(firstIndex, firstTop, host.itemHeight, host.itemCount, host.ParentBottom(), host.ParentLeft(), host.ParentRight());
              && children == old(children) + placed
              && transforms == old(transforms) + (if hasTransformer then TransformCalls(placed, firstIndex, centerY) else [])
    {
      var n, h := host.itemCount, host.itemHeight;
      var l, r, pb := host.ParentLeft(), host.ParentRight(), host.ParentBottom();
      var withTransformer, cy := hasTransformer, centerY;
      ghost var children0, transforms0 := children, transforms;
      ghost var all := Tiles(firstIndex, firstTop, h, n, pb, l, r);
      ghost var placed: seq<Child> := [];
      var i, top := firstIndex, firstTop;
      while i < n && top < pb
        invariant firstIndex <= i
        invariant children == children0 + placed
        invariant placed + Tiles(i, top, h, n, pb, l, r) == all
        invariant withTransformer ==> transforms == transforms0 + TransformCalls(placed, firstIndex, cy)
        invariant !withTransformer ==> transforms == transforms0
        decreases n as int - i
      {
        var bottom := top + h;
        var child := Child(i, l, top, r, bottom);
        TilesStep(placed, i, top, h, n, pb, l, r);
        AppendAssociative(children0, placed, [child]);
        children := children + [child];
        if withTransformer {
          // transform(child, i - firstIndex, ratio of the child's center offset)
          var call := CallFor(child, firstIndex, cy);
          TransformCallsSnoc(placed, child, firstIndex, cy);
          AppendAssociative(transforms0, TransformCalls(placed, firstIndex, cy), [call]);
          transforms := transforms + [call];
        }
        placed := placed + [child];
        i, top := i + 1, bottom;
      }
      assert Tiles(i, top, h, n, pb, l, r) == [];
      assert placed == all;
    }

    /**
      `recycle`: removes, last first, the children after the last one that
      meets the viewport, then those before the first one.
     */
    method Recycle(host: Host)
      modifies this`children
      ensures children == Recycled(old(children), host)
    {
      var first, last := ScanVisible(children, host);
      RemoveAfter(last);
      RemoveBefore(first);
    }

    /** The second loop of `recycle`: removes, last first, every child after position `last`. */
    method RemoveAfter(last: nat)
      modifies this`children
      ensures children == old(children)[..Min(last + 1, |old(children)|)]
    {
      ghost var cs := children;
      var i: int := |children| - 1;
      while i > last
        invariant Min(last, |cs| - 1) <= i < |cs|
        invariant children == cs[..i + 1]
      {
        assert children[..i] + children[i + 1..] == cs[..i];
        children := children[..i] + children[i + 1..];
        i := i - 1;
      }
    }

    /** The third loop of `recycle`: removes, last first, every child before position `first`. */
    method RemoveBefore(first: nat)
      requires first <= |children|
      modifies this`children
      ensures children == old(children)[first..]
    {
      ghost var cs := children;
      var i: int := first as int - 1;
      while i >= 0
        invariant -1 <= i < first
        invariant children == cs[..i + 1] + cs[first..]
      {
        assert children[..i] + children[i + 1..] == cs[..i] + cs[first..];
        children := children[..i] + children[i + 1..];
        i := i - 1;
      }
      assert cs[..0] == [];
    }

    /** `onLayoutChildren`: scraps the children and, when there are items, lays them out afresh. */
    method OnLayoutChildren(host: Host) returns (outcome: Outcome)
      requires Valid()
      modifies this`children, this`transforms, this`centerY, this`childHeight, this`topOffset,
               this`bottomOffset, this`maxScrollY, this`scrollY
      ensures Valid()
      ensures host.itemCount == 0 ==>
                && outcome == Completed && children == [] && transforms == old(transforms)
                && scrollY == old(scrollY) && maxScrollY == old(maxScrollY) && childHeight == old(childHeight)
                && topOffset == old(topOffset) && bottomOffset == old(bottomOffset) && centerY == old(centerY)
      ensures host.itemCount >= 1 ==>
                && centerY == CenterY(host) && childHeight == host.itemHeight
                && topOffset == TopOffset(host) && bottomOffset == BottomOffset(host)
                && maxScrollY == MaxScroll(host) && scrollY == Min(maxScrollY, old(scrollY))
                && (outcome == ArithmeticException <==> childHeight == 0 && scrollY >= topOffset)
                && (outcome == ArithmeticException ==> children == [] && transforms == old(transforms))
      ensures host.itemCount >= 1 && outcome == Completed ==>
                var rendered := Window(scrollY, topOffset, childHeight, host.itemHeight, host);
                var first := FirstIndex(scrollY, topOffset, childHeight, host.itemCount);
                && children == Recycled(rendered, host)
                && transforms == old(transforms) + (if hasTransformer then TransformCalls(rendered, first, centerY) else [])
    {
      DetachAllViews();
      outcome := Completed;
      if host.itemCount != 0 {
        CalculateDimensions(host);
        ghost var transforms0 := transforms;
        outcome := Render(host);
        if outcome == Completed {
          ghost var rendered := Window(scrollY, topOffset, childHeight, host.itemHeight, host);
          ghost var first := FirstIndex(scrollY, topOffset, childHeight, host.itemCount);
          assert children == [] + rendered == rendered;
          assert transforms == transforms0 + (if hasTransformer then TransformCalls(rendered, first, centerY) else []);
          Recycle(host);
          assert children == Recycled(rendered, host);
        }
      }
    }

    /**
      `scrollVerticallyBy`: with at least two items, moves the scroll position
      by `dy` clamped to `[0, maxScrollY]`, lays the children out again and
      returns the distance actually scrolled; with fewer, does nothing.
     */
    method ScrollVerticallyBy(dy: int, host: Host) returns (consumed: int, outcome: Outcome)
      requires Valid()
      modifies this`scrollY, this`children, this`transforms
      ensures Valid()
      ensures host.itemCount < 2 ==>
                && consumed == 0 && outcome == Completed
                && scrollY == old(scrollY) && children == old(children) && transforms == old(transforms)
      ensures host.itemCount >= 2 ==>
                && scrollY == ScrollTarget(old(scrollY), dy, maxScrollY)
                && (outcome == ArithmeticException <==> childHeight == 0 && scrollY >= topOffset)
                && (outcome == ArithmeticException ==> children == [] && transforms == old(transforms))
      ensures host.itemCount >= 2 && outcome == Completed ==>
                var rendered := Window(scrollY, topOffset, childHeight, host.itemHeight, host);
                var first := FirstIndex(scrollY, topOffset, childHeight, host.itemCount);
                && consumed == scrollY - old(scrollY)
                && children == Recycled(rendered, host)
                && transforms == old(transforms) + (if hasTransformer then TransformCalls(rendered, first, centerY) else [])
    {
      if host.itemCount < 2 {
        return 0, Completed;
      }
      var lastScrollY := scrollY;
      scrollY := Min(Max(scrollY + dy, 0), maxScrollY);
      assert scrollY == ScrollTarget(lastScrollY, dy, maxScrollY);
      DetachAllViews();
      ghost var transforms0 := transforms;
      outcome := Render(host);
      if outcome == ArithmeticException {
        return 0, outcome;
      }
      ghost var rendered := Window(scrollY, topOffset, childHeight, host.itemHeight, host);
      ghost var first := FirstIndex(scrollY, topOffset, childHeight, host.itemCount);
      assert children == [] + rendered == rendered;
      assert transforms == transforms0 + (if hasTransformer then TransformCalls(rendered, first, centerY) else []);
      Recycle(host);
      assert children == Recycled(rendered, host);
      consumed := scrollY - lastScrollY;
    }

    /**
      `onScrollStateChanged`: when the scroll settles (IDLE) and the selection
      differs from the last one reported, every listener is called once with
      `(previous, new)` and the new selection is remembered.
     */
    method OnScrollStateChanged(state: int)
      requires Valid()
      modifies this`previousSelection, this`notifications
      ensures Valid()
      ensures state != ScrollStateIdle ==>
                previousSelection == old(previousSelection) && notifications == old(notifications)
      ensures state == ScrollStateIdle ==> previousSelection == GetSelection()
      ensures state == ScrollStateIdle && old(previousSelection) == GetSelection() ==>
                notifications == old(notifications)
      ensures state == ScrollStateIdle && old(previousSelection) != GetSelection() ==>
                && |old(notifications)| <= |notifications|
                && notifications[..|old(notifications)|] == old(notifications)
                && NotifiesAll(notifications[|old(notifications)|..], listeners, old(previousSelection), GetSelection())
    {
      if state == ScrollStateIdle {
        var newSelection := GetSelection();
        if newSelection != previousSelection {
          NotifyListeners(previousSelection, newSelection);
          // remembered for the next IDLE notification
          previousSelection := newSelection;
        }
      }
    }

    /** The `for` loop of `onScrollStateChanged`: calls every listener once, in the set's iteration order. */
    method NotifyListeners(prev: int, cur: int)
      modifies this`notifications
      ensures |old(notifications)| <= |notifications|
      ensures notifications[..|old(notifications)|] == old(notifications)
      ensures NotifiesAll(notifications[|old(notifications)|..], listeners, prev, cur)
    {
      var ls := listeners;
      ghost var notifications0 := notifications;
      ghost var batch: seq<Notification> := [];
      var pending := ls;
      while pending != {}
        invariant pending <= ls
        invariant notifications == notifications0 + batch
        invariant NotifiesAll(batch, ls - pending, prev, cur)
        decreases |pending|
      {
        var l :| l in pending;
        NotifyStep(batch, ls, pending, l, prev, cur);
        var call := Notification(l, prev, cur);
        notifications := notifications + [call];
        batch := batch + [call];
        pending := pending - {l};
      }
      assert ls - pending == ls;
      assert notifications[|notifications0|..] == batch;
    }

    /** Two IDLE notifications in a row: the second one calls no listener. */
    method IdleTwice()
      requires Valid()
      modifies this`previousSelection, this`notifications
      ensures Valid()
      ensures previousSelection == GetSelection()
      ensures old(previousSelection) == GetSelection() ==> notifications == old(notifications)
      ensures old(previousSelection) != GetSelection() ==>
                && |old(notifications)| + |listeners| == |notifications|
                && NotifiesAll(notifications[|old(notifications)|..], listeners, old(previousSelection), GetSelection())
    {
      OnScrollStateChanged(ScrollStateIdle);
      ghost var afterFirst := notifications;
      OnScrollStateChanged(ScrollStateIdle);
      assert notifications == afterFirst;
    }
  }
}
