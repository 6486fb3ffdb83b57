/**
  Pure geometry of the centered ("reel") layout: the dimensions derived from
  the host viewport, the clamped scroll target, the first rendered item and
  its top edge, the tiling of rendered children, the recycling span, the
  rounded selection and the transformer's center-offset ratio.

  Coordinates are Java `int` pixels, modelled as unbounded integers.
 */
module ReelGeometry {

  // ---------------------------------------------------------------------
  // Java arithmetic
  // ---------------------------------------------------------------------

  /** Java's `/` on `int` for a positive divisor: truncation toward zero. */
  function JavaDiv(a: int, b: int): int
    requires b > 0
  {
    if a >= 0 then a / b else -((-a) / b)
  }

  function Min(a: int, b: int): int { if a <= b then a else b }
  function Max(a: int, b: int): int { if a >= b then a else b }
  function Abs(a: int): int { if a >= 0 then a else -a }

  /** `Integer.MAX_VALUE` and `Integer.MIN_VALUE`, the results of casting an infinite float to `int`. */
  const IntMax: int := 0x7fff_ffff
  const IntMin: int := -0x8000_0000

  // ---------------------------------------------------------------------
  // Host and children
  // ---------------------------------------------------------------------

  /**
    What the layout manager reads from its host on each call: the padding and
    size of the list view, the adapter's item count, and the decorated
    measured height that every item (the items are homogeneous) reports.
   */
  datatype Host = Host(
    paddingLeft: nat, paddingTop: nat, paddingRight: nat, paddingBottom: nat,
    width: nat, height: nat,
    itemCount: nat,
    itemHeight: nat)
  {
    function ParentLeft(): int { paddingLeft }
    function ParentTop(): int { paddingTop }
    function ParentRight(): int { width - paddingRight }
    function ParentBottom(): int { height - paddingBottom }
  }

  /** An attached child: its adapter position and its decorated rectangle. */
  datatype Child = Child(index: nat, left: int, top: int, right: int, bottom: int)

  /** The inclusive intersection test of `recycle`. */
  predicate Hits(c: Child, host: Host)
  {
    && c.right >= host.ParentLeft()
    && c.left <= host.ParentRight()
    && c.bottom >= host.ParentTop()
    && c.top <= host.ParentBottom()
  }

  // ---------------------------------------------------------------------
  // Dimensions (calculateDimensions)
  // ---------------------------------------------------------------------

  /** The vertical center of the viewable area. */
  function CenterY(host: Host): int
  {
    JavaDiv(host.ParentTop() + host.ParentBottom(), 2)
  }

  /** Space above item 0 so that its center can reach `CenterY` at scroll 0. */
  function TopOffset(host: Host): int
  {
    CenterY(host) - host.itemHeight / 2
  }

  /** Space below the last item; together with the top offset it fills the view height less one (even) item. */
  function BottomOffset(host: Host): (b: int)
    ensures TopOffset(host) + b == host.height - 2 * (host.itemHeight / 2)
  {
    host.height - CenterY(host) - host.itemHeight / 2
  }

  /** The largest scroll position: offsets plus all items, less the view height. */
  function MaxScroll(host: Host): (m: int)
    ensures m == host.itemCount * host.itemHeight - 2 * (host.itemHeight / 2)
    ensures host.itemCount >= 1 ==> m >= 0
  {
    var m := TopOffset(host) + host.itemCount * host.itemHeight + BottomOffset(host) - host.height;
    assert host.itemCount >= 1 ==> host.itemCount * host.itemHeight >= host.itemHeight by {
      if host.itemCount >= 1 { MulMonotone(1, host.itemCount, host.itemHeight); }
    }
    m
  }

  lemma MulMonotone(a: int, b: int, h: nat)
    requires a <= b
    ensures a * h <= b * h
  {
    assert b * h - a * h == (b - a) * h;
  }

  /** Top edge, in view coordinates, of item `j` when the scroll position is `s`. */
  function ItemTop(j: int, s: int, t: int, h: nat): int
  {
    t - s + j * h
  }

  /**
    At scroll 0 item 0 is centered in the view; at the maximum scroll the last
    item's center sits `h % 2` pixels above the view center, because the
    maximum is computed with `h / 2` taken twice.
   */
  lemma ExtremesCentered(host: Host)
    requires host.itemCount >= 1
    requires CenterY(host) >= 1
    ensures
      var h, t := host.itemHeight, TopOffset(host);
      var top0 := ItemTop(0, 0, t, h);
      var topLast := ItemTop(host.itemCount - 1, MaxScroll(host), t, h);
      && JavaDiv(top0 + (top0 + h), 2) == CenterY(host)
      && JavaDiv(topLast + (topLast + h), 2) == CenterY(host) - h % 2
  {
    var h, t, n, c := host.itemHeight, TopOffset(host), host.itemCount, CenterY(host);
    var k := h / 2;
    assert h == 2 * k + h % 2;
    var topLast := ItemTop(n - 1, MaxScroll(host), t, h);
    assert (n - 1) * h == n * h - h;
    assert topLast == c - k - h % 2;
    assert topLast + (topLast + h) == 2 * c - h % 2;
  }

  // ---------------------------------------------------------------------
  // Scrolling (scrollVerticallyBy)
  // ---------------------------------------------------------------------

  /** `Math.min(Math.max(s + dy, 0), max)`: the scroll position after a request of `dy`. */
  function ScrollTarget(s: int, dy: int, max: int): (r: int)
    ensures max >= 0 ==> 0 <= r <= max
    ensures 0 <= s + dy <= max ==> r == s + dy
    ensures 0 <= max < s + dy ==> r == max
    ensures s + dy < 0 <= max ==> r == 0
    ensures 0 <= s <= max ==> (dy >= 0 ==> 0 <= r - s <= dy) && (dy <= 0 ==> dy <= r - s <= 0)
    ensures 0 <= s == max && dy > 0 ==> r == s
  {
    Min(Max(s + dy, 0), max)
  }

  // ---------------------------------------------------------------------
  // Rendering (render)
  // ---------------------------------------------------------------------

  /**
    The first rendered position. When the scroll position is past the top
    offset it is the item whose slab holds the view's top edge (clamped to
    the last item); otherwise it is item 0.
   */
  function FirstIndex(s: int, t: int, h: nat, n: nat): (i: nat)
    requires h > 0 || s < t
    requires n >= 1
    ensures i < n
    ensures s < t ==> i == 0
  {
    // both operands are non-negative here, so Euclidean and Java division agree
    if s >= t then Min((s - t) / h, n - 1) else 0
  }

  /** Unless clamped, the first index is the item whose slab `[i*h, i*h + h)` holds the view's top edge `s - t`. */
  lemma FirstIndexHoldsTopEdge(s: int, t: int, h: nat, n: nat)
    requires h > 0 && n >= 1
    requires t <= s < t + n * h
    ensures var i := FirstIndex(s, t, h, n); i * h <= s - t < i * h + h
  {
    var q := (s - t) / h;
    assert s - t == q * h + (s - t) % h;
    if q >= n {
      MulMonotone(n, q, h);
    }
  }

  /** The top edge of the first rendered item. */
  function FirstTop(s: int, t: int, h: nat): (top: int)
    requires h > 0 || s < t
    ensures s >= t ==> -(h as int) < top <= 0
    ensures s < t ==> top > 0
  {
    // both operands are non-negative here, so Euclidean and Java remainder agree
    if s >= t then -((s - t) % h) else t - s
  }

  /**
    The children the render loop places starting at position `i` with top
    edge `top`: each item `h` high, edge to edge, while the position is below
    `n` and the top edge is above `limit` (the parent bottom).
   */
  function Tiles(i: nat, top: int, h: nat, n: nat, limit: int, left: int, right: int): seq<Child>
    decreases n - i
  {
    if i < n && top < limit then
      [Child(i, left, top, right, top + h)] + Tiles(i + 1, top + h, h, n, limit, left, right)
    else
      []
  }

  /** Laying out one more item moves it from the pending tiles to the placed ones. */
  lemma TilesStep(placed: seq<Child>, i: nat, top: int, h: nat, n: nat, limit: int, left: int, right: int)
    requires i < n && top < limit
    ensures (placed + [Child(i, left, top, right, top + h)]) + Tiles(i + 1, top + h, h, n, limit, left, right)
            == placed + Tiles(i, top, h, n, limit, left, right)
  {
    var rest := Tiles(i + 1, top + h, h, n, limit, left, right);
    assert (placed + [Child(i, left, top, right, top + h)]) + rest == placed + ([Child(i, left, top, right, top + h)] + rest);
  }

  /** The rendered children: positions `i, i+1, …`, edge to edge, and the loop stops at the first failing test. */
  lemma {:induction false} TilesContiguous(i: nat, top: int, h: nat, n: nat, limit: int, left: int, right: int)
    ensures
      var cs := Tiles(i, top, h, n, limit, left, right);
      && i + |cs| <= Max(i, n)
      && (forall k :: 0 <= k < |cs| ==>
            && cs[k].index == i + k
            && cs[k].left == left && cs[k].right == right
            && cs[k].top == top + k * h
            && cs[k].bottom == cs[k].top + h
            && cs[k].index < n
            && cs[k].top < limit)
      && (forall k :: 0 <= k < |cs| - 1 ==> cs[k + 1].top == cs[k].bottom)
      && !(i + |cs| < n && top + |cs| * h < limit)
    decreases n - i
  {
    var cs := Tiles(i, top, h, n, limit, left, right);
    if i < n && top < limit {
      var rest := Tiles(i + 1, top + h, h, n, limit, left, right);
      TilesContiguous(i + 1, top + h, h, n, limit, left, right);
      assert cs == [Child(i, left, top, right, top + h)] + rest;
      forall k | 1 <= k < |cs|
        ensures cs[k].top == top + k * h
      {
        assert cs[k] == rest[k - 1];
        MulStep(k - 1, h);
      }
      MulStep(|rest|, h);
    }
  }

  /** The window rendered for scroll position `s`, top offset `t`, index height `hi` and item height `h`. */
  function Window(s: int, t: int, hi: nat, h: nat, host: Host): seq<Child>
    requires hi > 0 || s < t
    requires host.itemCount >= 1
  {
    Tiles(FirstIndex(s, t, hi, host.itemCount), FirstTop(s, t, hi), h, host.itemCount,
          host.ParentBottom(), host.ParentLeft(), host.ParentRight())
  }

  lemma ItemTopShift(j: int, m: int, s: int, t: int, h: nat)
    ensures ItemTop(j + m, s, t, h) == ItemTop(j, s, t, h) + m * h
  {
    assert (j + m) * h == j * h + m * h;
  }

  /** Unless the first index is clamped, the first rendered top edge is that item's own position. */
  lemma FirstTopAtItem(s: int, t: int, h: nat, n: nat)
    requires h > 0 && n >= 1
    requires s < t || s - t < n * h
    ensures FirstTop(s, t, h) == ItemTop(FirstIndex(s, t, h, n), s, t, h)
  {
    if s >= t {
      assert (s - t) / h < n by {
        if (s - t) / h >= n { MulMonotone(n, (s - t) / h, h); }
      }
      assert s - t == ((s - t) / h) * h + (s - t) % h;
    }
  }

  /**
    When the first index is not clamped, every rendered child sits at the
    item's own position `ItemTop`, and the rendered positions are exactly the
    items whose slab `[top, top + h)` meets the band `[0, parentBottom)`.
   */
  lemma RenderedWindowExact(s: int, t: int, h: nat, host: Host)
    requires h > 0 && host.itemCount >= 1
    requires s < t || s - t < host.itemCount * h
    ensures
      var n := host.itemCount;
      var f := FirstIndex(s, t, h, n);
      var cs := Window(s, t, h, h, host);
      && (forall k :: 0 <= k < |cs| ==> cs[k].top == ItemTop(cs[k].index, s, t, h))
      && (forall j :: 0 <= j < n ==>
            (f <= j < f + |cs| <==> InBand(ItemTop(j, s, t, h), h, host.ParentBottom())))
  {
    var n, pb := host.itemCount, host.ParentBottom();
    var f, top := FirstIndex(s, t, h, n), FirstTop(s, t, h);
    var cs := Window(s, t, h, h, host);
    TilesContiguous(f, top, h, n, pb, host.ParentLeft(), host.ParentRight());
    FirstTopAtItem(s, t, h, n);
    forall k | 0 <= k < |cs|
      ensures cs[k].top == ItemTop(cs[k].index, s, t, h)
    {
      ItemTopShift(f, k, s, t, h);
    }
    forall j | 0 <= j < n
      ensures f <= j < f + |cs| <==> InBand(ItemTop(j, s, t, h), h, pb)
    {
      if j < f {
        AboveBand(s, t, h, f, j);
        assert !InBand(ItemTop(j, s, t, h), h, pb);
      } else if j < f + |cs| {
        var k := j - f;
        MulMonotone(0, k, h);
        ItemTopShift(f, k, s, t, h);
        assert cs[k].top == top + k * h < pb;
        assert InBand(ItemTop(j, s, t, h), h, pb);
      } else {
        ItemTopShift(f, |cs|, s, t, h);
        MulMonotone(f + |cs|, j, h);
        assert top + |cs| * h >= pb;
        assert !InBand(ItemTop(j, s, t, h), h, pb);
      }
    }
  }

  /** Whether a slab of height `h` at `top` meets the band `[0, limit)`. */
  predicate InBand(top: int, h: nat, limit: int)
  {
    top < limit && top + h > 0
  }

  /** Items before the first rendered one lie wholly above the band. */
  lemma AboveBand(s: int, t: int, h: nat, f: nat, j: int)
    requires h > 0 && j < f
    requires -(h as int) < ItemTop(f, s, t, h) <= 0
    ensures ItemTop(j, s, t, h) + h <= 0
  {
    MulMonotone(j + 1, f, h);
    ItemTopShift(j, 1, s, t, h);
  }

  // ---------------------------------------------------------------------
  // Child transformer arguments
  // ---------------------------------------------------------------------

  /** A Java `float`, as far as the clamp needs it: a finite real or NaN. */
  datatype Ratio = Finite(value: real) | NaN

  /** The arguments of one `onApplyTransform` call (the view itself is left out). */
  datatype TransformCall = TransformCall(index: nat, screenPosition: int, centerOffset: Ratio)

  function ClampUnit(x: real): real
  {
    if x < -1.0 then -1.0 else if x > 1.0 then 1.0 else x
  }

  /**
    `min(max((childCenterY - centerY) / centerY, -1), 1)` in float: a zero
    `centerY` gives an infinity (clamped to ±1) or, for a zero offset, NaN.
   */
  function CenterOffsetRatio(childCenterY: int, centerY: int): Ratio
  {
    var offset := childCenterY - centerY;
    if centerY == 0 then
      (if offset > 0 then Finite(1.0) else if offset < 0 then Finite(-1.0) else NaN)
    else
      Finite(ClampUnit(offset as real / centerY as real))
  }

  /**
    The ratio is finite and within [-1, 1], or NaN exactly for `0/0`; when
    the offset is no larger than the view center it is the plain quotient.
   */
  lemma CenterOffsetRatioRange(childCenterY: int, centerY: int)
    ensures var q := CenterOffsetRatio(childCenterY, centerY);
            && (q.Finite? ==> -1.0 <= q.value <= 1.0)
            && (q.NaN? <==> centerY == 0 && childCenterY == 0)
            && (centerY != 0 && Abs(childCenterY - centerY) <= Abs(centerY) ==>
                  q == Finite((childCenterY - centerY) as real / centerY as real))
  {
    var offset := childCenterY - centerY;
    if centerY > 0 && Abs(offset) <= centerY {
      QuotientWithinUnit(offset as real, centerY as real);
    } else if centerY < 0 && Abs(offset) <= -centerY {
      QuotientWithinUnit(-offset as real, -centerY as real);
      assert offset as real / centerY as real == (-offset as real) / (-centerY as real);
    }
  }

  lemma QuotientWithinUnit(a: real, c: real)
    requires c > 0.0 && -c <= a <= c
    ensures -1.0 <= a / c <= 1.0
  {
    assert (a / c) * c == a;
  }

  /** The transformer call for child `c` of a window whose first position is `first`. */
  function CallFor(c: Child, first: int, centerY: int): TransformCall
  {
    TransformCall(c.index, c.index - first, CenterOffsetRatio(JavaDiv(c.top + c.bottom, 2), centerY))
  }

  /** The transformer calls made while rendering `cs`, the first of which is position `first`. */
  function TransformCalls(cs: seq<Child>, first: int, centerY: int): seq<TransformCall>
  {
    if cs == [] then []
    else [CallFor(cs[0], first, centerY)] + TransformCalls(cs[1..], first, centerY)
  }

  /** Rendering one more child makes one more call, at the end. */
  lemma {:induction false} TransformCallsSnoc(cs: seq<Child>, c: Child, first: int, centerY: int)
    ensures TransformCalls(cs + [c], first, centerY) == TransformCalls(cs, first, centerY) + [CallFor(c, first, centerY)]
  {
    if cs == [] {
      assert [] + [c] == [c];
    } else {
      assert (cs + [c])[1..] == cs[1..] + [c];
      TransformCallsSnoc(cs[1..], c, first, centerY);
    }
  }

  /**
    Every transformer call names the child's position, its slot on screen
    (0, 1, 2, … in placement order) and a ratio within [-1, 1], or NaN when
    the view center is 0 and so is the child's center.
   */
  lemma {:induction false} TransformArguments(cs: seq<Child>, first: int, centerY: int)
    requires forall k :: 0 <= k < |cs| ==> cs[k].index == first + k
    ensures
      var calls := TransformCalls(cs, first, centerY);
      && |calls| == |cs|
      && forall k :: 0 <= k < |calls| ==>
           && calls[k].index == cs[k].index
           && calls[k].screenPosition == k
           && (calls[k].centerOffset.Finite? ==> -1.0 <= calls[k].centerOffset.value <= 1.0)
           && (calls[k].centerOffset.NaN? ==> centerY == 0)
  {
    if cs != [] {
      forall k | 0 <= k < |cs| - 1
        ensures cs[1..][k].index == (first + 1) + k
      {
        assert cs[1..][k] == cs[k + 1];
      }
      TransformArguments(cs[1..], first + 1, centerY);
      var tail := TransformCalls(cs[1..], first, centerY);
      assert TransformCalls(cs[1..], first + 1, centerY) == ShiftSlots(tail, 1) by {
        TransformCallsShift(cs[1..], first, 1, centerY);
      }
      forall k | 0 <= k < |tail|
        ensures tail[k].screenPosition == k + 1
      {
        assert ShiftSlots(tail, 1)[k].screenPosition == k;
      }
    }
  }

  /** The calls with every screen position lowered by `d`. */
  function ShiftSlots(calls: seq<TransformCall>, d: int): (r: seq<TransformCall>)
    ensures |r| == |calls|
    ensures forall k :: 0 <= k < |r| ==>
              r[k] == calls[k].(screenPosition := calls[k].screenPosition - d)
  {
    if calls == [] then []
    else [calls[0].(screenPosition := calls[0].screenPosition - d)] + ShiftSlots(calls[1..], d)
  }

  lemma {:induction false} TransformCallsShift(cs: seq<Child>, first: int, d: int, centerY: int)
    ensures TransformCalls(cs, first + d, centerY) == ShiftSlots(TransformCalls(cs, first, centerY), d)
  {
    if cs != [] {
      TransformCallsShift(cs[1..], first, d, centerY);
    }
  }

  // ---------------------------------------------------------------------
  // Recycling (recycle)
  // ---------------------------------------------------------------------

  /** The position of the first child that meets the viewport, or `|cs|` if none does. */
  function FirstHit(cs: seq<Child>, host: Host): (f: nat)
    ensures f <= |cs|
    ensures f < |cs| ==> Hits(cs[f], host)
    ensures forall j :: 0 <= j < f ==> !Hits(cs[j], host)
  {
    if cs == [] then 0
    else if Hits(cs[0], host) then 0
    else 1 + FirstHit(cs[1..], host)
  }

  /** The position of the last child that meets the viewport, or -1 if none does. */
  function LastHit(cs: seq<Child>, host: Host): (l: int)
    ensures -1 <= l < |cs|
    ensures l >= 0 ==> Hits(cs[l], host)
    ensures forall j :: l < j < |cs| ==> !Hits(cs[j], host)
  {
    if cs == [] then -1
    else if Hits(cs[|cs| - 1], host) then |cs| - 1
    else LastHit(cs[..|cs| - 1], host)
  }

  /** `first` and `last` as `recycle` computes them: 0 when no child meets the viewport. */
  function SpanFirst(cs: seq<Child>, host: Host): (f: nat)
    ensures (exists p :: 0 <= p < |cs| && Hits(cs[p], host)) ==>
              f < |cs| && Hits(cs[f], host) && forall j :: 0 <= j < f ==> !Hits(cs[j], host)
    ensures (forall p :: 0 <= p < |cs| ==> !Hits(cs[p], host)) ==> f == 0
  {
    if FirstHit(cs, host) < |cs| then FirstHit(cs, host) else 0
  }

  function SpanLast(cs: seq<Child>, host: Host): (l: nat)
    ensures (exists p :: 0 <= p < |cs| && Hits(cs[p], host)) ==>
              l < |cs| && Hits(cs[l], host) && forall j :: l < j < |cs| ==> !Hits(cs[j], host)
    ensures (forall p :: 0 <= p < |cs| ==> !Hits(cs[p], host)) ==> l == 0
  {
    if LastHit(cs, host) >= 0 then LastHit(cs, host) else 0
  }

  /** The children `recycle` keeps: positions `first..last`, or child 0 when none meets the viewport. */
  function Recycled(cs: seq<Child>, host: Host): seq<Child>
  {
    if cs == [] then []
    else cs[SpanFirst(cs, host)..SpanLast(cs, host) + 1]
  }

  /** Some child at or before position `j` meets the viewport. */
  predicate HitAtOrBefore(cs: seq<Child>, host: Host, j: int)
  {
    exists p :: 0 <= p <= j && p < |cs| && Hits(cs[p], host)
  }

  /** Some child at or after position `j` meets the viewport. */
  predicate HitAtOrAfter(cs: seq<Child>, host: Host, j: int)
  {
    exists q :: 0 <= j <= q < |cs| && Hits(cs[q], host)
  }

  /**
    A child survives `recycle` iff it lies between (inclusively) the first and
    the last child that meet the viewport; every child that meets it survives;
    when none does, only child 0 survives.
   */
  lemma RecycleKeepsSpan(cs: seq<Child>, host: Host)
    ensures
      var kept, f, l := Recycled(cs, host), SpanFirst(cs, host), SpanLast(cs, host);
      && ((exists p :: 0 <= p < |cs| && Hits(cs[p], host)) ==>
            && f <= l < |cs|
            && kept == cs[f..l + 1]
            && Hits(kept[0], host) && Hits(kept[|kept| - 1], host)
            && (forall j :: 0 <= j < |cs| ==>
                  (f <= j <= l <==> HitAtOrBefore(cs, host, j) && HitAtOrAfter(cs, host, j))))
      && ((forall p :: 0 <= p < |cs| ==> !Hits(cs[p], host)) ==>
            kept == if |cs| == 0 then [] else [cs[0]])
  {
    var f, l := SpanFirst(cs, host), SpanLast(cs, host);
    if p :| 0 <= p < |cs| && Hits(cs[p], host) {
      assert FirstHit(cs, host) <= p <= LastHit(cs, host);
      forall j | 0 <= j < |cs|
        ensures f <= j <= l <==> HitAtOrBefore(cs, host, j) && HitAtOrAfter(cs, host, j)
      {
        if f <= j <= l {
          assert Hits(cs[f], host) && Hits(cs[l], host);
        }
      }
    }
  }

  // ---------------------------------------------------------------------
  // Selection (getSelection)
  // ---------------------------------------------------------------------

  /**
    `(int) ((float) s / h + 0.5f)`: round half up of `s / h`, truncated toward
    zero. For `h == 0` the float quotient is an infinity or NaN, whose cast
    gives `Integer.MAX_VALUE`, `Integer.MIN_VALUE` or 0.
   */
  function Selection(s: int, h: nat): (sel: int)
    ensures h > 0 && s >= 0 ==> sel >= 0 && 2 * sel * h <= 2 * s + h < 2 * (sel + 1) * h
    ensures h == 0 ==> sel == (if s > 0 then IntMax else if s < 0 then IntMin else 0)
  {
    if h == 0 then (if s > 0 then IntMax else if s < 0 then IntMin else 0)
    else JavaDiv(2 * s + h, 2 * h)
  }

  /** The boundary cases of round half up for 40-pixel items. */
  lemma SelectionExamples()
    ensures Selection(59, 40) == 1
    ensures Selection(60, 40) == 2
    ensures Selection(19, 40) == 0 && Selection(20, 40) == 1
  {
  }

  /** The selected item's top lies less than half an item above, or at most half an item below, the scroll position. */
  lemma SelectionBand(s: int, h: nat)
    requires h > 0 && s >= 0
    ensures -(h as int) < 2 * (Selection(s, h) * h - s) <= h
  {
    var q := Selection(s, h);
    assert 2 * q * h == 2 * (q * h);
    assert 2 * (q + 1) * h == 2 * (q * h) + 2 * h;
  }

  /** The selection is the item whose center is nearest the view center (ties go to the later item). */
  lemma SelectionIsNearest(s: int, h: nat, j: int)
    requires h > 0 && s >= 0
    ensures Abs(Selection(s, h) * h - s) <= Abs(j * h - s)
    ensures Abs(Selection(s, h) * h - s) == Abs(j * h - s) ==> j <= Selection(s, h)
  {
    var q := Selection(s, h);
    SelectionBand(s, h);
    var d, e := q * h - s, j * h - s;
    if j > q {
      MulMonotone(q + 1, j, h);
      MulStep(q, h);
      assert e >= d + h;
    } else if j < q {
      MulMonotone(j, q - 1, h);
      MulStep(q - 1, h);
      assert e <= d - h;
    }
  }

  lemma MulStep(a: int, h: nat)
    ensures (a + 1) * h == a * h + h
  {
  }
}
