# Reel layout and word query, modelled in Dafny

This project models the two pieces of the reel-search Android project that hold logic:

- `CenteredLayoutManager`, the vertical "reel" layout. It pads the scroll range so that every item's center can be brought to the view's center. It renders only the items in view, recycles the attached children that are out of view, calls an optional child transformer with each child's offset from the center, and tells its listeners when the settled selection changes.
- `DictionaryManager`, the word list behind the suggestions. Loading replaces the list with the resource's lines, lowercased. A query returns the stored words that start with a prefix.

Files:

- `reel_geometry.dfy` (module `ReelGeometry`) holds the pure arithmetic of the layout and the lemmas about it. This covers the dimensions, the clamped scroll target, the first rendered index and its top edge, the tiling the render loop produces, the span `recycle` keeps, the rounded selection, and the transformer's ratio.
- `centered_layout.dfy` (module `CenteredLayout`) holds class `CenteredLayoutManager`, with the source's fields and one method per source method:
  - The `render` loop, the `recycle` scan and removal loops, and the listener loop are `while` loops with invariants. Each loop is a method of its own (`LayOutFrom`, `ScanVisible`, `RemoveAfter`, `RemoveBefore`, `NotifyListeners`), called by the method that holds it in the source.
  - Each method is proved against the functions of `ReelGeometry`.
- `dictionary.dfy` (module `Dictionary`) holds class `DictionaryManager`. Its load method has a loop. It also has the lowercasing, the prefix filter, and the lemmas about them.

How the host is modelled:

- Each call gets a `Host` value. It carries the padding, the width and height, the adapter's item count, and the decorated height that every item measures to (the items all have the same height).
- The attached children are a `seq<Child>` of rectangles with their adapter positions.
- Each transformer call is recorded as a `TransformCall` in a trace.
- Listeners are a set of identities. Each `onSelectionChanged` call is recorded as a `Notification` in a trace.
- `getSelection` is the class function `GetSelection`, defined by `Selection`.
- `isLoaded` is the class function `IsLoaded`.

Three behaviours of the code worth noting:

- The selection is not clamped to `[0, N-1]`, and there is no -1 sentinel before layout. `getSelection` divides by the child height as it stands. A zero height gives the float results `Integer.MAX_VALUE`, `Integer.MIN_VALUE` or 0.
- A zero child height does not make `render` a no-op. When the scroll position is at or past the top offset, `render` divides by zero. The model returns `ArithmeticException` for that case.
- The query is case-sensitive. The stored words are lowercased, but the prefix is passed as given. Lowercasing the typed text is the job of the input filter in `SuggestionsActivity.java`, which is not part of this model.

## Model

| member | source | states |
|---|---|---|
| `ReelGeometry.Host.ParentLeft` | library/src/main/java/com/suhel/library/CenteredLayoutManager.java:123-125 | the left edge of the viewable area, the left padding; used by `ReelGeometry.Hits` and the rendered rectangles of `ReelGeometry.Tiles` |
| `ReelGeometry.Host.ParentTop` | library/src/main/java/com/suhel/library/CenteredLayoutManager.java:130-132 | the top edge of the viewable area, the top padding; used by `ReelGeometry.Hits` and `ReelGeometry.CenterY` |
| `ReelGeometry.Host.ParentRight` | library/src/main/java/com/suhel/library/CenteredLayoutManager.java:137-139 | the right edge of the viewable area, the width less the right padding; used by `ReelGeometry.Hits` and the rendered rectangles of `ReelGeometry.Tiles` |
| `ReelGeometry.Host.ParentBottom` | library/src/main/java/com/suhel/library/CenteredLayoutManager.java:144-146 | the bottom edge of the viewable area, the height less the bottom padding; the render loop's limit in `ReelGeometry.TilesContiguous` and `ReelGeometry.RenderedWindowExact`, and used by `ReelGeometry.Hits` |
| `ReelGeometry.CenterY` | library/src/main/java/com/suhel/library/CenteredLayoutManager.java:339 | the view center, the truncated mean of the parent's top and bottom edges; item 0 centred there at scroll 0 is stated by `ReelGeometry.ExtremesCentered` |
| `ReelGeometry.TopOffset` | library/src/main/java/com/suhel/library/CenteredLayoutManager.java:345-346 | the space above item 0, `CenterY - h/2`; its role is stated by `ReelGeometry.ExtremesCentered` and `ReelGeometry.BottomOffset` |
| `ReelGeometry.BottomOffset` | library/src/main/java/com/suhel/library/CenteredLayoutManager.java:345-347 | the top and bottom offsets add up to the view height less `2*(h/2)` |
| `ReelGeometry.MaxScroll` | library/src/main/java/com/suhel/library/CenteredLayoutManager.java:348 | the maximum scroll is `N*h - 2*(h/2)`, so it is never negative once there is an item |
| `ReelGeometry.ExtremesCentered` | library/src/main/java/com/suhel/library/CenteredLayoutManager.java:345-348 | for a positive view center: at scroll 0 item 0's center is the view center; at the maximum scroll the last item's center is `h % 2` pixels above it |
| `ReelGeometry.ScrollTarget` | library/src/main/java/com/suhel/library/CenteredLayoutManager.java:177 | the new scroll position lies in `[0, max]`; it is `s + dy` inside the range and the nearer extreme outside it; from a valid position the consumed delta has the sign of `dy` and is no larger; at `max`, a positive `dy` consumes nothing |
| `ReelGeometry.FirstIndex` | library/src/main/java/com/suhel/library/CenteredLayoutManager.java:254-256 | the first rendered index lies in `[0, N-1]`, and it is 0 before the top offset |
| `ReelGeometry.FirstIndexHoldsTopEdge` | library/src/main/java/com/suhel/library/CenteredLayoutManager.java:254-256 | when the view's top edge `s - t` lies inside the list, the first index `i` is the item whose slab `[i*h, i*h + h)` holds it |
| `ReelGeometry.FirstTop` | library/src/main/java/com/suhel/library/CenteredLayoutManager.java:258-260 | the first top edge lies in `(-h, 0]` at or past the top offset, and is positive before it |
| `ReelGeometry.Tiles` | library/src/main/java/com/suhel/library/CenteredLayoutManager.java:262-270 | the children the render loop places from a given position and top edge; its meaning is stated by `ReelGeometry.TilesContiguous` and `ReelGeometry.RenderedWindowExact` |
| `ReelGeometry.Window` | library/src/main/java/com/suhel/library/CenteredLayoutManager.java:254-270 | the children `render` places: `ReelGeometry.Tiles` from `ReelGeometry.FirstIndex` and `ReelGeometry.FirstTop`; its meaning is stated by `ReelGeometry.RenderedWindowExact` |
| `ReelGeometry.TilesContiguous` | library/src/main/java/com/suhel/library/CenteredLayoutManager.java:262-270 | the rendered children have consecutive positions from the first index, are `h` high and edge to edge, each has position `< N` and top `<` parent bottom, and the loop stops at the first position failing either test |
| `ReelGeometry.FirstTopAtItem` | library/src/main/java/com/suhel/library/CenteredLayoutManager.java:254-260 | unless the index is clamped, the first top edge is the first item's own position `topOffset - scrollY + index*h` |
| `ReelGeometry.RenderedWindowExact` | library/src/main/java/com/suhel/library/CenteredLayoutManager.java:254-270 | unless the index is clamped, each child sits at its item's position, and the rendered positions are exactly the items whose slab meets `[0, parentBottom)` |
| `ReelGeometry.CenterOffsetRatio` | library/src/main/java/com/suhel/library/CenteredLayoutManager.java:273-275 | the clamped float ratio of the child's center offset to the view center; its range and NaN case are stated by `ReelGeometry.CenterOffsetRatioRange` |
| `ReelGeometry.CenterOffsetRatioRange` | library/src/main/java/com/suhel/library/CenteredLayoutManager.java:273-275 | the transformer's ratio is finite and within `[-1, 1]`, or NaN exactly when the view center and the child center are both 0; inside the range it is the unclamped quotient |
| `ReelGeometry.CallFor` | library/src/main/java/com/suhel/library/CenteredLayoutManager.java:273-276 | the arguments of one transformer call: the child's position, its screen slot and its clamped ratio; their ranges are stated by `ReelGeometry.TransformArguments` |
| `ReelGeometry.TransformCalls` | library/src/main/java/com/suhel/library/CenteredLayoutManager.java:272-277 | the transformer calls of the render loop, one per placed child; their arguments are stated by `ReelGeometry.TransformArguments` |
| `ReelGeometry.TransformArguments` | library/src/main/java/com/suhel/library/CenteredLayoutManager.java:272-276 | there is one transformer call per rendered child, with the child's position, screen slot `k = i - firstIndex >= 0`, and a ratio within `[-1, 1]` (NaN only for a zero view center) |
| `ReelGeometry.Hits` | library/src/main/java/com/suhel/library/CenteredLayoutManager.java:310-313 | the inclusive test that a child's rectangle meets the parent's padded area; used by `ReelGeometry.FirstHit`, `ReelGeometry.LastHit` and `CenteredLayout.ScanVisible` |
| `ReelGeometry.FirstHit` | library/src/main/java/com/suhel/library/CenteredLayoutManager.java:305-319 | returns the first child that meets the viewport, with no child before it meeting the viewport |
| `ReelGeometry.LastHit` | library/src/main/java/com/suhel/library/CenteredLayoutManager.java:305-319 | returns the last child that meets the viewport, with no child after it meeting the viewport |
| `ReelGeometry.SpanFirst` | library/src/main/java/com/suhel/library/CenteredLayoutManager.java:302-319 | `recycle`'s `first`: when some child meets the viewport, the position of the first such child, with none before it; otherwise 0 |
| `ReelGeometry.SpanLast` | library/src/main/java/com/suhel/library/CenteredLayoutManager.java:302-319 | `recycle`'s `last`: when some child meets the viewport, the position of the last such child, with none after it; otherwise 0 |
| `ReelGeometry.Recycled` | library/src/main/java/com/suhel/library/CenteredLayoutManager.java:321-326 | the slice from `first` to `last` inclusive, or nothing when there are no children; what it keeps is stated by `ReelGeometry.RecycleKeepsSpan` |
| `ReelGeometry.RecycleKeepsSpan` | library/src/main/java/com/suhel/library/CenteredLayoutManager.java:300-327 | a child is kept iff some child at or before it and some child at or after it meet the viewport; the kept slice starts and ends with such a child; when none does, only child 0 is kept |
| `ReelGeometry.Selection` | library/src/main/java/com/suhel/library/CenteredLayoutManager.java:237-239 | for `h > 0` and `s >= 0` the selection is round half up of `s/h` (`2*q*h <= 2*s + h < 2*(q+1)*h`); for `h == 0` it is the float-cast result |
| `ReelGeometry.SelectionExamples` | library/src/main/java/com/suhel/library/CenteredLayoutManager.java:238 | with `h = 40`: scroll 59 selects 1, 60 selects 2, 19 selects 0, 20 selects 1 |
| `ReelGeometry.SelectionBand` | library/src/main/java/com/suhel/library/CenteredLayoutManager.java:237-239 | the selected item's top `q*h` lies less than half an item above, or at most half an item below, the scroll position |
| `ReelGeometry.SelectionIsNearest` | library/src/main/java/com/suhel/library/CenteredLayoutManager.java:237-239 | the selection is the index `q` minimising the distance `\|q*h - s\|`, and ties go to the later item |
| `CenteredLayout.ScanVisible` | library/src/main/java/com/suhel/library/CenteredLayoutManager.java:301-320 | the scan loop returns the `first` and `last` that `recycle` uses, 0 and 0 when no child meets the viewport, and the hit children otherwise |
| `CenteredLayout.CenteredLayoutManager.constructor` | library/src/main/java/com/suhel/library/CenteredLayoutManager.java:97-100 | a new layout starts with no listeners, a previous selection of -1 and all fields 0 |
| `CenteredLayout.CenteredLayoutManager.SetChildTransformer` | library/src/main/java/com/suhel/library/CenteredLayoutManager.java:117-119 | installs or removes the transformer |
| `CenteredLayout.CenteredLayoutManager.AddOnSelectionChangedListener` | library/src/main/java/com/suhel/library/CenteredLayoutManager.java:218-220 | adds the listener to the set; adding one already there changes nothing |
| `CenteredLayout.CenteredLayoutManager.RemoveOnSelectionChangedListener` | library/src/main/java/com/suhel/library/CenteredLayoutManager.java:227-229 | removes the listener from the set |
| `CenteredLayout.CenteredLayoutManager.GetSelection` | library/src/main/java/com/suhel/library/CenteredLayoutManager.java:237-239 | on a valid layout with a positive child height the selection is never negative; it is `ReelGeometry.Selection` of the scroll position and child height, whose rounding is stated in that row and in `ReelGeometry.SelectionIsNearest` |
| `CenteredLayout.CenteredLayoutManager.DetachAllViews` | library/src/main/java/com/suhel/library/CenteredLayoutManager.java:288-292 | no child stays attached |
| `CenteredLayout.CenteredLayoutManager.CalculateDimensions` | library/src/main/java/com/suhel/library/CenteredLayoutManager.java:338-350 | sets the center, child height, offsets and maximum scroll from the host; pulls the scroll position down to `min(max, scrollY)` only; keeps `0 <= scrollY <= maxScrollY` |
| `CenteredLayout.CenteredLayoutManager.Render` | library/src/main/java/com/suhel/library/CenteredLayoutManager.java:249-260 | with no items it does nothing; with a zero height at or past the top offset it throws; otherwise it appends the tiled window and one transformer call per child |
| `CenteredLayout.CenteredLayoutManager.LayOutFrom` | library/src/main/java/com/suhel/library/CenteredLayoutManager.java:262-278 | the loop appends exactly the tiled children from the first index and top edge, and, with a transformer, one call per child, in order, with its position, screen slot and ratio |
| `CenteredLayout.CenteredLayoutManager.Recycle` | library/src/main/java/com/suhel/library/CenteredLayoutManager.java:300-327 | the two removal loops leave exactly `Recycled` of the attached children |
| `CenteredLayout.CenteredLayoutManager.RemoveAfter` | library/src/main/java/com/suhel/library/CenteredLayoutManager.java:321-323 | removing from the end down to `last + 1` keeps exactly the children up to position `last` |
| `CenteredLayout.CenteredLayoutManager.RemoveBefore` | library/src/main/java/com/suhel/library/CenteredLayoutManager.java:324-326 | removing from `first - 1` down to 0 keeps exactly the children from position `first` on |
| `CenteredLayout.CenteredLayoutManager.OnLayoutChildren` | library/src/main/java/com/suhel/library/CenteredLayoutManager.java:155-163 | with no items it only detaches; otherwise it derives the dimensions and leaves the recycled window attached, or throws as `Render` does; keeps the scroll bounds |
| `CenteredLayout.CenteredLayoutManager.ScrollVerticallyBy` | library/src/main/java/com/suhel/library/CenteredLayoutManager.java:171-184 | with fewer than 2 items it returns 0 and changes nothing; otherwise the scroll position becomes `ScrollTarget`, the return value is the new position minus the old one, and the recycled window is attached; keeps `0 <= scrollY <= maxScrollY` |
| `CenteredLayout.CenteredLayoutManager.OnScrollStateChanged` | library/src/main/java/com/suhel/library/CenteredLayoutManager.java:187-210 | on IDLE, if the selection differs from the previous one, every listener is called once with `(previous, new)`, and the previous selection becomes the new one; if it is equal, or the state is not IDLE, nothing is called |
| `CenteredLayout.CenteredLayoutManager.NotifyListeners` | library/src/main/java/com/suhel/library/CenteredLayoutManager.java:198-200 | appends to the trace one call per listener in the set, each listener exactly once, all with the same arguments |
| `CenteredLayout.CenteredLayoutManager.IdleTwice` | library/src/main/java/com/suhel/library/CenteredLayoutManager.java:194-204 | two IDLE notifications with no scroll between them call the listeners at most once |
| `Dictionary.LowerChar` | app/src/main/java/com/suhel/reelsearch/DictionaryManager.java:78 | lowercasing maps `A`-`Z` to `a`-`z` and leaves every other character alone (ASCII only, see Left out) |
| `Dictionary.ToLower` | app/src/main/java/com/suhel/reelsearch/DictionaryManager.java:78 | lowercasing keeps the length and lowers each character |
| `Dictionary.ToLowerIdempotent` | app/src/main/java/com/suhel/reelsearch/DictionaryManager.java:78 | a lowercased word has no upper-case letter, and lowercasing it again changes nothing |
| `Dictionary.LowerAll` | app/src/main/java/com/suhel/reelsearch/DictionaryManager.java:77-79 | the loaded list has one word per line, in order, each being that line lowercased |
| `Dictionary.Filter` | app/src/main/java/com/suhel/reelsearch/DictionaryManager.java:94-96 | the result is a subsequence of the words, each starting with the prefix, and holds every matching word as many times as the list does |
| `Dictionary.UpperPrefixMatchesNothing` | app/src/main/java/com/suhel/reelsearch/DictionaryManager.java:94-96 | against lower-case words, a prefix with an upper-case letter matches nothing, because matching is case-sensitive |
| `Dictionary.LoadedQueryMembers` | app/src/main/java/com/suhel/reelsearch/DictionaryManager.java:75-96 | after loading, a word is returned iff it starts with the prefix and is some line lowercased |
| `Dictionary.DictionaryManager.constructor` | app/src/main/java/com/suhel/reelsearch/DictionaryManager.java:41-47 | a new manager has no words and is not loaded |
| `Dictionary.DictionaryManager.IsLoaded` | app/src/main/java/com/suhel/reelsearch/DictionaryManager.java:61-63 | returns the loaded flag, which `Dictionary.DictionaryManager.LoadDictionary` sets for a readable resource and never clears |
| `Dictionary.DictionaryManager.ClearWords` | app/src/main/java/com/suhel/reelsearch/DictionaryManager.java:49-53 | empties the list |
| `Dictionary.DictionaryManager.AddWord` | app/src/main/java/com/suhel/reelsearch/DictionaryManager.java:55-59 | appends one word |
| `Dictionary.DictionaryManager.LoadDictionary` | app/src/main/java/com/suhel/reelsearch/DictionaryManager.java:65-88 | for a readable resource, the list becomes the lines read, lowercased and in order, and the manager is loaded, even if a read error ended the stream; for a missing resource nothing changes |
| `Dictionary.DictionaryManager.Query` | app/src/main/java/com/suhel/reelsearch/DictionaryManager.java:90-99 | returns empty when not loaded or when the prefix is empty; otherwise returns exactly the stored words starting with the prefix, in stored order |

## Left out

- Java `int` overflow: every coordinate, product (`N*h`) and sum is an unbounded integer. Views and lists large enough to overflow 32 bits are not modelled.
- The Android view machinery is not modelled: `Recycler`, the scrap heap, `addView`, `measureChildWithMargins`, `layoutDecoratedWithMargins` and `removeAndRecycleViewAt`. A child is the rectangle it is laid out at: item margins and item decoration insets are taken as zero, so the decorated edges that `recycle` tests are the laid-out edges. Measuring is the host's `itemHeight`. Recycling is removal from the attached sequence. The height-probe view in `calculateDimensions` is attached and scrapped again, so it leaves no trace.
- The `v == null` check in `recycle` is left out, because attached children are never null in this model.
- `ReelGeometry.Selection`: it uses the exact integer formula for the float expression `(int) ((float) s / h + 0.5f)`. It does not model float rounding. The two agree for every scroll position below 2^22 (4194304). Above it they can differ, and the quotient `s/h` itself can be small: `s = 5592405, h = 11184811` gives 1 in Java and 0 here, `s = 8421504, h = 257` gives 32769 in Java and 32768 here, and `s = 10485762, h = 5` gives `2^21 + 1` in Java and `2^21` here.
- `ReelGeometry.CenterOffsetRatioRange`: `CenterOffsetRatio` computes the ratio on reals, and on NaN for `0/0`. It does not model float rounding, which cannot push a clamped value outside `[-1, 1]`.
- The transformer and the listeners are opaque callbacks. The model keeps only the arguments they receive, as traces. The views passed to the transformer are left out. Whether a transformer is installed is a flag.
- The HashSet iteration order is left open: the listener loop picks any remaining listener. No particular order is modelled.
- `getChildTransformer` returns the transformer field as it stands, and the model keeps only whether one is installed. `canScrollVertically` always returns true. `generateDefaultLayoutParams` builds a fresh match-parent, wrap-content `LayoutParams` on each call. None of them holds logic to prove.
- `AlphaChildTransformer.java` is not part of this model: it is a one-line float alpha computation.
- `ReelSearchView.java` is not part of this model: it is view measurement, child-type checks and wiring.
- `RxUtils.java`, `SuggestionsActivity.java` and `SuggestionsAdapter.java` are not part of this model: they are scheduler plumbing, activity glue and adapter binding.
- In `DictionaryManager`, the Rx `Completable`/`Single` wrapping, the threads, and `synchronized`/`volatile` are left out. Loading and querying run to completion one at a time.
- Reading the raw resource is a `Resource` value. It is either missing, or the lines read before the end of the stream or before an I/O error.
- `Dictionary.LowerChar`: it lowers the ASCII letters `A`-`Z` only. Java's `Character`/`String` lowercasing also lowers other letters, such as `À` to `à`, which this model leaves as they are.
- `Dictionary.ToLower`: it lowercases ASCII letters only. It does not model Java's locale-dependent Unicode case mapping.
