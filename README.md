# Dots-and-boxes board renderer, modelled in Dafny

This project models the renderer of the box-game (`js/screen.js`), the component that
draws a dots-and-boxes board on a canvas and turns a click into a move. It covers four things:

- **Render pass (`Screen.draw`).** The canvas is cleared. Then the board's adjacency map
  (`board.edgePool[p][q]` is the edge between neighbouring points `p` and `q`) is walked
  breadth first from point 0. Points, edges and owned faces are drawn along the way. A single
  `alreadyDrawn` list records what was drawn. It keeps an edge or a face from being drawn twice.
  For points it is consulted about the neighbour, not the point drawn (see below).
- **Coordinate maps.**
  - `mapPointToScreen` places point `p` at the centre of its cell.
  - `getBoxSize` and `getScreenMargin` give the cell size and the half-cell margin.
  - `mapScreenToEdge` is the inverse map. It scales a pointer position to grid ratios, rounds
    them, and picks either the horizontal or the vertical pair of endpoints by comparing the two
    rounding errors. Ties go to the vertical edge.
- **Click dispatch (`selectEdge`).** The pointer is clamped into the margins (`getMousePos`,
  `clamp`) and resolved to an edge. Only when an edge is found is it played and the board redrawn.
- **The Artist.** The drawing surface is modelled as the list of calls made on it. Each
  recorded call also names the board entity it draws, so the promises of a render pass can be
  stated over that list.

Modules, one per file:

- `Wrappers` holds `Option`.
- `BoardShape` holds the parts of the Board the renderer reads: players, faces, edges, the pool,
  and `getEdge` as a lookup in the pool.
- `Coordinates` holds the coordinate maps and the pointer clamping, over exact reals.
- `HitTest` proves how the maps relate to each other.
- `Traversal` describes, as functions, how the `alreadyDrawn` list and the `toVisit` queue change
  over one entry of the pool (`LinkStep`) and over one point's turn (`PointTurn`). It proves what
  the walk keeps true.
- `Render` holds the Artist call log and the `Screen` class. `Draw`, its per-point and per-entry
  steps, and `SelectEdge` are methods that change the Artist's list of calls. Each is proved to
  leave the list and the queue as `Traversal` says, and the calls a well-formed render pass. Each
  is also proved to append exactly the calls that `FaceCalls`, `LinkCalls`, `TurnCalls` and
  `PassCalls` give along the walk. Those calls record exactly the walk's `alreadyDrawn` list.

JavaScript object identity is modelled by integer `id` fields on edges and faces. An inner pool
object is modelled as its list of entries, in the order `Object.keys` gives for integer keys
(ascending).

## Behaviour of the code that the model keeps

- **Points are not drawn once each.** The comment at `js/screen.js:14` ("draw current point")
  marks the point being visited. But at line 24 the code tests whether the *neighbour* `endP` is
  in `alreadyDrawn`, and then draws and records the *current* point `p`.
  - So `p` is drawn once for each entry whose end is not yet listed.
  - A point whose neighbours are all listed by its turn is never drawn.
  - The model keeps this behaviour. `Traversal.PointTurnMarksPoint` states exactly when `p`
    becomes listed. With the integer point keys of this model, `Render.TwoByTwoPointCalls` shows
    that on a 2 x 2 board the point calls are `0, 0, 1, 2`: point 3 is never drawn.
  - In JavaScript the keys are strings, which changes the 2 x 2 result to `0, 0, 1, 1, 2, 2`
    (see "String keys" under "Left out").
- **A pointer above the first row resolves to no edge.** On a 3 x 3 board with a 300 x 300
  canvas, the raw pointer (50, 0) resolves to the pair (-3, 0), which names no edge
  (`HitTest.PointerAboveFirstRowExample`). `selectEdge` clamps it first, to (50, 50), which
  resolves to the vertical pair (0, 3).
- **Last-row points resolve to no edge.** The screen position of any point `p` resolves to the
  pair `(p, p + width)` (`HitTest.RoundTrip`). For a point of the last row, `p + width` is off the
  grid (`HitTest.LastRowPointLeavesGrid`).
- **`getMousePos` clamps against page coordinates.** It clamps the canvas-relative coordinate
  `clientX - rect.left` to `[margin, rect.right - margin]`, where `rect.right` is a page
  coordinate. The model keeps this. `HitTest.ClampedPointerInPlayArea` shows the clamp lands in
  the play area when the canvas sits at the page origin.

## Model

| member | source | states |
|---|---|---|
| BoardShape.Lookup | js/screen.js:22 | the edge found for key `q` belongs to an entry for `q`; there is no edge exactly when no entry has key `q` |
| BoardShape.LookupFinds | js/screen.js:19-22 | when keys are distinct and ascending, looking up an entry's key returns that entry's own edge |
| BoardShape.GetEdge | js/screen.js:110 | an edge is returned only when `p1` has an entry in the pool whose end is `p2` and whose edge it is; there is none exactly when `p1` has no entry or none of its entries ends at `p2` |
| Coordinates.Rem | js/screen.js:55 | JavaScript `%`: the result is in `[0, n)` for a non-negative dividend and in `(-n, 0]` for a negative one |
| Coordinates.Quot | js/screen.js:56 | `Math.trunc(a / n)` pairs with `Rem` so that `q * n + Rem(a, n) == a`; it is non-negative for a non-negative dividend |
| Coordinates.RowMajor | js/screen.js:55-56 | a point's index `row * width + col` splits back into its row and column, both by Euclidean and by JavaScript division |
| Coordinates.BoxSize | js/screen.js:65-72 | `width` cells fill the client width and `height` cells fill the client height |
| Coordinates.ScreenMargin | js/screen.js:74-80 | the margin is half a cell on each axis |
| Coordinates.CellFitsCanvas | js/screen.js:65-80 | on a playable board, a cell is positive and smaller than the canvas on each axis |
| Coordinates.MapPointToScreen | js/screen.js:53-63 | point `p` is drawn at the centre of the cell in column `p % width` and row `trunc(p / width)` |
| Coordinates.XRatio | js/screen.js:87-92 | the column ratio times the cell width is the pointer's distance from the first column of points: the `width - 1` scale cancels, so the ratio counts cells |
| Coordinates.YRatio | js/screen.js:88-92 | the row ratio times the cell height is the pointer's distance from the first row of points |
| Coordinates.Round | js/screen.js:96 | `Math.round` returns the integer within half a unit of `r`, rounding halves up |
| Coordinates.Clamp | js/screen.js:132-134 | `Math.min(Math.max(n, lo), hi)`: the result never exceeds `hi`; it is at least `lo` when the bounds are ordered; it equals `n` inside the range and the nearer bound outside it; when the bounds cross (`hi < lo`) the result is `hi` |
| Coordinates.GetMousePos | js/screen.js:124-130 | each axis of the canvas-relative pointer is clamped to `[margin, far side of rect - margin]`, and is left unchanged when already inside |
| Coordinates.MapScreenToEdge | js/screen.js:82-111 | for the endpoints `(p1, p2)` picked at the pointer (`HitEndpoints`): an edge is returned only when it is the pool's entry from `p1` to `p2`, and none exactly when the pool has no such entry |
| HitTest.PlayAreaIsGridRange | js/screen.js:84-92 | a pointer is within the margins exactly when its ratios lie in `[0, width-1] x [0, height-1]` |
| HitTest.RatiosAtPoint | js/screen.js:53-92 | the ratios of point `p`'s screen position are its column and its row |
| HitTest.RoundTrip | js/screen.js:53-110 | the screen position of any point `p` resolves to the endpoints `(p, p + width)`, and therefore to the pool's edge between them |
| HitTest.RoundInRange | js/screen.js:96 | rounding a ratio within `[0, k]` stays within `[0, k]` |
| HitTest.PickIsGridEdge | js/screen.js:96-108 | tie-break rule of `PickEndpoints`. Within the grid and off the last row's points: the pair is two neighbouring grid points. It is horizontal exactly when the row error is strictly smaller than the column error. A horizontal pair lies on the nearest row between the columns around the pointer; a vertical pair lies on the nearest column between the rows around it |
| HitTest.PickHorizontal | js/screen.js:102-104 | the horizontal branch gives `(p1, p1 + 1)` on the nearest row, with the pointer between the two columns |
| HitTest.PickVertical | js/screen.js:105-107 | the vertical branch gives `(p1, p1 + width)` on the nearest column, with the pointer between the two rows |
| HitTest.HitIsGridEdge | js/screen.js:82-110 | the endpoints `HitEndpoints` picks follow the tie-break rule of `PickIsGridEdge`, for any pointer on the canvas inside the play area and off the last row's points |
| HitTest.LastRowPointLeavesGrid | js/screen.js:102-108 | a pointer exactly at a last-row point resolves to a vertical pair whose second end is off the grid |
| HitTest.ClampedPointerInPlayArea | js/screen.js:113-130 | when the canvas's bounding rectangle is its client area at the page origin, every clamped pointer is in the play area |
| HitTest.CentrePointExample | js/screen.js:53-63 | on a 3 x 3 board and a 300 x 300 canvas, point 4 is drawn at (150, 150) |
| HitTest.PointerAboveFirstRowExample | js/screen.js:82-110 | on that board, a raw pointer at (50, 0) resolves to (-3, 0), and the clamped (50, 50) resolves to (0, 3) |
| Render.CornersAreCornerSet | js/screen.js:31 | `Corners`, flattening the ends of a face's edges keeps exactly the points of their union, which is what `_.uniq` keeps |
| Render.FoldMin | js/screen.js:32 | the `Math.min` fold returns a value that is at most the seed and every element, and is one of them |
| Render.FaceAnchor | js/screen.js:31-33 | a face's anchor is one of its corner points and no corner has a smaller index; there is no anchor exactly when its edges list no ends |
| Render.AnchorOnScreen | js/screen.js:31-33 | a face is placed at the screen position of a corner point no other corner is smaller than; it has no position exactly when its edges list no ends |
| Render.PointsGrow | js/screen.js:25-26 | a point call appended with its list entry keeps the point calls equal, in order, to the points in the list |
| Render.ProgressAfter | js/screen.js:24-44 | appending a faithful call together with its list entry keeps the render pass well formed, provided an edge or face is not yet in the list: each edge and face stays drawn at most once, and the point calls stay the points of the list, in order |
| Render.ProgressAfterPoint | js/screen.js:24-27 | drawing the current point at its screen position, styled by the entry's edge owner, keeps the render pass well formed |
| Render.ProgressAfterFace | js/screen.js:30-35 | drawing an owned face not yet in the list, in its owner's colour at its anchor, keeps every face drawn at most once |
| Render.ProgressAfterEdge | js/screen.js:39-43 | drawing an edge not yet in the list, between the screen positions of its two ends, keeps every edge drawn at most once |
| Render.PassAtEnd | js/screen.js:13-50 | where the loop stops, with the queue empty or its head missing from the pool, the calls made are a render pass of the board (`RenderPass`) |
| Render.TwoByTwoPointCalls | js/screen.js:24-27 | on the 2 x 2 board a render pass completes and its point calls are `0, 0, 1, 2`: point 0 twice, points 1 and 2 once, point 3 never |
| Render.FaceCallsKeepProgress | js/screen.js:29-37 | the face calls along an entry's edge, made in step with `FaceMarks`, keep a render pass well formed |
| Render.FaceCallsMarks | js/screen.js:29-37 | the face calls (`FaceCalls`) record exactly the entries `FaceMarks` adds to the list, in order |
| Render.LinkCallsMarks | js/screen.js:22-48 | the calls for one entry (`LinkCalls`: line 25's point call with that entry's owner, then the face calls, then line 42's edge call) record exactly the entries `LinkStep` adds to the list, in order |
| Render.TurnCallsMarks | js/screen.js:19-49 | the calls of a turn (`TurnCalls`) record exactly the entries `PointTurn` adds to the list, in order |
| Render.RunCallsMarks | js/screen.js:13-50 | the calls of the walk to its end (`RunCalls`) record exactly the entries `Run` adds to the list, in order |
| Render.PassCallsMarks | js/screen.js:11-50 | the calls of a render pass after its clear (`PassCalls`) record exactly the `alreadyDrawn` list of its walk `Pass` |
| Render.CallsChain | js/screen.js:13-49 | the calls of the walk are those of the turn at the head of the queue followed by those of the walk after it |
| Traversal.FaceMarksFacts | js/screen.js:29-37 | `FaceMarks`: the faces of an edge only append to the list, append nothing but face entries, and leave every owned face in it |
| Traversal.OnlyFacesAdded | js/screen.js:29-37 | appending only face entries leaves the presence of every point and edge entry unchanged |
| Traversal.LinkStepFacts | js/screen.js:22-48 | `LinkStep`, made of `MarkPoint`, `FaceMarks`, `MarkEdge` and `Enqueue`: for one entry, `p` enters the list exactly when it was there or the entry's end was not, and no other point enters. The end is then queued or in the list, and the edge and owned faces are in the list. The queue grows by at most the end, and only once `p` is marked; it keeps no duplicates and no marked point |
| Traversal.ListedPointsMeans | js/screen.js:24-26 | a point is among the listed points exactly when the list holds its entry |
| Traversal.PointTurnGrows | js/screen.js:19-49 | `PointTurn`, over all entries of `p`: the list and the queue only grow at their ends; among the points only `p` enters the list; only ends of `p` are queued, and nothing is queued unless `p` is marked; the queue stays free of duplicates and of marked points |
| Traversal.PointTurnMarksPoint | js/screen.js:21-27 | the test of line 24: after its turn, `p` is in the list exactly when it was already, or when some entry's end was not in the list when the turn began |
| Traversal.PointTurnCovers | js/screen.js:19-49 | after the turn of `p`, every entry's end is queued or in the list, and every entry's edge and owned faces are in the list |
| Traversal.TailFresh | js/screen.js:15 | shifting the head off a duplicate-free queue leaves a duplicate-free queue without that head |
| Traversal.TurnKeepsFrontier | js/screen.js:13-49 | after a turn, the queue holds no point twice, only points the pool names, and none already in the list; on a closed board each queued point has an entry in the pool |
| Traversal.TurnKeepsOld | js/screen.js:13-49 | a turn keeps every old list entry and every other queued point, and marks no point but the one whose turn it is |
| Traversal.TurnKeepsExplored | js/screen.js:13-49 | after a turn, the visited points, now including the shifted head, are in shape. Each has a pool entry, each marked point is visited, and 0 is visited or queued. Every entry of a visited point ends at a visited or queued point, with its edge and owned faces in the list |
| Traversal.TurnProgresses | js/screen.js:13-49 | a turn marks a new point of the pool or shortens the queue, so the walk ends |
| Traversal.TurnKeepsEndsMet | js/screen.js:13-49 | after a turn, every entry of a visited point has at least one of its two ends in the list |
| Traversal.TurnKeepsStart | js/screen.js:11-15 | the walk starts from point 0 alone with an empty list; once 0 has had its turn it is visited, and listed when it has an entry |
| Traversal.Run | js/screen.js:13-50 | the walk of the loop, taken to its end: the queue stays well formed, and the walk stops with an empty queue or a head missing from the pool; on a closed board the queue ends empty |
| Traversal.RunChain | js/screen.js:13-49 | taking one turn does not change where the walk ends |
| Traversal.TurnOfTwo | js/screen.js:19-21 | a turn over two entries handles them in key order |
| Traversal.ListedPointsOfPair | js/screen.js:26-43 | a point entry followed by an edge entry adds that point to the listed points |
| Traversal.TwoByTwoPass | js/screen.js:11-50 | on the 2 x 2 board the walk ends with an empty queue and lists the points `0, 0, 1, 2` |
| Render.Artist.constructor | js/screen.js:4 | the surface starts with no calls |
| Render.Artist.Clear | js/screen.js:8 | records the clear of the whole canvas |
| Render.Artist.DrawPoint | js/screen.js:25 | records one point call |
| Render.Artist.DrawFace | js/screen.js:34 | records one face call |
| Render.Artist.DrawEdge | js/screen.js:42 | records one edge call |
| Render.Screen.constructor | js/screen.js:2-5 | keeps the canvas and creates a fresh surface with no calls |
| Render.Screen.DrawFaces | js/screen.js:29-37 | leaves the list as `FaceMarks` says and appends exactly `FaceCalls`: each owned face not yet listed, in order, at its anchor in its owner's colour; the calls stay a well-formed render pass |
| Render.Screen.DrawPointStep | js/screen.js:24-27 | leaves the list as `MarkPoint` says; appends the call drawing `p` at its screen position, styled by the entry's edge owner, exactly when the entry's end is not in the list, and no call otherwise |
| Render.Screen.DrawEdgeStep | js/screen.js:39-44 | leaves the list as `MarkEdge` says; appends the call drawing the edge between the screen positions of `p` and the entry's end exactly when the edge is not in the list, and no call otherwise |
| Render.Screen.VisitLink | js/screen.js:22-48 | leaves the queue and the list as `LinkStep` says and appends exactly `LinkCalls`: the current point styled by this entry's owner when its end is unlisted, the new owned faces, and the edge when unlisted; the calls stay a well-formed render pass |
| Render.Screen.VisitPoint | js/screen.js:15-49 | leaves the queue and the list as `PointTurn` says for the entries of `p` in key order, and appends exactly `TurnCalls`, the calls of those entries in that order |
| Render.Screen.Draw | js/screen.js:7-51 | `RenderPass`: a clear followed by faithful calls, each edge and face at most once, faces only when owned. The point calls are, in order, the points the walk `Pass` lists, so a point is drawn once per entry whose end is not yet listed; the edges and faces drawn are those it lists. On a closed board the pass completes; then 0 was visited and drawn when it has an entry, the visited points are closed under the pool's entries, and each of their entries has its edge, its owned faces and one of its ends drawn. The calls after the clear are exactly `PassCalls`, the calls of each entry in walk order, each point call styled by the owner of the entry being handled |
| Render.Screen.SelectEdge | js/screen.js:113-122 | the move is the edge at the clamped pointer. With no edge, the board and the surface are unchanged. With an edge, `play` is applied whatever the edge's owner, and the calls appended are a render pass of the new board (`RenderPass`), exactly `PassCalls` of the new board after a clear |

## Left out

- **Canvas and DOM plumbing.**
  - Canvas and DOM access (`getContext`, `getBoundingClientRect`) is left out: the canvas sizes,
    the bounding rectangle and the pointer event are parameters.
  - `debugLog` output is left out.
  - The Artist's pixel work is not part of this model.
- **Floating point.** Arithmetic is over exact reals and unbounded integers: IEEE-754 rounding is
  not modelled.
- **Boards too small to divide by.**
  - Coordinates.XRatio, Coordinates.YRatio, Coordinates.HitEndpoints,
    Coordinates.MapScreenToEdge, HitTest and Render.Screen.SelectEdge require at least two points
    each way and a visible canvas (`Playable`), where the source would divide by zero and carry
    `NaN` or `Infinity` into `getEdge`.
  - Render.Screen.Draw requires at least one point each way (`Sized`).
- **Board internals.**
  - Board's construction of the pool is not part of this model.
  - `getEdge` is modelled as a lookup in the pool.
  - `play` is a function supplied by the caller, so what it does to ownership and faces is not
    modelled.
- **String keys.** `Object.keys` (line 19) yields string keys, while the queue starts from the
  number 0 (line 11) and line 26 records `p` as it is. The model uses integer keys throughout, so
  it does not reproduce two effects of this mismatch:
  - `indexOf` compares strictly, so after the first turn has recorded the number `0`, line 24
    never finds `"0"`. Every entry whose end is point 0 draws its current point again. On a
    2 x 2 board the code draws the points `0, 0, 1, 1, 2, 2`; the model draws `0, 0, 1, 2`.
  - Line 45 queues `"0"` again, and it gets a second turn, which draws nothing.
- **Exceptions.** When a queued point has no entry in the pool, `Object.keys(undefined)` throws.
  Render.Screen.Draw models this only as returning `completed == false`, with the calls made so
  far.
- **Undefined face anchors.** A face whose edges list no ends would be drawn at an undefined
  position. The model records the anchor as `None`.
- **`_.uniq`.** It is modelled by the set of corner points. Its order is irrelevant to the
  minimum.
- **Mutation in place.**
  - Render.Screen.SelectEdge returns the played board rather than mutating it.
  - Edges and faces are values with ids, so aliasing between pool entries that share one edge
    object is captured only through equal ids.
