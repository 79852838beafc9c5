/**
 * The coordinate maps of the renderer (js/screen.js:53-111) and the pointer clamping
 * (js/screen.js:124-134), over exact reals.
 *
 * A board of `width` x `height` points is drawn on a canvas whose displayed size is
 * `clientWidth` x `clientHeight`; each point sits at the centre of a cell of `BoxSize`.
 */
module Coordinates {
  import opened Wrappers
  import opened BoardShape

  datatype ScreenPoint = ScreenPoint(x: real, y: real)

  /** The canvas: `width`/`height` of its drawing buffer and its displayed `clientWidth`/`clientHeight`. */
  datatype Canvas = Canvas(width: real, height: real, clientWidth: real, clientHeight: real)

  /** The canvas's bounding rectangle in page coordinates. */
  datatype Rect = Rect(left: real, top: real, right: real, bottom: real)

  /** The page coordinates carried by a pointer event. */
  datatype Pointer = Pointer(clientX: real, clientY: real)

  /** The grid has at least one point in each direction, so the forward map divides by non-zero sizes. */
  predicate Sized(board: Board)
  {
    board.width >= 1 && board.height >= 1
  }

  /** At least two points each way on a visible canvas: the inverse map divides by non-zero sizes too. */
  predicate Playable(canvas: Canvas, board: Board)
  {
    board.width >= 2 && board.height >= 2 && canvas.clientWidth > 0.0 && canvas.clientHeight > 0.0
  }

  // ---------------------------------------------------------------------------------------------
  // JavaScript integer arithmetic on point indices

  /** JavaScript's `a % n` for `n > 0`: the remainder of truncating division, with the sign of `a`. */
  function Rem(a: int, n: int): (r: int)
    requires n > 0
    ensures a >= 0 ==> 0 <= r < n
    ensures a < 0 ==> -n < r <= 0
  {
    if a >= 0 then a % n else -((-a) % n)
  }

  /** `Math.trunc(a / n)` for `n > 0`: the quotient that goes with `Rem`. */
  function Quot(a: int, n: int): (q: int)
    requires n > 0
    ensures q * n + Rem(a, n) == a
    ensures a >= 0 ==> q >= 0
  {
    if a >= 0 then
      assert (a / n) * n + a % n == a;
      a / n
    else
      var m := -a;
      assert (m / n) * n + m % n == m;
      assert (-(m / n)) * n + -(m % n) == a;
      -(m / n)
  }

  lemma {:induction false} ProductAtLeast(k: int, n: int)
    requires k >= 1 && n > 0
    ensures k * n >= n
  {
    if k > 1 {
      ProductAtLeast(k - 1, n);
      assert k * n == (k - 1) * n + n;
    }
  }

  /** A row and an in-range column make a point index from which they decode back. */
  lemma RowMajor(row: int, col: int, n: int)
    requires n > 0 && row >= 0 && 0 <= col < n
    ensures row * n + col >= 0
    ensures (row * n + col) / n == row && (row * n + col) % n == col
    ensures Quot(row * n + col, n) == row && Rem(row * n + col, n) == col
  {
    var p := row * n + col;
    assert p >= 0 by { assert row * n >= 0; }
    var q, r := p / n, p % n;
    assert q * n + r == p;
    var d := q - row;
    assert d * n == col - r by { assert d * n == q * n - row * n; }
    if d >= 1 {
      ProductAtLeast(d, n);
    } else if d <= -1 {
      ProductAtLeast(-d, n);
    }
  }

  // ---------------------------------------------------------------------------------------------
  // Cell size and margin (js/screen.js:65-80)

  /** One grid cell in pixels: the cells tile the displayed canvas exactly. */
  function BoxSize(canvas: Canvas, board: Board): (box: ScreenPoint)
    requires Sized(board)
    ensures box.x * board.width as real == canvas.clientWidth
    ensures box.y * board.height as real == canvas.clientHeight
  {
    ScreenPoint(canvas.clientWidth / board.width as real, canvas.clientHeight / board.height as real)
  }

  /** Half a cell: `2 * width` margins span the canvas. */
  function ScreenMargin(canvas: Canvas, board: Board): (margin: ScreenPoint)
    requires Sized(board)
    ensures margin.x * (2 * board.width) as real == canvas.clientWidth
    ensures margin.y * (2 * board.height) as real == canvas.clientHeight
  {
    var box := BoxSize(canvas, board);
    ScreenPoint(box.x / 2.0, box.y / 2.0)
  }

  /** On a playable canvas a cell is positive and narrower than the canvas. */
  lemma CellFitsCanvas(canvas: Canvas, board: Board)
    requires Playable(canvas, board)
    ensures 0.0 < BoxSize(canvas, board).x < canvas.clientWidth
    ensures 0.0 < BoxSize(canvas, board).y < canvas.clientHeight
  {
    var box := BoxSize(canvas, board);
    var w, h := board.width as real, board.height as real;
    assert box.x * w == canvas.clientWidth;
    assert box.x > 0.0;
    assert box.x * w >= box.x * 2.0;
    assert box.y * h == canvas.clientHeight;
    assert box.y > 0.0;
    assert box.y * h >= box.y * 2.0;
  }

  // ---------------------------------------------------------------------------------------------
  // Forward map (js/screen.js:53-63)

  /** The screen position of point `point`: the centre of the cell at its row and column. */
  function MapPointToScreen(canvas: Canvas, board: Board, point: int): (sp: ScreenPoint)
    requires Sized(board)
    ensures sp.x == (Rem(point, board.width) as real + 0.5) * BoxSize(canvas, board).x
    ensures sp.y == (Quot(point, board.width) as real + 0.5) * BoxSize(canvas, board).y
  {
    var xFactor := Rem(point, board.width) as real / board.width as real;
    var yFactor := Quot(point, board.width) as real / board.height as real;
    var box := BoxSize(canvas, board);
    ScreenPoint(canvas.clientWidth * xFactor + box.x / 2.0, canvas.clientHeight * yFactor + box.y / 2.0)
  }

  // ---------------------------------------------------------------------------------------------
  // Inverse map (js/screen.js:82-111)

  /**
   * The pointer's column in grid units (line 92): 0 at the first point, `width - 1` at the last.
   * The `width - 1` scale cancels: the ratio counts cells from the first point.
   */
  function XRatio(canvas: Canvas, board: Board, sp: ScreenPoint): (r: real)
    requires Playable(canvas, board)
    ensures r * BoxSize(canvas, board).x == sp.x - ScreenMargin(canvas, board).x
  {
    CellFitsCanvas(canvas, board);
    var box, margin := BoxSize(canvas, board), ScreenMargin(canvas, board);
    var k := (board.width - 1) as real;
    assert canvas.clientWidth - box.x == k * box.x;
    var xFactor := (sp.x - margin.x) / (canvas.clientWidth - box.x);
    assert xFactor * (k * box.x) == sp.x - margin.x;
    xFactor * k
  }

  /** The pointer's row in grid units (line 92). */
  function YRatio(canvas: Canvas, board: Board, sp: ScreenPoint): (r: real)
    requires Playable(canvas, board)
    ensures r * BoxSize(canvas, board).y == sp.y - ScreenMargin(canvas, board).y
  {
    CellFitsCanvas(canvas, board);
    var box, margin := BoxSize(canvas, board), ScreenMargin(canvas, board);
    var k := (board.height - 1) as real;
    assert canvas.clientHeight - box.y == k * box.y;
    var yFactor := (sp.y - margin.y) / (canvas.clientHeight - box.y);
    assert yFactor * (k * box.y) == sp.y - margin.y;
    yFactor * k
  }

  /** `Math.round`: the nearest integer, halves rounded up. */
  function Round(r: real): (n: int)
    ensures r - 0.5 < n as real <= r + 0.5
  {
    (r + 0.5).Floor
  }

  function Abs(r: real): (a: real)
  {
    if r < 0.0 then -r else r
  }

  /**
   * The endpoints `(p1, p2)` picked from the pointer's grid ratios (lines 96-108): a horizontal
   * edge `(p1, p1 + 1)` when the row is the strictly nearer lattice line, otherwise (ties
   * included) a vertical edge `(p1, p1 + width)`.
   */
  function PickEndpoints(xRatio: real, yRatio: real, width: int): (pair: (int, int))
  {
    var xRound, yRound := Round(xRatio), Round(yRatio);
    if Abs(yRound as real - yRatio) < Abs(xRound as real - xRatio) then
      var p1 := yRound * width + xRatio.Floor;
      (p1, p1 + 1)
    else
      var p1 := yRatio.Floor * width + xRound;
      (p1, p1 + width)
  }

  /** The endpoints of the edge nearest to `sp` (lines 83-108). */
  function HitEndpoints(canvas: Canvas, board: Board, sp: ScreenPoint): (pair: (int, int))
    requires Playable(canvas, board)
  {
    PickEndpoints(XRatio(canvas, board, sp), YRatio(canvas, board, sp), board.width)
  }

  /** The edge under `sp`, if the board has one between the two endpoints (line 110). */
  function MapScreenToEdge(canvas: Canvas, board: Board, sp: ScreenPoint): (r: Option<Edge>)
    requires Playable(canvas, board)
    ensures var (p1, p2) := HitEndpoints(canvas, board, sp);
      r.Some? ==> p1 in board.edgePool && Link(p2, r.value) in board.edgePool[p1]
    ensures var (p1, p2) := HitEndpoints(canvas, board, sp);
      r.None? <==> p1 !in board.edgePool || forall l :: l in board.edgePool[p1] ==> l.to != p2
  {
    var (p1, p2) := HitEndpoints(canvas, board, sp);
    GetEdge(board, p1, p2)
  }

  /** `sp` lies between the first and the last point on both axes (within the margins). */
  predicate InPlayArea(canvas: Canvas, board: Board, sp: ScreenPoint)
    requires Sized(board)
  {
    var margin := ScreenMargin(canvas, board);
    margin.x <= sp.x <= canvas.clientWidth - margin.x &&
    margin.y <= sp.y <= canvas.clientHeight - margin.y
  }

  /** `sp` is exactly at a point of the last row, where the vertical edge would leave the grid. */
  predicate AtLastRowPoint(canvas: Canvas, board: Board, sp: ScreenPoint)
    requires Playable(canvas, board)
  {
    YRatio(canvas, board, sp) == (board.height - 1) as real &&
    XRatio(canvas, board, sp) == XRatio(canvas, board, sp).Floor as real
  }

  // ---------------------------------------------------------------------------------------------
  // Pointer clamping (js/screen.js:124-134)

  function Min(a: real, b: real): (m: real)
  {
    if a <= b then a else b
  }

  function Max(a: real, b: real): (m: real)
  {
    if a >= b then a else b
  }

  /** `Math.min(Math.max(n, lo), hi)`: `n` pulled into `[lo, hi]`; `hi` wins when the bounds cross. */
  function Clamp(n: real, lo: real, hi: real): (r: real)
    ensures r <= hi
    ensures lo <= hi ==> lo <= r
    ensures lo <= n <= hi ==> r == n
    ensures n < lo && lo <= hi ==> r == lo
    ensures hi < n ==> r == hi
    ensures hi < lo ==> r == hi
  {
    Min(Max(n, lo), hi)
  }

  /**
   * The pointer position relative to the canvas's top-left corner, clamped on each axis to
   * `[margin, far side of the bounding rectangle - margin]`.
   */
  function GetMousePos(evt: Pointer, rect: Rect, margin: ScreenPoint): (pos: ScreenPoint)
    ensures margin.x <= rect.right - margin.x ==> margin.x <= pos.x <= rect.right - margin.x
    ensures margin.y <= rect.bottom - margin.y ==> margin.y <= pos.y <= rect.bottom - margin.y
    ensures margin.x <= evt.clientX - rect.left <= rect.right - margin.x ==> pos.x == evt.clientX - rect.left
    ensures margin.y <= evt.clientY - rect.top <= rect.bottom - margin.y ==> pos.y == evt.clientY - rect.top
  {
    ScreenPoint(
      Clamp(evt.clientX - rect.left, margin.x, rect.right - margin.x),
      Clamp(evt.clientY - rect.top, margin.y, rect.bottom - margin.y))
  }
}
