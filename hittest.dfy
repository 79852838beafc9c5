/**
 * What the coordinate maps of js/screen.js:53-111 promise about each other: the forward map
 * places points at cell centres, the inverse map turns a pointer inside the play area into a
 * grid edge chosen by the tie-break rule, and a point's own position maps back to it.
 */
module HitTest {
  import opened Wrappers
  import opened BoardShape
  import opened Coordinates

  /** How far a ratio is from the nearest lattice line, in grid units. */
  function Error(ratio: real): (e: real)
  {
    Abs(Round(ratio) as real - ratio)
  }

  /** Multiplying by a positive cell size preserves order both ways. */
  lemma ScaleOrder(u: real, v: real, b: real)
    requires b > 0.0
    ensures u <= v <==> u * b <= v * b
    ensures u == v <==> u * b == v * b
  {
    assert (v - u) * b == v * b - u * b;
  }

  /**
   * The play area (between the margins) is exactly the set of pointers whose ratios lie within
   * the grid: `[0, width - 1]` by `[0, height - 1]`.
   */
  lemma PlayAreaIsGridRange(canvas: Canvas, board: Board, sp: ScreenPoint)
    requires Playable(canvas, board)
    ensures InPlayArea(canvas, board, sp) <==>
      0.0 <= XRatio(canvas, board, sp) <= (board.width - 1) as real &&
      0.0 <= YRatio(canvas, board, sp) <= (board.height - 1) as real
  {
    CellFitsCanvas(canvas, board);
    var box, margin := BoxSize(canvas, board), ScreenMargin(canvas, board);
    var x, y := XRatio(canvas, board, sp), YRatio(canvas, board, sp);
    var kx, ky := (board.width - 1) as real, (board.height - 1) as real;
    assert x * box.x == sp.x - margin.x && y * box.y == sp.y - margin.y;
    assert kx * box.x == canvas.clientWidth - 2.0 * margin.x;
    assert ky * box.y == canvas.clientHeight - 2.0 * margin.y;
    ScaleOrder(0.0, x, box.x);
    ScaleOrder(x, kx, box.x);
    ScaleOrder(0.0, y, box.y);
    ScaleOrder(y, ky, box.y);
    assert 0.0 <= x <==> 0.0 * box.x <= x * box.x;
    assert x <= kx <==> x * box.x <= kx * box.x;
    assert 0.0 <= y <==> 0.0 * box.y <= y * box.y;
    assert y <= ky <==> y * box.y <= ky * box.y;
  }

  /** The position of point `p` lies on grid line `p % width` across and `p / width` down. */
  lemma {:induction false} RatiosAtPoint(canvas: Canvas, board: Board, p: int)
    requires Playable(canvas, board)
    ensures XRatio(canvas, board, MapPointToScreen(canvas, board, p)) == Rem(p, board.width) as real
    ensures YRatio(canvas, board, MapPointToScreen(canvas, board, p)) == Quot(p, board.width) as real
  {
    var sp := MapPointToScreen(canvas, board, p);
    CellFitsCanvas(canvas, board);
    ColumnAtPoint(canvas, board, p, sp);
    RowAtPoint(canvas, board, p, sp);
  }

  /** A centre `(c + 1/2) * b`, less the half-cell margin and divided by the cell `b`, is `c`. */
  lemma CentreOffset(r: real, c: real, b: real, at: real, m: real)
    requires b > 0.0 && at == (c + 0.5) * b && m == b / 2.0 && r * b == at - m
    ensures r == c
  {
    assert r * b == c * b;
    ScaleOrder(r, c, b);
  }

  lemma ColumnAtPoint(canvas: Canvas, board: Board, p: int, sp: ScreenPoint)
    requires Playable(canvas, board) && sp == MapPointToScreen(canvas, board, p)
    requires BoxSize(canvas, board).x > 0.0
    ensures XRatio(canvas, board, sp) == Rem(p, board.width) as real
  {
    CentreOffset(XRatio(canvas, board, sp), Rem(p, board.width) as real, BoxSize(canvas, board).x,
                 sp.x, ScreenMargin(canvas, board).x);
  }

  lemma RowAtPoint(canvas: Canvas, board: Board, p: int, sp: ScreenPoint)
    requires Playable(canvas, board) && sp == MapPointToScreen(canvas, board, p)
    requires BoxSize(canvas, board).y > 0.0
    ensures YRatio(canvas, board, sp) == Quot(p, board.width) as real
  {
    CentreOffset(YRatio(canvas, board, sp), Quot(p, board.width) as real, BoxSize(canvas, board).y,
                 sp.y, ScreenMargin(canvas, board).y);
  }

  /** An integer rounds to itself. */
  lemma RoundWhole(k: int)
    ensures Round(k as real) == k
  {
  }

  /**
   * Round trip: the screen position of any point `p` resolves to the endpoints `(p, p + width)`:
   * both rounding errors are zero, and the tie selects the vertical edge below `p`.
   */
  lemma RoundTrip(canvas: Canvas, board: Board, p: int)
    requires Playable(canvas, board)
    ensures HitEndpoints(canvas, board, MapPointToScreen(canvas, board, p)) == (p, p + board.width)
    ensures MapScreenToEdge(canvas, board, MapPointToScreen(canvas, board, p)) == GetEdge(board, p, p + board.width)
  {
    RatiosAtPoint(canvas, board, p);
    RoundWhole(Rem(p, board.width));
    RoundWhole(Quot(p, board.width));
  }

  /** The ratio's nearest integer stays within the grid's range when the ratio does. */
  lemma RoundInRange(r: real, k: int)
    requires 0.0 <= r <= k as real
    ensures 0 <= Round(r) <= k
  {
  }

  /**
   * Over grid ratios within `[0, w - 1]` x `[0, h - 1]`, and off the points of the last row, the
   * picked pair is two neighbouring grid points. The edge is horizontal exactly when the pointer
   * is strictly nearer a row line than a column line; a horizontal edge lies on the nearest row
   * between the two columns around the pointer, a vertical one on the nearest column between the
   * two rows around it.
   */
  lemma PickIsGridEdge(x: real, y: real, w: int, h: int)
    requires w >= 2 && h >= 2
    requires 0.0 <= x <= (w - 1) as real && 0.0 <= y <= (h - 1) as real
    requires !(y == (h - 1) as real && x == x.Floor as real)
    ensures var (p1, p2) := PickEndpoints(x, y, w);
      0 <= p1 && p2 < w * h &&
      (p2 == p1 + 1 <==> Error(y) < Error(x)) &&
      (p2 == p1 + 1 ==>
        p1 % w < w - 1 && Abs((p1 / w) as real - y) <= 0.5 && (p1 % w) as real <= x < (p1 % w + 1) as real) &&
      (p2 != p1 + 1 ==>
        p2 == p1 + w && p1 / w < h - 1 && Abs((p1 % w) as real - x) <= 0.5 && (p1 / w) as real <= y < (p1 / w + 1) as real)
  {
    if Error(y) < Error(x) {
      PickHorizontal(x, y, w, h);
    } else {
      PickVertical(x, y, w, h);
    }
  }

  /** Scaling by a positive size keeps the order of non-negative integers. */
  lemma ScaleLeq(a: int, b: int, n: int)
    requires 0 <= a <= b && n > 0
    ensures a * n <= b * n
  {
    if a < b {
      ProductAtLeast(b - a, n);
      assert b * n == a * n + (b - a) * n;
    }
  }

  /** Row `row` and column `col` of a `w` x `h` grid name a point on it, and its neighbours right and below. */
  lemma GridIndex(row: int, col: int, w: int, h: int)
    requires w >= 1 && 0 <= row < h && 0 <= col < w
    ensures 0 <= row * w + col < w * h
    ensures (row * w + col) / w == row && (row * w + col) % w == col
    ensures col < w - 1 ==> row * w + col + 1 < w * h
    ensures row < h - 1 ==> row * w + col + w < w * h
  {
    RowMajor(row, col, w);
    ScaleLeq(row, h - 1, w);
    assert (h - 1) * w + w == w * h;
    if row < h - 1 {
      ScaleLeq(row, h - 2, w);
      assert (h - 2) * w + w == (h - 1) * w;
    }
  }

  lemma PickHorizontal(x: real, y: real, w: int, h: int)
    requires w >= 2 && h >= 2
    requires 0.0 <= x <= (w - 1) as real && 0.0 <= y <= (h - 1) as real
    requires Error(y) < Error(x)
    ensures var (p1, p2) := PickEndpoints(x, y, w);
      0 <= p1 && p2 == p1 + 1 && p2 < w * h &&
      p1 % w < w - 1 && Abs((p1 / w) as real - y) <= 0.5 && (p1 % w) as real <= x < (p1 % w + 1) as real
  {
    var row, col := Round(y), x.Floor;
    RoundInRange(y, h - 1);
    if x == (w - 1) as real {
      RoundWhole(w - 1);
      assert false;
    }
    assert 0 <= col < w - 1;
    GridIndex(row, col, w, h);
    var p1 := row * w + col;
    assert PickEndpoints(x, y, w) == (p1, p1 + 1);
    assert p1 / w == row && p1 % w == col;
  }

  lemma PickVertical(x: real, y: real, w: int, h: int)
    requires w >= 2 && h >= 2
    requires 0.0 <= x <= (w - 1) as real && 0.0 <= y <= (h - 1) as real
    requires !(y == (h - 1) as real && x == x.Floor as real)
    requires !(Error(y) < Error(x))
    ensures var (p1, p2) := PickEndpoints(x, y, w);
      0 <= p1 && p2 == p1 + w && p2 < w * h &&
      p1 / w < h - 1 && Abs((p1 % w) as real - x) <= 0.5 && (p1 / w) as real <= y < (p1 / w + 1) as real
  {
    var row, col := y.Floor, Round(x);
    RoundInRange(x, w - 1);
    if y == (h - 1) as real {
      RoundWhole(h - 1);
      assert false;
    }
    assert 0 <= row < h - 1;
    GridIndex(row, col, w, h);
    var p1 := row * w + col;
    assert PickEndpoints(x, y, w) == (p1, p1 + w);
    assert p1 / w == row && p1 % w == col;
  }

  /** The same for a pointer on the canvas: inside the play area, off the last row's points. */
  lemma HitIsGridEdge(canvas: Canvas, board: Board, sp: ScreenPoint)
    requires Playable(canvas, board)
    requires InPlayArea(canvas, board, sp) && !AtLastRowPoint(canvas, board, sp)
    ensures var (p1, p2) := HitEndpoints(canvas, board, sp);
      var w, h := board.width, board.height;
      var x, y := XRatio(canvas, board, sp), YRatio(canvas, board, sp);
      0 <= p1 && p2 < w * h &&
      (p2 == p1 + 1 <==> Error(y) < Error(x)) &&
      (p2 == p1 + 1 ==>
        p1 % w < w - 1 && Abs((p1 / w) as real - y) <= 0.5 && (p1 % w) as real <= x < (p1 % w + 1) as real) &&
      (p2 != p1 + 1 ==>
        p2 == p1 + w && p1 / w < h - 1 && Abs((p1 % w) as real - x) <= 0.5 && (p1 / w) as real <= y < (p1 / w + 1) as real)
  {
    PlayAreaIsGridRange(canvas, board, sp);
    PickIsGridEdge(XRatio(canvas, board, sp), YRatio(canvas, board, sp), board.width, board.height);
  }

  /**
   * The dead zone: a pointer exactly at a point of the last row resolves to the vertical pair
   * `(p, p + width)`, whose second end lies beyond the grid, so no edge of the grid is selected.
   */
  lemma LastRowPointLeavesGrid(canvas: Canvas, board: Board, sp: ScreenPoint)
    requires Playable(canvas, board)
    requires InPlayArea(canvas, board, sp) && AtLastRowPoint(canvas, board, sp)
    ensures var (p1, p2) := HitEndpoints(canvas, board, sp);
      p2 == p1 + board.width && board.width * board.height <= p2
  {
    PlayAreaIsGridRange(canvas, board, sp);
    var h := board.height;
    var x := XRatio(canvas, board, sp);
    RoundWhole(h - 1);
    RoundWhole(x.Floor);
    assert Error(YRatio(canvas, board, sp)) == 0.0;
    assert Error(x) == 0.0;
    assert x.Floor >= 0;
  }

  /**
   * When the canvas sits at the page's top-left corner and its bounding rectangle is its client
   * area, every clamped pointer position lies in the play area.
   */
  lemma ClampedPointerInPlayArea(canvas: Canvas, board: Board, evt: Pointer, rect: Rect)
    requires Playable(canvas, board)
    requires rect == Rect(0.0, 0.0, canvas.clientWidth, canvas.clientHeight)
    ensures InPlayArea(canvas, board, GetMousePos(evt, rect, ScreenMargin(canvas, board)))
  {
    CellFitsCanvas(canvas, board);
  }

  /** A 3 x 3 board on a 300 x 300 canvas draws its centre point 4 at (150, 150). */
  lemma CentrePointExample()
    ensures MapPointToScreen(Canvas(300.0, 300.0, 300.0, 300.0), Board(3, 3, map[]), 4) == ScreenPoint(150.0, 150.0)
  {
    var canvas, board := Canvas(300.0, 300.0, 300.0, 300.0), Board(3, 3, map[]);
    assert Rem(4, 3) == 1 && Quot(4, 3) == 1;
  }

  /**
   * On that board a raw pointer at (50, 0), above the first row, resolves to the pair (-3, 0);
   * clamped into the play area, at (50, 50), it resolves to the vertical pair (0, 3).
   */
  lemma PointerAboveFirstRowExample()
    ensures HitEndpoints(Canvas(300.0, 300.0, 300.0, 300.0), Board(3, 3, map[]), ScreenPoint(50.0, 0.0)) == (-3, 0)
    ensures HitEndpoints(Canvas(300.0, 300.0, 300.0, 300.0), Board(3, 3, map[]), ScreenPoint(50.0, 50.0)) == (0, 3)
  {
    var canvas, board := Canvas(300.0, 300.0, 300.0, 300.0), Board(3, 3, map[]);
    assert XRatio(canvas, board, ScreenPoint(50.0, 0.0)) == 0.0;
    assert YRatio(canvas, board, ScreenPoint(50.0, 0.0)) == -0.5;
    assert Round(-0.5) == 0;
    assert (-0.5).Floor == -1;
    assert XRatio(canvas, board, ScreenPoint(50.0, 50.0)) == 0.0;
    assert YRatio(canvas, board, ScreenPoint(50.0, 50.0)) == 0.0;
  }
}
