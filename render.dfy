/**
 * The renderer's traversal (js/screen.js:1-51) and its move dispatch (js/screen.js:113-122).
 *
 * The Artist that does the pixel work is modelled as the list of calls made on it; each recorded
 * call also names the board entity it draws, so that the properties of a render pass can be
 * stated over the list.
 */
module Render {
  import opened Wrappers
  import opened BoardShape
  import opened Coordinates
  import opened Traversal

  /** One call made on the Artist. */
  datatype Call =
    | Cleared(width: real, height: real)
    | PointDrawn(point: int, via: Link, at: ScreenPoint, owner: Option<Player>)
    | FaceDrawn(face: Face, color: string, anchor: Option<ScreenPoint>, box: ScreenPoint)
    | EdgeDrawn(edge: Edge, from: int, to: int, a: ScreenPoint, b: ScreenPoint, owner: Option<Player>)

  // ---------------------------------------------------------------------------------------------
  // The anchor of a face (js/screen.js:31-33)

  /** `face.edges.flatMap(e => e.ends)`: the ends of the bounding edges, in order. */
  function Corners(sides: seq<seq<int>>): (points: seq<int>)
  {
    if sides == [] then [] else sides[0] + Corners(sides[1..])
  }

  /** The set of all ends of the bounding edges: their deduplicated union. */
  ghost function CornerSet(sides: seq<seq<int>>): (points: set<int>)
  {
    set i, j | 0 <= i < |sides| && 0 <= j < |sides[i]| :: sides[i][j]
  }

  /** Flattening the sides keeps exactly the points of their union. */
  lemma {:induction false} CornersAreCornerSet(sides: seq<seq<int>>)
    ensures forall k :: k in Corners(sides) <==> k in CornerSet(sides)
  {
    if sides != [] {
      var rest := sides[1..];
      CornersAreCornerSet(rest);
      forall k | k in CornerSet(sides)
        ensures k in sides[0] || k in CornerSet(rest)
      {
        var i, j :| 0 <= i < |sides| && 0 <= j < |sides[i]| && sides[i][j] == k;
        if i > 0 {
          assert rest[i - 1][j] == k;
        }
      }
      forall k | k in sides[0] || k in CornerSet(rest)
        ensures k in CornerSet(sides)
      {
        if k in sides[0] {
          var j :| 0 <= j < |sides[0]| && sides[0][j] == k;
          assert sides[0][j] == k;
        } else {
          var i, j :| 0 <= i < |rest| && 0 <= j < |rest[i]| && rest[i][j] == k;
          assert sides[i + 1][j] == k;
        }
      }
    }
  }

  /** `s.reduce((min, p) => Math.min(min, p), acc)`: the least of `acc` and the elements of `s`. */
  function FoldMin(acc: int, s: seq<int>): (m: int)
    ensures m <= acc && forall i :: 0 <= i < |s| ==> m <= s[i]
    ensures m == acc || m in s
    decreases |s|
  {
    if s == [] then acc else FoldMin(if s[0] < acc then s[0] else acc, s[1..])
  }

  /**
   * The point a face is drawn at: the least index among the ends of its edges, or `None` when
   * its edges list no ends (where the source computes an undefined position).
   */
  function FaceAnchor(face: Face): (a: Option<int>)
    ensures a.None? <==> CornerSet(face.sides) == {}
    ensures a.Some? ==> a.value in CornerSet(face.sides)
    ensures a.Some? ==> forall k :: k in CornerSet(face.sides) ==> a.value <= k
  {
    var points := Corners(face.sides);
    CornersAreCornerSet(face.sides);
    if points == [] then
      assert forall k :: k !in CornerSet(face.sides);
      None
    else
      assert points[0] in points;
      var m := FoldMin(points[0], points[1..]);
      assert forall k :: k in points ==> m <= k by {
        forall k | k in points ensures m <= k {
          var i :| 0 <= i < |points| && points[i] == k;
          if i > 0 { assert points[1..][i - 1] == k; }
        }
      }
      Some(m)
  }

  /** The screen position of a face's anchor: that of the least of its corner points. */
  function AnchorOnScreen(canvas: Canvas, board: Board, face: Face): (at: Option<ScreenPoint>)
    requires Sized(board)
    ensures at.None? <==> CornerSet(face.sides) == {}
    ensures at.Some? ==>
      exists k :: k in CornerSet(face.sides) && at.value == MapPointToScreen(canvas, board, k) &&
        forall j :: j in CornerSet(face.sides) ==> k <= j
  {
    match FaceAnchor(face)
    case None => None
    case Some(m) => Some(MapPointToScreen(canvas, board, m))
  }

  // ---------------------------------------------------------------------------------------------
  // What a render pass promises about the calls it makes

  /** A call made after the initial clear draws what the board says, where the board says. */
  ghost predicate Faithful(canvas: Canvas, board: Board, c: Call)
    requires Sized(board)
  {
    var pool := board.edgePool;
    match c
    case Cleared(_, _) => false
    case PointDrawn(p, via, at, owner) =>
      p in pool && via in pool[p] && owner == via.edge.owner && at == MapPointToScreen(canvas, board, p)
    case FaceDrawn(f, color, anchor, box) =>
      f in FacesOf(pool) && f.owner.Some? && color == f.owner.value.color &&
      anchor == AnchorOnScreen(canvas, board, f) && box == BoxSize(canvas, board)
    case EdgeDrawn(e, from, to, a, b, owner) =>
      from in pool && Link(to, e) in pool[from] && owner == e.owner &&
      a == MapPointToScreen(canvas, board, from) && b == MapPointToScreen(canvas, board, to)
  }

  /** No edge identity is drawn twice. */
  ghost predicate EdgesOnce(out: seq<Call>)
  {
    forall i, j :: 0 <= i < j < |out| && out[i].EdgeDrawn? && out[j].EdgeDrawn? ==> out[i].edge.id != out[j].edge.id
  }

  /** No face identity is drawn twice. */
  ghost predicate FacesOnce(out: seq<Call>)
  {
    forall i, j :: 0 <= i < j < |out| && out[i].FaceDrawn? && out[j].FaceDrawn? ==> out[i].face.id != out[j].face.id
  }

  /**
   * The calls of one render pass: a clear of the whole canvas, then faithful point, face and edge
   * calls, each edge and each face at most once, and only owned faces.
   */
  ghost predicate Rendered(canvas: Canvas, board: Board, out: seq<Call>)
    requires Sized(board)
  {
    |out| >= 1 && out[0] == Cleared(canvas.width, canvas.height) &&
    (forall i :: 1 <= i < |out| ==> Faithful(canvas, board, out[i])) &&
    EdgesOnce(out) && FacesOnce(out)
  }

  /** The points of the point calls, in the order they were made. */
  function CalledPoints(out: seq<Call>): (points: seq<int>)
  {
    if out == [] then []
    else
      var last := out[|out| - 1];
      CalledPoints(out[..|out| - 1]) + if last.PointDrawn? then [last.point] else []
  }

  ghost function EdgeIds(out: seq<Call>): (ids: set<EdgeId>)
  {
    set i | 0 <= i < |out| && out[i].EdgeDrawn? :: out[i].edge.id
  }

  ghost function FaceIds(out: seq<Call>): (ids: set<FaceId>)
  {
    set i | 0 <= i < |out| && out[i].FaceDrawn? :: out[i].face.id
  }

  /**
   * The calls so far form a render pass, and the `alreadyDrawn` list records exactly its edges
   * and faces; its point entries and the point calls name the same points in the same order.
   */
  ghost predicate Progress(canvas: Canvas, board: Board, out: seq<Call>, drawn: seq<Mark>)
    requires Sized(board)
  {
    Rendered(canvas, board, out) && CalledPoints(out) == ListedPoints(drawn) &&
    (forall i :: 0 <= i < |out| && out[i].EdgeDrawn? ==> EdgeMark(out[i].edge.id) in drawn) &&
    (forall i :: 0 <= i < |out| && out[i].FaceDrawn? ==> FaceMark(out[i].face.id) in drawn) &&
    (forall id :: EdgeMark(id) in drawn ==> id in EdgeIds(out)) &&
    (forall id :: FaceMark(id) in drawn ==> id in FaceIds(out))
  }

  /** Appending a call keeps the edges and faces already drawn. */
  lemma IdsGrow(out: seq<Call>, c: Call)
    ensures EdgeIds(out) <= EdgeIds(out + [c]) && FaceIds(out) <= FaceIds(out + [c])
  {
    var out' := out + [c];
    forall id | id in EdgeIds(out) ensures id in EdgeIds(out') {
      var i :| 0 <= i < |out| && out[i].EdgeDrawn? && out[i].edge.id == id;
      assert out'[i] == out[i];
    }
    forall id | id in FaceIds(out) ensures id in FaceIds(out') {
      var i :| 0 <= i < |out| && out[i].FaceDrawn? && out[i].face.id == id;
      assert out'[i] == out[i];
    }
  }

  /** The entry of the `alreadyDrawn` list that goes with a drawing call. */
  function MarkOf(c: Call): (m: Mark)
    requires !c.Cleared?
  {
    match c
    case PointDrawn(p, _, _, _) => PointMark(p)
    case FaceDrawn(f, _, _, _) => FaceMark(f.id)
    case EdgeDrawn(e, _, _, _, _, _) => EdgeMark(e.id)
  }

  /** Appending a call and its mark adds the same point, if any, to the points called and listed. */
  lemma PointsGrow(out: seq<Call>, drawn: seq<Mark>, c: Call)
    requires !c.Cleared? && CalledPoints(out) == ListedPoints(drawn)
    ensures CalledPoints(out + [c]) == ListedPoints(drawn + [MarkOf(c)])
  {
    assert (out + [c])[..|out|] == out && (drawn + [MarkOf(c)])[..|drawn|] == drawn;
  }

  /**
   * Appending a faithful call together with its mark keeps a render pass well formed, provided
   * an edge or face call draws something not yet in the list.
   */
  lemma ProgressAfter(canvas: Canvas, board: Board, out: seq<Call>, drawn: seq<Mark>, c: Call)
    requires Sized(board) && Progress(canvas, board, out, drawn) && Faithful(canvas, board, c)
    requires !c.PointDrawn? ==> MarkOf(c) !in drawn
    ensures Progress(canvas, board, out + [c], drawn + [MarkOf(c)])
  {
    var out', drawn' := out + [c], drawn + [MarkOf(c)];
    IdsGrow(out, c);
    PointsGrow(out, drawn, c);
    assert out'[|out|] == c;
    forall i | 1 <= i < |out'|
      ensures Faithful(canvas, board, out'[i])
    {
      if i < |out| {
        assert out'[i] == out[i];
      }
    }
    forall i, j | 0 <= i < j < |out'| && out'[i].EdgeDrawn? && out'[j].EdgeDrawn?
      ensures out'[i].edge.id != out'[j].edge.id
    {
      assert out'[i] == out[i];
      if j < |out| {
        assert out'[j] == out[j];
      } else {
        assert EdgeMark(out[i].edge.id) in drawn;
      }
    }
    forall i, j | 0 <= i < j < |out'| && out'[i].FaceDrawn? && out'[j].FaceDrawn?
      ensures out'[i].face.id != out'[j].face.id
    {
      assert out'[i] == out[i];
      if j < |out| {
        assert out'[j] == out[j];
      } else {
        assert FaceMark(out[i].face.id) in drawn;
      }
    }
    forall i | 0 <= i < |out'| && out'[i].EdgeDrawn?
      ensures EdgeMark(out'[i].edge.id) in drawn'
    {
      if i < |out| {
        assert out'[i] == out[i];
      }
    }
    forall i | 0 <= i < |out'| && out'[i].FaceDrawn?
      ensures FaceMark(out'[i].face.id) in drawn'
    {
      if i < |out| {
        assert out'[i] == out[i];
      }
    }
    forall id | EdgeMark(id) in drawn'
      ensures id in EdgeIds(out')
    {
      if EdgeMark(id) !in drawn {
        assert c.EdgeDrawn? && c.edge.id == id;
      }
    }
    forall id | FaceMark(id) in drawn'
      ensures id in FaceIds(out')
    {
      if FaceMark(id) !in drawn {
        assert c.FaceDrawn? && c.face.id == id;
      }
    }
  }

  lemma ProgressAfterPoint(canvas: Canvas, board: Board, out: seq<Call>, drawn: seq<Mark>, p: int, via: Link)
    requires Sized(board) && Progress(canvas, board, out, drawn)
    requires p in board.edgePool && via in board.edgePool[p]
    ensures Progress(canvas, board,
      out + [PointDrawn(p, via, MapPointToScreen(canvas, board, p), via.edge.owner)],
      drawn + [PointMark(p)])
  {
    ProgressAfter(canvas, board, out, drawn, PointDrawn(p, via, MapPointToScreen(canvas, board, p), via.edge.owner));
  }

  lemma ProgressAfterFace(canvas: Canvas, board: Board, out: seq<Call>, drawn: seq<Mark>, p: int, via: Link, f: Face)
    requires Sized(board) && Progress(canvas, board, out, drawn)
    requires p in board.edgePool && via in board.edgePool[p] && f in via.edge.faces
    requires f.owner.Some? && FaceMark(f.id) !in drawn
    ensures Progress(canvas, board,
      out + [FaceDrawn(f, f.owner.value.color, AnchorOnScreen(canvas, board, f), BoxSize(canvas, board))],
      drawn + [FaceMark(f.id)])
  {
    assert f in FacesOf(board.edgePool);
    ProgressAfter(canvas, board, out, drawn,
      FaceDrawn(f, f.owner.value.color, AnchorOnScreen(canvas, board, f), BoxSize(canvas, board)));
  }

  lemma ProgressAfterEdge(canvas: Canvas, board: Board, out: seq<Call>, drawn: seq<Mark>, p: int, via: Link)
    requires Sized(board) && Progress(canvas, board, out, drawn)
    requires p in board.edgePool && via in board.edgePool[p]
    requires EdgeMark(via.edge.id) !in drawn
    ensures Progress(canvas, board,
      out + [EdgeDrawn(via.edge, p, via.to, MapPointToScreen(canvas, board, p),
                       MapPointToScreen(canvas, board, via.to), via.edge.owner)],
      drawn + [EdgeMark(via.edge.id)])
  {
    ProgressAfter(canvas, board, out, drawn,
      EdgeDrawn(via.edge, p, via.to, MapPointToScreen(canvas, board, p),
                MapPointToScreen(canvas, board, via.to), via.edge.owner));
  }

  // ---------------------------------------------------------------------------------------------
  // The calls of a render pass, along the walk

  /** Line 25: point `p` drawn at its screen position, styled by the owner of its entry `link`. */
  function PointCall(canvas: Canvas, board: Board, p: int, link: Link): (c: Call)
    requires Sized(board)
  {
    PointDrawn(p, link, MapPointToScreen(canvas, board, p), link.edge.owner)
  }

  /** Line 34: an owned face drawn at its anchor in its owner's colour. */
  function FaceCall(canvas: Canvas, board: Board, f: Face): (c: Call)
    requires Sized(board) && f.owner.Some?
  {
    FaceDrawn(f, f.owner.value.color, AnchorOnScreen(canvas, board, f), BoxSize(canvas, board))
  }

  /** Line 42: the edge of entry `link` drawn from the screen position of `p` to that of its end. */
  function EdgeCall(canvas: Canvas, board: Board, p: int, link: Link): (c: Call)
    requires Sized(board)
  {
    EdgeDrawn(link.edge, p, link.to, MapPointToScreen(canvas, board, p),
              MapPointToScreen(canvas, board, link.to), link.edge.owner)
  }

  /** The face calls of lines 29-37, made alongside `FaceMarks`. */
  function FaceCalls(canvas: Canvas, board: Board, faces: seq<Face>, drawn: seq<Mark>): (calls: seq<Call>)
    requires Sized(board)
    decreases |faces|
  {
    if faces == [] then []
    else
      var f := faces[0];
      if f.owner.Some? && FaceMark(f.id) !in drawn then
        [FaceCall(canvas, board, f)] + FaceCalls(canvas, board, faces[1..], drawn + [FaceMark(f.id)])
      else FaceCalls(canvas, board, faces[1..], drawn)
  }

  /** The calls for one entry of point `p` (lines 22-48), made alongside `LinkStep`. */
  function LinkCalls(canvas: Canvas, board: Board, p: int, link: Link, drawn: seq<Mark>): (calls: seq<Call>)
    requires Sized(board)
  {
    var m1 := MarkPoint(drawn, p, link.to);
    var m2 := FaceMarks(link.edge.faces, m1);
    (if PointMark(link.to) in drawn then [] else [PointCall(canvas, board, p, link)]) +
    FaceCalls(canvas, board, link.edge.faces, m1) +
    (if EdgeMark(link.edge.id) in m2 then [] else [EdgeCall(canvas, board, p, link)])
  }

  /** The calls of the turn of point `p` over its entries `links`, made alongside `PointTurn`. */
  function TurnCalls(canvas: Canvas, board: Board, p: int, links: seq<Link>, w: Walk): (calls: seq<Call>)
    requires Sized(board)
    decreases |links|
  {
    if links == [] then []
    else LinkCalls(canvas, board, p, links[0], w.marks) + TurnCalls(canvas, board, p, links[1..], LinkStep(p, links[0], w))
  }

  /** The calls of the walk from `w` to its end, made alongside `Run`. */
  ghost function RunCalls(canvas: Canvas, board: Board, w: Walk): (calls: seq<Call>)
    requires Sized(board) && Frontier(board, w.queue, w.marks)
    decreases Universe(board.edgePool) - PointsMarked(w.marks), |w.queue|
  {
    if w.queue == [] || w.queue[0] !in board.edgePool then []
    else
      var p := w.queue[0];
      TurnKeepsFrontier(board, w.queue, w.marks);
      TurnProgresses(board, w.queue, w.marks);
      TurnCalls(canvas, board, p, board.edgePool[p], Walk(w.queue[1..], w.marks)) +
      RunCalls(canvas, board, PointTurn(p, board.edgePool[p], Walk(w.queue[1..], w.marks)))
  }

  /** The calls of a render pass after its clear: those of the walk from point 0 alone. */
  ghost function PassCalls(canvas: Canvas, board: Board): (calls: seq<Call>)
    requires Sized(board)
  {
    assert Frontier(board, [0], []);
    RunCalls(canvas, board, Walk([0], []))
  }

  /** A turn from `w` to `next` makes its calls and leaves the rest of the walk's calls to `next`. */
  lemma CallsChain(canvas: Canvas, board: Board, w: Walk, next: Walk)
    requires Sized(board) && Frontier(board, w.queue, w.marks) && w.queue != [] && w.queue[0] in board.edgePool
    requires PointTurn(w.queue[0], board.edgePool[w.queue[0]], Walk(w.queue[1..], w.marks)) == next
    ensures Frontier(board, next.queue, next.marks)
    ensures RunCalls(canvas, board, w) ==
      TurnCalls(canvas, board, w.queue[0], board.edgePool[w.queue[0]], Walk(w.queue[1..], w.marks)) +
      RunCalls(canvas, board, next)
  {
    TurnKeepsFrontier(board, w.queue, w.marks);
  }

  /** One face of the loop of lines 29-37: its mark and its call, if it is owned and not yet listed. */
  lemma FaceStep(canvas: Canvas, board: Board, faces: seq<Face>, i: int, drawn: seq<Mark>)
    requires Sized(board) && 0 <= i < |faces|
    ensures var f := faces[i];
      var drawNow := f.owner.Some? && FaceMark(f.id) !in drawn;
      var next := if drawNow then drawn + [FaceMark(f.id)] else drawn;
      FaceMarks(faces[i..], drawn) == FaceMarks(faces[i + 1..], next) &&
      FaceCalls(canvas, board, faces[i..], drawn) ==
        (if drawNow then [FaceCall(canvas, board, f)] else []) + FaceCalls(canvas, board, faces[i + 1..], next)
  {
    assert faces[i..][1..] == faces[i + 1..];
  }

  /** Appending two runs of calls in turn appends them joined. */
  lemma AppendSteps(out: seq<Call>, a: seq<Call>, b: seq<Call>)
    ensures (out + a) + b == out + (a + b)
  {
  }

  /** Appending three runs of list entries in turn appends them joined. */
  lemma MarkSteps(drawn: seq<Mark>, a: seq<Mark>, b: seq<Mark>, c: seq<Mark>)
    ensures drawn + (a + b + c) == ((drawn + a) + b) + c
  {
  }

  /** The face calls along an entry's edge keep a render pass well formed, in step with `FaceMarks`. */
  lemma {:induction false} FaceCallsKeepProgress(canvas: Canvas, board: Board, p: int, via: Link, faces: seq<Face>,
                                                 out: seq<Call>, drawn: seq<Mark>)
    requires Sized(board) && Progress(canvas, board, out, drawn)
    requires p in board.edgePool && via in board.edgePool[p] && forall f :: f in faces ==> f in via.edge.faces
    ensures Progress(canvas, board, out + FaceCalls(canvas, board, faces, drawn), FaceMarks(faces, drawn))
    decreases |faces|
  {
    if faces == [] {
      assert out + [] == out;
    } else {
      var f := faces[0];
      assert f in faces;
      if f.owner.Some? && FaceMark(f.id) !in drawn {
        var c, next := FaceCall(canvas, board, f), drawn + [FaceMark(f.id)];
        ProgressAfterFace(canvas, board, out, drawn, p, via, f);
        FaceCallsKeepProgress(canvas, board, p, via, faces[1..], out + [c], next);
        AppendSteps(out, [c], FaceCalls(canvas, board, faces[1..], next));
      } else {
        FaceCallsKeepProgress(canvas, board, p, via, faces[1..], out, drawn);
      }
    }
  }

  /** The list entries that a run of calls records, in order; a clear records none. */
  function MarksOf(calls: seq<Call>): (marks: seq<Mark>)
  {
    if calls == [] then []
    else (if calls[0].Cleared? then [] else [MarkOf(calls[0])]) + MarksOf(calls[1..])
  }

  lemma {:induction false} MarksOfAppend(a: seq<Call>, b: seq<Call>)
    ensures MarksOf(a + b) == MarksOf(a) + MarksOf(b)
  {
    if a != [] {
      assert (a + b)[1..] == a[1..] + b;
      MarksOfAppend(a[1..], b);
    } else {
      assert a + b == b;
    }
  }

  /** The face calls record exactly the entries `FaceMarks` adds to the list, in order. */
  lemma {:induction false} FaceCallsMarks(canvas: Canvas, board: Board, faces: seq<Face>, drawn: seq<Mark>)
    requires Sized(board)
    ensures drawn + MarksOf(FaceCalls(canvas, board, faces, drawn)) == FaceMarks(faces, drawn)
    decreases |faces|
  {
    if faces != [] {
      var f := faces[0];
      if f.owner.Some? && FaceMark(f.id) !in drawn {
        var next := drawn + [FaceMark(f.id)];
        FaceCallsMarks(canvas, board, faces[1..], next);
        MarksOfAppend([FaceCall(canvas, board, f)], FaceCalls(canvas, board, faces[1..], next));
        assert MarksOf([FaceCall(canvas, board, f)]) == [FaceMark(f.id)];
      } else {
        FaceCallsMarks(canvas, board, faces[1..], drawn);
      }
    }
  }

  /** The calls for one entry record exactly the entries `LinkStep` adds to the list, in order. */
  lemma LinkCallsMarks(canvas: Canvas, board: Board, p: int, link: Link, drawn: seq<Mark>)
    requires Sized(board)
    ensures drawn + MarksOf(LinkCalls(canvas, board, p, link, drawn)) == LinkStep(p, link, Walk([], drawn)).marks
  {
    var m1 := MarkPoint(drawn, p, link.to);
    var m2 := FaceMarks(link.edge.faces, m1);
    var pc := if PointMark(link.to) in drawn then [] else [PointCall(canvas, board, p, link)];
    var fc := FaceCalls(canvas, board, link.edge.faces, m1);
    var ec := if EdgeMark(link.edge.id) in m2 then [] else [EdgeCall(canvas, board, p, link)];
    assert LinkCalls(canvas, board, p, link, drawn) == pc + fc + ec;
    MarksOfAppend(pc, fc);
    MarksOfAppend(pc + fc, ec);
    FaceCallsMarks(canvas, board, link.edge.faces, m1);
    assert drawn + MarksOf(pc) == m1 by {
      if pc != [] {
        assert MarksOf(pc) == [PointMark(p)] + MarksOf([]);
      }
    }
    assert m2 + MarksOf(ec) == MarkEdge(m2, link.edge) by {
      if ec != [] {
        assert MarksOf(ec) == [EdgeMark(link.edge.id)] + MarksOf([]);
      } else {
        assert m2 + [] == m2;
      }
    }
    MarkSteps(drawn, MarksOf(pc), MarksOf(fc), MarksOf(ec));
  }


  /** The calls of a turn record exactly the entries `PointTurn` adds to the list, in order. */
  lemma {:induction false} TurnCallsMarks(canvas: Canvas, board: Board, p: int, links: seq<Link>, w: Walk)
    requires Sized(board)
    ensures w.marks + MarksOf(TurnCalls(canvas, board, p, links, w)) == PointTurn(p, links, w).marks
    decreases |links|
  {
    if links != [] {
      var next := LinkStep(p, links[0], w);
      LinkCallsMarks(canvas, board, p, links[0], w.marks);
      assert next.marks == LinkStep(p, links[0], Walk([], w.marks)).marks;
      TurnCallsMarks(canvas, board, p, links[1..], next);
      MarksOfAppend(LinkCalls(canvas, board, p, links[0], w.marks), TurnCalls(canvas, board, p, links[1..], next));
    }
  }

  /** The calls of the walk from `w` record exactly the entries `Run` adds to the list, in order. */
  lemma {:induction false} RunCallsMarks(canvas: Canvas, board: Board, w: Walk)
    requires Sized(board) && Frontier(board, w.queue, w.marks)
    ensures w.marks + MarksOf(RunCalls(canvas, board, w)) == Run(board, w).marks
    decreases Universe(board.edgePool) - PointsMarked(w.marks), |w.queue|
  {
    if w.queue != [] && w.queue[0] in board.edgePool {
      var p := w.queue[0];
      var start := Walk(w.queue[1..], w.marks);
      var next := PointTurn(p, board.edgePool[p], start);
      CallsChain(canvas, board, w, next);
      RunChain(board, w, next);
      TurnProgresses(board, w.queue, w.marks);
      TurnCallsMarks(canvas, board, p, board.edgePool[p], start);
      RunCallsMarks(canvas, board, next);
      MarksOfAppend(TurnCalls(canvas, board, p, board.edgePool[p], start), RunCalls(canvas, board, next));
    }
  }

  /** The calls of a render pass record exactly the `alreadyDrawn` list of its walk. */
  lemma PassCallsMarks(canvas: Canvas, board: Board)
    requires Sized(board)
    ensures MarksOf(PassCalls(canvas, board)) == Pass(board).marks
  {
    assert Frontier(board, [0], []);
    RunCallsMarks(canvas, board, Walk([0], []));
  }

  /**
   * What a whole render pass of `board` promises. The calls are a clear followed by faithful
   * calls, each edge and each face at most once. What is drawn is what the walk `Pass` lists:
   * the point calls follow its point entries one for one and in order, so a point is drawn once
   * for every entry whose end is not yet listed (line 24), and the edges and faces drawn are
   * those it lists. `completed` says the walk emptied its queue, as it does on a closed board.
   * Every point drawn had its turn. When the pass completes, point 0 had its turn and is drawn if
   * it has an entry; the visited points are closed under the pool's entries; and each entry of a
   * visited point has its edge, its owned faces and at least one of its two ends drawn.
   */
  ghost predicate RenderPass(canvas: Canvas, board: Board, completed: bool, visited: set<int>, out: seq<Call>)
    requires Sized(board)
  {
    var pool, walk := board.edgePool, Pass(board);
    Rendered(canvas, board, out) &&
    (completed <==> walk.queue == []) &&
    CalledPoints(out) == ListedPoints(walk.marks) &&
    (forall id :: id in EdgeIds(out) <==> EdgeMark(id) in walk.marks) &&
    (forall id :: id in FaceIds(out) <==> FaceMark(id) in walk.marks) &&
    (Closed(board) ==> completed) &&
    visited <= pool.Keys &&
    (forall q :: q in CalledPoints(out) ==> q in visited) &&
    (completed ==> 0 in visited && (pool[0] != [] ==> 0 in CalledPoints(out))) &&
    (completed ==> forall v, l :: v in visited && l in pool[v] ==>
      l.to in visited && l.edge.id in EdgeIds(out) && (v in CalledPoints(out) || l.to in CalledPoints(out)) &&
      forall f :: f in l.edge.faces && f.owner.Some? ==> f.id in FaceIds(out))
  }

  /** Where the traversal stops, with its queue empty or its head missing from the pool, the calls form a render pass. */
  lemma PassAtEnd(canvas: Canvas, board: Board, completed: bool, visited: set<int>, out: seq<Call>,
                  toVisit: seq<int>, drawn: seq<Mark>)
    requires Sized(board) && Progress(canvas, board, out, drawn)
    requires Frontier(board, toVisit, drawn) && Explored(board, visited, toVisit, drawn)
    requires EndsMet(board, visited, drawn) && StartDrawn(board, visited, toVisit, drawn)
    requires Run(board, Walk(toVisit, drawn)) == Pass(board)
    requires (completed <==> toVisit == []) && (toVisit != [] ==> toVisit[0] !in board.edgePool)
    ensures RenderPass(canvas, board, completed, visited, out)
  {
    assert Pass(board) == Walk(toVisit, drawn);
    forall q ensures q in CalledPoints(out) <==> PointMark(q) in drawn {
      ListedPointsMeans(drawn, q);
    }
    forall id | id in EdgeIds(out) ensures EdgeMark(id) in drawn {
      var i :| 0 <= i < |out| && out[i].EdgeDrawn? && out[i].edge.id == id;
    }
    forall id | id in FaceIds(out) ensures FaceMark(id) in drawn {
      var i :| 0 <= i < |out| && out[i].FaceDrawn? && out[i].face.id == id;
    }
    if toVisit != [] {
      assert toVisit[0] in toVisit;
    }
  }

  /**
   * On the 2 x 2 board a render pass completes and draws point 0 twice, points 1 and 2 once each
   * and point 3 never: the test of line 24 looks at the entry's end, and by the turn of point 3
   * both its ends are listed.
   */
  lemma TwoByTwoPointCalls(canvas: Canvas, board: Board, completed: bool, visited: set<int>, out: seq<Call>)
    requires board == TwoByTwo() && RenderPass(canvas, board, completed, visited, out)
    ensures completed && CalledPoints(out) == [0, 0, 1, 2]
  {
    TwoByTwoPass(board);
  }

  // ---------------------------------------------------------------------------------------------
  // The drawing surface and the renderer

  /** The drawing surface, seen as the list of calls made on it. */
  class Artist {
    var calls: seq<Call>

    constructor ()
      ensures calls == []
    {
      calls := [];
    }

    method Clear(width: real, height: real)
      modifies this
      ensures calls == old(calls) + [Cleared(width, height)]
    {
      calls := calls + [Cleared(width, height)];
    }

    method DrawPoint(point: int, via: Link, at: ScreenPoint, owner: Option<Player>)
      modifies this
      ensures calls == old(calls) + [PointDrawn(point, via, at, owner)]
    {
      calls := calls + [PointDrawn(point, via, at, owner)];
    }

    method DrawFace(face: Face, color: string, anchor: Option<ScreenPoint>, box: ScreenPoint)
      modifies this
      ensures calls == old(calls) + [FaceDrawn(face, color, anchor, box)]
    {
      calls := calls + [FaceDrawn(face, color, anchor, box)];
    }

    method DrawEdge(edge: Edge, from: int, to: int, a: ScreenPoint, b: ScreenPoint, owner: Option<Player>)
      modifies this
      ensures calls == old(calls) + [EdgeDrawn(edge, from, to, a, b, owner)]
    {
      calls := calls + [EdgeDrawn(edge, from, to, a, b, owner)];
    }
  }

  class Screen {
    const canvas: Canvas
    const artist: Artist

    constructor (canvas: Canvas)
      ensures this.canvas == canvas && fresh(artist) && artist.calls == []
    {
      this.canvas := canvas;
      artist := new Artist();
    }

    /**
     * The faces along the edge of entry `via` of point `p` (lines 29-37): each owned face not yet
     * in the list is drawn at its anchor in its owner's colour and added to the list.
     */
    method DrawFaces(board: Board, p: int, via: Link, boxsize: ScreenPoint, drawn: seq<Mark>,
                     ghost prefix: seq<Call>, ghost out: seq<Call>)
      returns (marks: seq<Mark>, ghost out': seq<Call>)
      requires Sized(board) && boxsize == BoxSize(canvas, board)
      requires p in board.edgePool && via in board.edgePool[p]
      requires Progress(canvas, board, out, drawn) && artist.calls == prefix + out
      modifies artist
      ensures Progress(canvas, board, out', marks) && artist.calls == prefix + out'
      ensures marks == FaceMarks(via.edge.faces, drawn)
      ensures out' == out + FaceCalls(canvas, board, via.edge.faces, drawn)
    {
      var faces := via.edge.faces;
      marks, out' := drawn, out;
      var i := 0;
      while i < |faces|
        invariant 0 <= i <= |faces|
        invariant artist.calls == prefix + out'
        invariant FaceMarks(faces[i..], marks) == FaceMarks(faces, drawn)
        invariant out' + FaceCalls(canvas, board, faces[i..], marks) == out + FaceCalls(canvas, board, faces, drawn)
      {
        var face := faces[i];
        FaceStep(canvas, board, faces, i, marks);
        if face.owner.Some? && FaceMark(face.id) !in marks {
          var loc := AnchorOnScreen(canvas, board, face);
          artist.DrawFace(face, face.owner.value.color, loc, boxsize);
          AppendSteps(out', [FaceCall(canvas, board, face)],
                      FaceCalls(canvas, board, faces[i + 1..], marks + [FaceMark(face.id)]));
          out' := out' + [FaceDrawn(face, face.owner.value.color, loc, boxsize)];
          marks := marks + [FaceMark(face.id)];
        }
        i := i + 1;
      }
      assert out' == out + FaceCalls(canvas, board, faces, drawn);
      FaceCallsKeepProgress(canvas, board, p, via, faces, out, drawn);
    }

    /**
     * Lines 24-27: when the end of entry `link` is not in the list, draw the current point `p`,
     * styled by the entry's edge owner, and add `p` to the list.
     */
    method DrawPointStep(board: Board, p: int, link: Link, sp: ScreenPoint, drawn: seq<Mark>,
                         ghost prefix: seq<Call>, ghost out: seq<Call>)
      returns (marks: seq<Mark>, ghost out': seq<Call>)
      requires Sized(board) && sp == MapPointToScreen(canvas, board, p)
      requires p in board.edgePool && link in board.edgePool[p]
      requires Progress(canvas, board, out, drawn) && artist.calls == prefix + out
      modifies artist
      ensures Progress(canvas, board, out', marks) && artist.calls == prefix + out'
      ensures marks == MarkPoint(drawn, p, link.to)
      ensures out' == out + if PointMark(link.to) in drawn then [] else [PointDrawn(p, link, sp, link.edge.owner)]
    {
      if PointMark(link.to) in drawn {
        marks, out' := drawn, out;
        assert out + [] == out;
      } else {
        artist.DrawPoint(p, link, sp, link.edge.owner);
        ProgressAfterPoint(canvas, board, out, drawn, p, link);
        out' := out + [PointDrawn(p, link, sp, link.edge.owner)];
        marks := drawn + [PointMark(p)];
      }
    }

    /**
     * Lines 39-44: when the edge of entry `link` is not in the list, draw it between the screen
     * positions of `p` and the entry's end, and add it to the list.
     */
    method DrawEdgeStep(board: Board, p: int, link: Link, sp: ScreenPoint, drawn: seq<Mark>,
                        ghost prefix: seq<Call>, ghost out: seq<Call>)
      returns (marks: seq<Mark>, ghost out': seq<Call>)
      requires Sized(board) && sp == MapPointToScreen(canvas, board, p)
      requires p in board.edgePool && link in board.edgePool[p]
      requires Progress(canvas, board, out, drawn) && artist.calls == prefix + out
      modifies artist
      ensures Progress(canvas, board, out', marks) && artist.calls == prefix + out'
      ensures marks == MarkEdge(drawn, link.edge)
      ensures out' == out + if EdgeMark(link.edge.id) in drawn then [] else
        [EdgeDrawn(link.edge, p, link.to, sp, MapPointToScreen(canvas, board, link.to), link.edge.owner)]
    {
      marks, out' := drawn, out;
      assert out + [] == out;
      if EdgeMark(link.edge.id) !in drawn {
        var spB := MapPointToScreen(canvas, board, link.to);
        artist.DrawEdge(link.edge, p, link.to, sp, spB, link.edge.owner);
        ProgressAfterEdge(canvas, board, out, drawn, p, link);
        out' := out + [EdgeDrawn(link.edge, p, link.to, sp, spB, link.edge.owner)];
        marks := drawn + [EdgeMark(link.edge.id)];
      }
    }

    /**
     * The work of lines 22-48 for one entry `link` of point `p`: the point, the faces and the
     * edge are drawn in that order, and the entry's end is queued when it is neither in the list
     * nor queued.
     */
    method VisitLink(board: Board, p: int, link: Link, sp: ScreenPoint, boxsize: ScreenPoint,
                     queue: seq<int>, marks: seq<Mark>, ghost prefix: seq<Call>, ghost out: seq<Call>)
      returns (queue': seq<int>, marks': seq<Mark>, ghost out': seq<Call>)
      requires Sized(board) && boxsize == BoxSize(canvas, board) && sp == MapPointToScreen(canvas, board, p)
      requires p in board.edgePool && link in board.edgePool[p]
      requires Progress(canvas, board, out, marks) && artist.calls == prefix + out
      modifies artist
      ensures Progress(canvas, board, out', marks') && artist.calls == prefix + out'
      ensures Walk(queue', marks') == LinkStep(p, link, Walk(queue, marks))
      ensures out' == out + LinkCalls(canvas, board, p, link, marks)
    {
      var m1, m2: seq<Mark>;
      ghost var o1, o2: seq<Call>;
      m1, o1 := DrawPointStep(board, p, link, sp, marks, prefix, out);
      m2, o2 := DrawFaces(board, p, link, boxsize, m1, prefix, o1);
      marks', out' := DrawEdgeStep(board, p, link, sp, m2, prefix, o2);
      ghost var pc := if PointMark(link.to) in marks then [] else [PointCall(canvas, board, p, link)];
      ghost var fc := FaceCalls(canvas, board, link.edge.faces, m1);
      ghost var ec := if EdgeMark(link.edge.id) in m2 then [] else [EdgeCall(canvas, board, p, link)];
      assert LinkCalls(canvas, board, p, link, marks) == pc + fc + ec;
      AppendSteps(out, pc, fc);
      AppendSteps(out, pc + fc, ec);
      queue' := queue;
      if PointMark(link.to) !in marks' && link.to !in queue' {
        queue' := queue' + [link.to];
      }
    }

    /**
     * One turn of the traversal (lines 16-49): the entries of point `p` are handled in ascending
     * key order by `VisitLink`.
     */
    method VisitPoint(board: Board, p: int, boxsize: ScreenPoint, toVisit: seq<int>, drawn: seq<Mark>,
                      ghost prefix: seq<Call>, ghost out: seq<Call>)
      returns (queue: seq<int>, marks: seq<Mark>, ghost out': seq<Call>)
      requires Sized(board) && boxsize == BoxSize(canvas, board)
      requires p in board.edgePool
      requires Progress(canvas, board, out, drawn) && artist.calls == prefix + out
      modifies artist
      ensures Progress(canvas, board, out', marks) && artist.calls == prefix + out'
      ensures Walk(queue, marks) == PointTurn(p, board.edgePool[p], Walk(toVisit, drawn))
      ensures out' == out + TurnCalls(canvas, board, p, board.edgePool[p], Walk(toVisit, drawn))
    {
      var sp := MapPointToScreen(canvas, board, p);
      var links := board.edgePool[p];
      queue, marks, out' := toVisit, drawn, out;
      var i := 0;
      while i < |links|
        invariant 0 <= i <= |links|
        invariant Progress(canvas, board, out', marks) && artist.calls == prefix + out'
        invariant PointTurn(p, links[i..], Walk(queue, marks)) == PointTurn(p, links, Walk(toVisit, drawn))
        invariant out' + TurnCalls(canvas, board, p, links[i..], Walk(queue, marks)) ==
                  out + TurnCalls(canvas, board, p, links, Walk(toVisit, drawn))
      {
        assert links[i..][1..] == links[i + 1..];
        ghost var w := Walk(queue, marks);
        AppendSteps(out', LinkCalls(canvas, board, p, links[i], marks),
                    TurnCalls(canvas, board, p, links[i + 1..], LinkStep(p, links[i], w)));
        queue, marks, out' := VisitLink(board, p, links[i], sp, boxsize, queue, marks, prefix, out');
        i := i + 1;
      }
    }

    /**
     * A render pass (lines 7-50): clear the canvas, then take the turns of the queued points,
     * breadth first from point 0; a point is queued only while it is neither listed nor queued.
     * `completed` is false when a queued point has no entry in the pool, where the source throws;
     * `visited` holds the points whose turn was taken.
     */
    method Draw(board: Board) returns (completed: bool, ghost visited: set<int>, ghost out: seq<Call>)
      requires Sized(board)
      modifies artist
      ensures artist.calls == old(artist.calls) + out && RenderPass(canvas, board, completed, visited, out)
      ensures out == [Cleared(canvas.width, canvas.height)] + PassCalls(canvas, board)
    {
      ghost var prefix := artist.calls;
      artist.Clear(canvas.width, canvas.height);
      out := [Cleared(canvas.width, canvas.height)];
      var boxsize := BoxSize(canvas, board);
      var toVisit := [0];
      var alreadyDrawn: seq<Mark> := [];
      visited := {};
      completed := true;
      while |toVisit| > 0
        invariant Progress(canvas, board, out, alreadyDrawn) && artist.calls == prefix + out
        invariant Frontier(board, toVisit, alreadyDrawn) && Explored(board, visited, toVisit, alreadyDrawn)
        invariant EndsMet(board, visited, alreadyDrawn) && StartDrawn(board, visited, toVisit, alreadyDrawn)
        invariant Run(board, Walk(toVisit, alreadyDrawn)) == Pass(board)
        invariant out + RunCalls(canvas, board, Walk(toVisit, alreadyDrawn)) ==
                  [Cleared(canvas.width, canvas.height)] + PassCalls(canvas, board)
        decreases Universe(board.edgePool) - PointsMarked(alreadyDrawn), |toVisit|
      {
        ghost var queued := toVisit;
        ghost var before := alreadyDrawn;
        ghost var outBefore := out;
        var p := toVisit[0];
        toVisit := toVisit[1..];
        ghost var toVisit0 := toVisit;
        if p !in board.edgePool {
          completed := false;
          PassAtEnd(canvas, board, completed, visited, out, queued, before);
          return;
        }
        toVisit, alreadyDrawn, out := VisitPoint(board, p, boxsize, toVisit, alreadyDrawn, prefix, out);
        TurnKeepsFrontier(board, queued, before);
        TurnKeepsExplored(board, queued, before, visited);
        TurnKeepsEndsMet(board, queued, before, visited);
        TurnKeepsStart(board, queued, before, visited);
        TurnProgresses(board, queued, before);
        RunChain(board, Walk(queued, before), Walk(toVisit, alreadyDrawn));
        CallsChain(canvas, board, Walk(queued, before), Walk(toVisit, alreadyDrawn));
        AppendSteps(outBefore, TurnCalls(canvas, board, p, board.edgePool[p], Walk(toVisit0, before)),
                    RunCalls(canvas, board, Walk(toVisit, alreadyDrawn)));
        visited := visited + {p};
      }
      PassAtEnd(canvas, board, completed, visited, out, toVisit, alreadyDrawn);
    }

    /**
     * A click (lines 113-122): the pointer position, clamped into the margins, is resolved to an
     * edge; only when one is found is it played for `player` and the board drawn again. The game's
     * `play` is supplied by the caller and is applied whatever the edge's owner.
     */
    method SelectEdge(evt: Pointer, rect: Rect, player: Player, board: Board, play: (Pool, Edge, Player) -> Pool)
      returns (next: Board, move: Option<Edge>, ghost completed: bool, ghost visited: set<int>, ghost out: seq<Call>)
      requires Playable(canvas, board)
      modifies artist
      ensures move == MapScreenToEdge(canvas, board, GetMousePos(evt, rect, ScreenMargin(canvas, board)))
      ensures move.None? ==> next == board && artist.calls == old(artist.calls)
      ensures move.Some? ==> next == board.(edgePool := play(board.edgePool, move.value, player))
      ensures move.Some? ==> artist.calls == old(artist.calls) + out && RenderPass(canvas, next, completed, visited, out)
      ensures move.Some? ==> out == [Cleared(canvas.width, canvas.height)] + PassCalls(canvas, next)
    {
      var margin := ScreenMargin(canvas, board);
      var mousePos := GetMousePos(evt, rect, margin);
      move := MapScreenToEdge(canvas, board, mousePos);
      next := board;
      completed, visited, out := false, {}, [];
      if move.Some? {
        next := board.(edgePool := play(board.edgePool, move.value, player));
        completed, visited, out := Draw(next);
      }
    }
  }
}
