/**
 * The bookkeeping of a render pass (js/screen.js:11-49) as functions: how the `alreadyDrawn`
 * list and the `toVisit` queue change while the entries of the pool are walked, and what that
 * walk keeps true. The drawing calls themselves are made by `Render.Screen`, whose methods are
 * proved to leave the list and the queue as these functions say.
 */
module Traversal {
  import opened Wrappers
  import opened BoardShape

  /** An entry of the `alreadyDrawn` list: a point index, or the identity of an edge or a face. */
  datatype Mark = PointMark(point: int) | EdgeMark(edge: EdgeId) | FaceMark(face: FaceId)

  /** The traversal's state between entries: the `toVisit` queue and the `alreadyDrawn` list. */
  datatype Walk = Walk(queue: seq<int>, marks: seq<Mark>)

  predicate NoDuplicates(q: seq<int>)
  {
    forall i, j :: 0 <= i < j < |q| ==> q[i] != q[j]
  }

  /** The points in the `alreadyDrawn` list. */
  ghost function PointsMarked(drawn: seq<Mark>): (points: set<int>)
  {
    set m | m in drawn && m.PointMark? :: m.point
  }

  lemma PointsMarkedMeans(drawn: seq<Mark>, q: int)
    ensures q in PointsMarked(drawn) <==> PointMark(q) in drawn
  {
    if PointMark(q) in drawn {
      assert PointMark(q).point == q;
    }
  }

  /** The points of the list's point entries, in the order they were added. */
  function ListedPoints(drawn: seq<Mark>): (points: seq<int>)
  {
    if drawn == [] then []
    else
      var last := drawn[|drawn| - 1];
      ListedPoints(drawn[..|drawn| - 1]) + if last.PointMark? then [last.point] else []
  }

  lemma {:induction false} ListedPointsMeans(drawn: seq<Mark>, q: int)
    ensures q in ListedPoints(drawn) <==> PointMark(q) in drawn
    decreases |drawn|
  {
    if drawn != [] {
      var init := drawn[..|drawn| - 1];
      ListedPointsMeans(init, q);
      assert drawn == init + [drawn[|drawn| - 1]];
    }
  }

  /** The points one can reach from a point along its entries in the pool. */
  ghost function Targets(links: seq<Link>): (ends: set<int>)
  {
    set l | l in links :: l.to
  }

  /** Some entry leads to a point that the `alreadyDrawn` list does not hold (the test of line 24). */
  ghost predicate HasUnmarkedEnd(links: seq<Link>, drawn: seq<Mark>)
  {
    exists l :: l in links && PointMark(l.to) !in drawn
  }

  // ---------------------------------------------------------------------------------------------
  // One entry of the pool (js/screen.js:22-48)

  /** Lines 24-27: the current point `p` is added when the entry's end `endP` is not in the list. */
  function MarkPoint(drawn: seq<Mark>, p: int, endP: int): (marks: seq<Mark>)
  {
    if PointMark(endP) in drawn then drawn else drawn + [PointMark(p)]
  }

  /** Lines 29-37: each owned face not yet in the list is added, in the order of `faces`. */
  function FaceMarks(faces: seq<Face>, drawn: seq<Mark>): (marks: seq<Mark>)
    decreases |faces|
  {
    if faces == [] then drawn
    else
      var f := faces[0];
      FaceMarks(faces[1..], if f.owner.Some? && FaceMark(f.id) !in drawn then drawn + [FaceMark(f.id)] else drawn)
  }

  /**
   * The faces of an edge only add to the list, add nothing but face entries, and leave every
   * owned face in it.
   */
  lemma {:induction false} FaceMarksFacts(faces: seq<Face>, drawn: seq<Mark>)
    ensures var marks := FaceMarks(faces, drawn);
      drawn <= marks &&
      (forall k :: |drawn| <= k < |marks| ==> marks[k].FaceMark?) &&
      forall f :: f in faces && f.owner.Some? ==> FaceMark(f.id) in marks
    decreases |faces|
  {
    if faces != [] {
      var f := faces[0];
      var next := if f.owner.Some? && FaceMark(f.id) !in drawn then drawn + [FaceMark(f.id)] else drawn;
      FaceMarksFacts(faces[1..], next);
      var marks := FaceMarks(faces, drawn);
      assert marks == FaceMarks(faces[1..], next);
      if f.owner.Some? {
        var k :| 0 <= k < |next| && next[k] == FaceMark(f.id);
        assert marks[k] == FaceMark(f.id);
      }
      assert forall g :: g in faces ==> g == f || g in faces[1..];
    }
  }

  /** Lines 39-44: the edge is added when it is not in the list. */
  function MarkEdge(drawn: seq<Mark>, e: Edge): (marks: seq<Mark>)
  {
    if EdgeMark(e.id) in drawn then drawn else drawn + [EdgeMark(e.id)]
  }

  /** Lines 45-48: the end is queued when it is neither in the list nor already queued. */
  function Enqueue(queue: seq<int>, drawn: seq<Mark>, endP: int): (queue': seq<int>)
  {
    if PointMark(endP) !in drawn && endP !in queue then queue + [endP] else queue
  }

  /** The state after the entry `link` of point `p`. */
  function LinkStep(p: int, link: Link, w: Walk): (w': Walk)
  {
    var marks := MarkEdge(FaceMarks(link.edge.faces, MarkPoint(w.marks, p, link.to)), link.edge);
    Walk(Enqueue(w.queue, marks, link.to), marks)
  }

  /** The state after all entries `links` of point `p`, in order (lines 19-49). */
  function PointTurn(p: int, links: seq<Link>, w: Walk): (w': Walk)
    decreases |links|
  {
    if links == [] then w else PointTurn(p, links[1..], LinkStep(p, links[0], w))
  }

  /** The queue holds no point twice, not `p`, and no point already in the list. */
  ghost predicate Fresh(p: int, w: Walk)
  {
    NoDuplicates(w.queue) && p !in w.queue && forall q :: q in w.queue ==> PointMark(q) !in w.marks
  }

  /** Appending only face entries keeps every other entry's presence unchanged. */
  lemma OnlyFacesAdded(drawn: seq<Mark>, marks: seq<Mark>)
    requires drawn <= marks && forall k :: |drawn| <= k < |marks| ==> marks[k].FaceMark?
    ensures forall m: Mark :: !m.FaceMark? ==> (m in marks <==> m in drawn)
  {
    forall m: Mark | !m.FaceMark? && m in marks
      ensures m in drawn
    {
      var k :| 0 <= k < |marks| && marks[k] == m;
      assert drawn[k] == m;
    }
  }

  /**
   * One entry: `p` enters the list exactly when it was there or the entry's end was not; only
   * `p` can enter among the points; the end ends up queued or in the list; the edge and the owned
   * faces end up in the list; the queue grows by at most the end, and stays fresh.
   */
  lemma LinkStepFacts(p: int, link: Link, w: Walk)
    requires Fresh(p, w)
    ensures var r := LinkStep(p, link, w);
      Fresh(p, r) && w.marks <= r.marks &&
      (forall q :: PointMark(q) in r.marks ==> PointMark(q) in w.marks || q == p) &&
      (PointMark(p) in r.marks <==> PointMark(p) in w.marks || PointMark(link.to) !in w.marks) &&
      (r.queue == w.queue || (PointMark(p) in r.marks && r.queue == w.queue + [link.to])) &&
      (link.to in r.queue || PointMark(link.to) in r.marks) &&
      EdgeMark(link.edge.id) in r.marks &&
      forall f :: f in link.edge.faces && f.owner.Some? ==> FaceMark(f.id) in r.marks
  {
    var m1 := MarkPoint(w.marks, p, link.to);
    var m2 := FaceMarks(link.edge.faces, m1);
    var m3 := MarkEdge(m2, link.edge);
    FaceMarksFacts(link.edge.faces, m1);
    OnlyFacesAdded(m1, m2);
    assert forall m :: m in m2 ==> m in m3;
    assert forall q :: PointMark(q) in m3 <==> PointMark(q) in m2;
    assert w.marks <= m3;
  }

  /**
   * All entries of `p`: the list only grows, and among the points only `p` can enter it; the old
   * queue stays a prefix, only ends of `p` are appended, and only once `p` is in the list; the
   * queue stays fresh.
   */
  lemma {:induction false} PointTurnGrows(p: int, links: seq<Link>, w: Walk)
    requires Fresh(p, w)
    ensures var r := PointTurn(p, links, w);
      Fresh(p, r) && w.marks <= r.marks && w.queue <= r.queue &&
      (forall q :: PointMark(q) in r.marks ==> PointMark(q) in w.marks || q == p) &&
      (PointMark(p) !in r.marks ==> r.queue == w.queue) &&
      (forall k :: |w.queue| <= k < |r.queue| ==> r.queue[k] in Targets(links))
    decreases |links|
  {
    if links != [] {
      var link, rest := links[0], links[1..];
      var w1 := LinkStep(p, link, w);
      var r := PointTurn(p, rest, w1);
      LinkStepFacts(p, link, w);
      PointTurnGrows(p, rest, w1);
      forall k | |w.queue| <= k < |r.queue|
        ensures r.queue[k] in Targets(links)
      {
        if k < |w1.queue| {
          assert w1.queue == w.queue + [link.to];
          assert r.queue[k] == link.to;
        } else {
          var l :| l in rest && l.to == r.queue[k];
          assert l in links;
        }
      }
    }
  }

  /**
   * The test of line 24 over all entries of `p`: `p` ends up in the list exactly when it was
   * there or some entry's end was not.
   */
  lemma {:induction false} PointTurnMarksPoint(p: int, links: seq<Link>, w: Walk)
    requires Fresh(p, w)
    ensures PointMark(p) in PointTurn(p, links, w).marks <==>
      PointMark(p) in w.marks || HasUnmarkedEnd(links, w.marks)
    decreases |links|
  {
    if links != [] {
      var link, rest := links[0], links[1..];
      var w1 := LinkStep(p, link, w);
      LinkStepFacts(p, link, w);
      PointTurnMarksPoint(p, rest, w1);
      if HasUnmarkedEnd(links, w.marks) && PointMark(p) !in w1.marks {
        var l :| l in links && PointMark(l.to) !in w.marks;
        assert l != link;
        assert l in rest && PointMark(l.to) !in w1.marks;
      }
      if HasUnmarkedEnd(rest, w1.marks) {
        var l :| l in rest && PointMark(l.to) !in w1.marks;
        assert l in links && PointMark(l.to) !in w.marks;
      }
    }
  }

  /**
   * After all entries of `p`, every entry's end is queued or in the list, and every entry's edge
   * and owned faces are in the list.
   */
  lemma {:induction false} PointTurnCovers(p: int, links: seq<Link>, w: Walk)
    requires Fresh(p, w)
    ensures var r := PointTurn(p, links, w);
      forall l :: l in links ==>
        (l.to in r.queue || PointMark(l.to) in r.marks) && EdgeMark(l.edge.id) in r.marks &&
        forall f :: f in l.edge.faces && f.owner.Some? ==> FaceMark(f.id) in r.marks
    decreases |links|
  {
    if links != [] {
      var link, rest := links[0], links[1..];
      var w1 := LinkStep(p, link, w);
      var r := PointTurn(p, rest, w1);
      LinkStepFacts(p, link, w);
      PointTurnGrows(p, rest, w1);
      PointTurnCovers(p, rest, w1);
      assert forall l :: l in links ==> l == link || l in rest;
      forall m | m in w1.marks ensures m in r.marks {
        var k :| 0 <= k < |w1.marks| && w1.marks[k] == m;
        assert r.marks[k] == m;
      }
      if link.to in w1.queue {
        var k :| 0 <= k < |w1.queue| && w1.queue[k] == link.to;
        assert r.queue[k] == link.to;
      }
    }
  }

  // ---------------------------------------------------------------------------------------------
  // The breadth-first walk (js/screen.js:11-50)

  /**
   * The queue of the traversal: no point twice, every point one the pool can name and not yet
   * marked, and on a closed board every point has an entry in the pool.
   */
  ghost predicate Frontier(board: Board, toVisit: seq<int>, drawn: seq<Mark>)
  {
    NoDuplicates(toVisit) &&
    (forall q :: q in toVisit ==> q in Universe(board.edgePool) && PointMark(q) !in drawn) &&
    (Closed(board) ==> forall q :: q in toVisit ==> q in board.edgePool)
  }

  /**
   * On a closed board, every queued point has an entry in the pool: the last conjunct of
   * `Frontier`, drawn out as a lemma so that `Run` need not instantiate it on its own.
   */
  lemma QueuedOnClosed(board: Board, toVisit: seq<int>, drawn: seq<Mark>, q: int)
    requires Frontier(board, toVisit, drawn) && q in toVisit
    ensures Closed(board) ==> q in board.edgePool
  {
  }

  /**
   * The points whose turn was taken: each has an entry in the pool, each marked point is among
   * them, the traversal started from point 0, and every entry of a visited point leads to a visited
   * or queued point and has its edge and its owned faces marked.
   */
  ghost predicate Explored(board: Board, visited: set<int>, toVisit: seq<int>, drawn: seq<Mark>)
  {
    visited <= board.edgePool.Keys &&
    (forall q :: PointMark(q) in drawn ==> q in visited) &&
    (0 in visited || 0 in toVisit) &&
    forall v, l :: v in visited && v in board.edgePool && l in board.edgePool[v] ==>
      (l.to in visited || l.to in toVisit) && EdgeMark(l.edge.id) in drawn &&
      forall f :: f in l.edge.faces && f.owner.Some? ==> FaceMark(f.id) in drawn
  }

  /** The tail of a queue without duplicates holds no duplicates and not its head. */
  lemma TailFresh(toVisit: seq<int>)
    requires |toVisit| > 0 && NoDuplicates(toVisit)
    ensures NoDuplicates(toVisit[1..]) && toVisit[0] !in toVisit[1..]
  {
    forall k | 0 <= k < |toVisit| - 1 ensures toVisit[1..][k] != toVisit[0] {
      assert toVisit[k + 1] == toVisit[1..][k];
    }
  }

  /** The turn of the point at the head of the queue leaves a queue in shape. */
  lemma TurnKeepsFrontier(board: Board, toVisit: seq<int>, drawn: seq<Mark>)
    requires |toVisit| > 0 && toVisit[0] in board.edgePool && Frontier(board, toVisit, drawn)
    ensures var p := toVisit[0];
      var r := PointTurn(p, board.edgePool[p], Walk(toVisit[1..], drawn));
      Frontier(board, r.queue, r.marks)
  {
    var pool := board.edgePool;
    var p, rest := toVisit[0], toVisit[1..];
    var r := PointTurn(p, pool[p], Walk(rest, drawn));
    TailFresh(toVisit);
    PointTurnGrows(p, pool[p], Walk(rest, drawn));
    forall q | q in r.queue
      ensures q in Universe(pool) && (Closed(board) ==> q in pool)
    {
      var k :| 0 <= k < |r.queue| && r.queue[k] == q;
      if k < |rest| {
        assert toVisit[k + 1] == q;
      } else {
        var l: Link :| l in pool[p] && l.to == q;
      }
    }
  }

  /** After the turn of the head of the queue, the old list and the rest of the old queue are kept. */
  lemma TurnKeepsOld(board: Board, toVisit: seq<int>, drawn: seq<Mark>)
    requires |toVisit| > 0 && toVisit[0] in board.edgePool && Frontier(board, toVisit, drawn)
    ensures var p := toVisit[0];
      var r := PointTurn(p, board.edgePool[p], Walk(toVisit[1..], drawn));
      Fresh(p, r) &&
      (forall m :: m in drawn ==> m in r.marks) &&
      (forall q :: q in toVisit && q != p ==> q in r.queue) &&
      forall q :: PointMark(q) in r.marks ==> PointMark(q) in drawn || q == p
  {
    var p, rest := toVisit[0], toVisit[1..];
    var r := PointTurn(p, board.edgePool[p], Walk(rest, drawn));
    TailFresh(toVisit);
    PointTurnGrows(p, board.edgePool[p], Walk(rest, drawn));
    forall m | m in drawn ensures m in r.marks {
      var k :| 0 <= k < |drawn| && drawn[k] == m;
      assert r.marks[k] == m;
    }
    forall q | q in toVisit && q != p ensures q in r.queue {
      var k :| 0 <= k < |toVisit| && toVisit[k] == q;
      assert rest[k - 1] == q;
      assert r.queue[k - 1] == q;
    }
  }

  /** The turn of the point at the head of the queue adds it to the visited points, in shape. */
  lemma TurnKeepsExplored(board: Board, toVisit: seq<int>, drawn: seq<Mark>, visited: set<int>)
    requires |toVisit| > 0 && toVisit[0] in board.edgePool
    requires Frontier(board, toVisit, drawn) && Explored(board, visited, toVisit, drawn)
    ensures var p := toVisit[0];
      var r := PointTurn(p, board.edgePool[p], Walk(toVisit[1..], drawn));
      Explored(board, visited + {p}, r.queue, r.marks)
  {
    var p, rest := toVisit[0], toVisit[1..];
    TailFresh(toVisit);
    TurnKeepsOld(board, toVisit, drawn);
    PointTurnCovers(p, board.edgePool[p], Walk(rest, drawn));
  }

  /** The turn of the point at the head of the queue marks a new point or shortens the queue. */
  lemma TurnProgresses(board: Board, toVisit: seq<int>, drawn: seq<Mark>)
    requires |toVisit| > 0 && toVisit[0] in board.edgePool && Frontier(board, toVisit, drawn)
    ensures var p := toVisit[0];
      var r := PointTurn(p, board.edgePool[p], Walk(toVisit[1..], drawn));
      var before := Universe(board.edgePool) - PointsMarked(drawn);
      var after := Universe(board.edgePool) - PointsMarked(r.marks);
      after < before || (after == before && |r.queue| < |toVisit|)
  {
    var pool := board.edgePool;
    var p, rest := toVisit[0], toVisit[1..];
    var r := PointTurn(p, pool[p], Walk(rest, drawn));
    TailFresh(toVisit);
    PointTurnGrows(p, pool[p], Walk(rest, drawn));
    forall q | q in PointsMarked(r.marks) ensures q in PointsMarked(drawn) || q == p {
      PointsMarkedMeans(r.marks, q);
      PointsMarkedMeans(drawn, q);
    }
    forall q | q in PointsMarked(drawn) ensures q in PointsMarked(r.marks) {
      PointsMarkedMeans(r.marks, q);
      PointsMarkedMeans(drawn, q);
      var k :| 0 <= k < |drawn| && drawn[k] == PointMark(q);
      assert r.marks[k] == PointMark(q);
    }
    if PointMark(p) in r.marks {
      PointsMarkedMeans(r.marks, p);
      PointsMarkedMeans(drawn, p);
      assert p in Universe(pool) - PointsMarked(drawn);
    }
  }

  /**
   * Every entry of a visited point has that point or the entry's end in the list: the test of
   * line 24 adds the point whenever the end is missing.
   */
  ghost predicate EndsMet(board: Board, visited: set<int>, drawn: seq<Mark>)
  {
    forall v, l :: v in visited && v in board.edgePool && l in board.edgePool[v] ==>
      PointMark(v) in drawn || PointMark(l.to) in drawn
  }

  /** The turn of the head of the queue meets every entry of the head. */
  lemma TurnKeepsEndsMet(board: Board, toVisit: seq<int>, drawn: seq<Mark>, visited: set<int>)
    requires |toVisit| > 0 && toVisit[0] in board.edgePool
    requires Frontier(board, toVisit, drawn) && EndsMet(board, visited, drawn)
    ensures var p := toVisit[0];
      var r := PointTurn(p, board.edgePool[p], Walk(toVisit[1..], drawn));
      EndsMet(board, visited + {p}, r.marks)
  {
    var pool := board.edgePool;
    var p, rest := toVisit[0], toVisit[1..];
    var r := PointTurn(p, pool[p], Walk(rest, drawn));
    TailFresh(toVisit);
    TurnKeepsOld(board, toVisit, drawn);
    PointTurnMarksPoint(p, pool[p], Walk(rest, drawn));
    forall l: Link | l in pool[p]
      ensures PointMark(p) in r.marks || PointMark(l.to) in r.marks
    {
      if PointMark(l.to) !in drawn {
        assert HasUnmarkedEnd(pool[p], drawn);
      }
    }
  }

  /**
   * Point 0 takes the first turn, from an empty list (lines 11-12), so it is in the list once it
   * has had its turn with at least one entry.
   */
  ghost predicate StartDrawn(board: Board, visited: set<int>, toVisit: seq<int>, drawn: seq<Mark>)
  {
    (visited == {} ==> toVisit == [0] && drawn == []) &&
    (visited != {} ==> 0 in visited) &&
    (0 in visited && 0 in board.edgePool && board.edgePool[0] != [] ==> PointMark(0) in drawn)
  }

  /** Turns keep point 0 in the list once its own turn put it there. */
  lemma TurnKeepsStart(board: Board, toVisit: seq<int>, drawn: seq<Mark>, visited: set<int>)
    requires |toVisit| > 0 && toVisit[0] in board.edgePool
    requires Frontier(board, toVisit, drawn) && StartDrawn(board, visited, toVisit, drawn)
    ensures var p := toVisit[0];
      var r := PointTurn(p, board.edgePool[p], Walk(toVisit[1..], drawn));
      StartDrawn(board, visited + {p}, r.queue, r.marks)
  {
    var pool := board.edgePool;
    TurnKeepsOld(board, toVisit, drawn);
    if visited == {} && pool[0] != [] {
      assert toVisit[1..] == [];
      PointTurnMarksPoint(0, pool[0], Walk([], []));
      assert HasUnmarkedEnd(pool[0], []) by {
        assert pool[0][0] in pool[0];
      }
    }
  }

  /**
   * The walk from state `w` to its end (lines 13-50): turns are taken until the queue is empty,
   * or until the point at its head has no entry in the pool, where the source throws; the walk
   * then stops with that point still at the head. On a closed board it always empties the queue.
   */
  ghost function Run(board: Board, w: Walk): (r: Walk)
    requires Frontier(board, w.queue, w.marks)
    ensures Frontier(board, r.queue, r.marks)
    ensures r.queue == [] || r.queue[0] !in board.edgePool
    ensures Closed(board) ==> r.queue == []
    decreases Universe(board.edgePool) - PointsMarked(w.marks), |w.queue|
  {
    if w.queue == [] then w
    else if w.queue[0] !in board.edgePool then
      QueuedOnClosed(board, w.queue, w.marks, w.queue[0]);
      w
    else
      var p := w.queue[0];
      TurnKeepsFrontier(board, w.queue, w.marks);
      TurnProgresses(board, w.queue, w.marks);
      Run(board, PointTurn(p, board.edgePool[p], Walk(w.queue[1..], w.marks)))
  }

  /** A walk that takes a turn from `w` to `next` ends where the walk from `next` ends. */
  lemma RunChain(board: Board, w: Walk, next: Walk)
    requires Frontier(board, w.queue, w.marks) && w.queue != [] && w.queue[0] in board.edgePool
    requires PointTurn(w.queue[0], board.edgePool[w.queue[0]], Walk(w.queue[1..], w.marks)) == next
    ensures Frontier(board, next.queue, next.marks) && Run(board, w) == Run(board, next)
  {
    TurnKeepsFrontier(board, w.queue, w.marks);
  }

  /** The walk of a render pass: from point 0 alone and an empty list (lines 11-12). */
  ghost function Pass(board: Board): (r: Walk)
  {
    assert Frontier(board, [0], []);
    Run(board, Walk([0], []))
  }

  // ---------------------------------------------------------------------------------------------
  // An example: the 2 x 2 board

  /**
   * The 2 x 2 board with its four edges and no faces: points 0 1 on the top row, 2 3 below;
   * edge 0 joins 0-1, edge 1 joins 0-2, edge 2 joins 1-3 and edge 3 joins 2-3.
   */
  function TwoByTwo(): (board: Board)
  {
    var e01, e02 := Edge(0, [0, 1], None, []), Edge(1, [0, 2], None, []);
    var e13, e23 := Edge(2, [1, 3], None, []), Edge(3, [2, 3], None, []);
    Board(2, 2, map[
      0 := [Link(1, e01), Link(2, e02)],
      1 := [Link(0, e01), Link(3, e13)],
      2 := [Link(0, e02), Link(3, e23)],
      3 := [Link(1, e13), Link(2, e23)]])
  }

  /** A turn over two entries takes them in order. */
  lemma TurnOfTwo(p: int, l0: Link, l1: Link, w: Walk)
    ensures PointTurn(p, [l0, l1], w) == LinkStep(p, l1, LinkStep(p, l0, w))
  {
    var w1 := LinkStep(p, l0, w);
    assert [l0, l1][1..] == [l1] && [l1][1..] == [];
    assert PointTurn(p, [l1], w1) == PointTurn(p, [], LinkStep(p, l1, w1));
  }

  /** The entries of the 2 x 2 board, in key order. */
  lemma TwoByTwoEntries(b: Board)
    requires b == TwoByTwo()
    ensures var e01, e02 := Edge(0, [0, 1], None, []), Edge(1, [0, 2], None, []);
      var e13, e23 := Edge(2, [1, 3], None, []), Edge(3, [2, 3], None, []);
      b.edgePool.Keys == {0, 1, 2, 3} &&
      b.edgePool[0] == [Link(1, e01), Link(2, e02)] && b.edgePool[1] == [Link(0, e01), Link(3, e13)] &&
      b.edgePool[2] == [Link(0, e02), Link(3, e23)] && b.edgePool[3] == [Link(1, e13), Link(2, e23)]
  {
  }

  // The four turns on the 2 x 2 board, and the walk they make, one lemma each.

  lemma TwoByTwoTurnOf0(b: Board, m1: seq<Mark>)
    requires b == TwoByTwo() && m1 == [PointMark(0), EdgeMark(0), PointMark(0), EdgeMark(1)]
    ensures PointTurn(0, b.edgePool[0], Walk([], [])) == Walk([1, 2], m1)
  {
    TwoByTwoEntries(b);
    TurnOfTwo(0, Link(1, Edge(0, [0, 1], None, [])), Link(2, Edge(1, [0, 2], None, [])), Walk([], []));
  }

  lemma TwoByTwoTurnOf1(b: Board, m1: seq<Mark>, m2: seq<Mark>)
    requires b == TwoByTwo() && m1 == [PointMark(0), EdgeMark(0), PointMark(0), EdgeMark(1)]
    requires m2 == m1 + [PointMark(1), EdgeMark(2)]
    ensures PointTurn(1, b.edgePool[1], Walk([2], m1)) == Walk([2, 3], m2)
  {
    TwoByTwoEntries(b);
    TurnOfTwo(1, Link(0, Edge(0, [0, 1], None, [])), Link(3, Edge(2, [1, 3], None, [])), Walk([2], m1));
  }

  lemma TwoByTwoTurnOf2(b: Board, m1: seq<Mark>, m2: seq<Mark>, m3: seq<Mark>)
    requires b == TwoByTwo() && m1 == [PointMark(0), EdgeMark(0), PointMark(0), EdgeMark(1)]
    requires m2 == m1 + [PointMark(1), EdgeMark(2)] && m3 == m2 + [PointMark(2), EdgeMark(3)]
    ensures PointTurn(2, b.edgePool[2], Walk([3], m2)) == Walk([3], m3)
  {
    TwoByTwoEntries(b);
    TurnOfTwo(2, Link(0, Edge(1, [0, 2], None, [])), Link(3, Edge(3, [2, 3], None, [])), Walk([3], m2));
  }

  lemma TwoByTwoTurnOf3(b: Board, m1: seq<Mark>, m2: seq<Mark>, m3: seq<Mark>)
    requires b == TwoByTwo() && m1 == [PointMark(0), EdgeMark(0), PointMark(0), EdgeMark(1)]
    requires m2 == m1 + [PointMark(1), EdgeMark(2)] && m3 == m2 + [PointMark(2), EdgeMark(3)]
    ensures PointTurn(3, b.edgePool[3], Walk([], m3)) == Walk([], m3)
  {
    TwoByTwoEntries(b);
    TurnOfTwo(3, Link(1, Edge(2, [1, 3], None, [])), Link(2, Edge(3, [2, 3], None, [])), Walk([], m3));
  }

  lemma TwoByTwoFirstTurns(b: Board, m1: seq<Mark>, m2: seq<Mark>)
    requires b == TwoByTwo() && m1 == [PointMark(0), EdgeMark(0), PointMark(0), EdgeMark(1)]
    requires m2 == m1 + [PointMark(1), EdgeMark(2)]
    ensures Frontier(b, [2, 3], m2) && Pass(b) == Run(b, Walk([2, 3], m2))
  {
    TwoByTwoEntries(b);
    TwoByTwoTurnOf0(b, m1);
    assert Frontier(b, [0], []) && [0][1..] == [];
    RunChain(b, Walk([0], []), Walk([1, 2], m1));
    TwoByTwoTurnOf1(b, m1, m2);
    RunChain(b, Walk([1, 2], m1), Walk([2, 3], m2));
  }

  lemma TwoByTwoLastTurns(b: Board, m1: seq<Mark>, m2: seq<Mark>, m3: seq<Mark>)
    requires b == TwoByTwo() && m1 == [PointMark(0), EdgeMark(0), PointMark(0), EdgeMark(1)]
    requires m2 == m1 + [PointMark(1), EdgeMark(2)] && m3 == m2 + [PointMark(2), EdgeMark(3)]
    requires Frontier(b, [2, 3], m2)
    ensures Run(b, Walk([2, 3], m2)) == Walk([], m3)
  {
    TwoByTwoEntries(b);
    TwoByTwoTurnOf2(b, m1, m2, m3);
    RunChain(b, Walk([2, 3], m2), Walk([3], m3));
    TwoByTwoTurnOf3(b, m1, m2, m3);
    RunChain(b, Walk([3], m3), Walk([], m3));
  }

  /** A point entry followed by an edge entry adds one point to the listed points. */
  lemma ListedPointsOfPair(drawn: seq<Mark>, p: int, e: EdgeId)
    ensures ListedPoints(drawn + [PointMark(p), EdgeMark(e)]) == ListedPoints(drawn) + [p]
  {
    var d := drawn + [PointMark(p), EdgeMark(e)];
    assert d[..|d| - 1] == drawn + [PointMark(p)];
    assert (drawn + [PointMark(p)])[..|drawn|] == drawn;
  }

  lemma TwoByTwoListed(m1: seq<Mark>, m2: seq<Mark>, m3: seq<Mark>)
    requires m1 == [PointMark(0), EdgeMark(0), PointMark(0), EdgeMark(1)]
    requires m2 == m1 + [PointMark(1), EdgeMark(2)] && m3 == m2 + [PointMark(2), EdgeMark(3)]
    ensures ListedPoints(m3) == [0, 0, 1, 2]
  {
    ListedPointsOfPair([], 0, 0);
    assert [PointMark(0), EdgeMark(0)] == [] + [PointMark(0), EdgeMark(0)];
    ListedPointsOfPair([PointMark(0), EdgeMark(0)], 0, 1);
    assert m1 == [PointMark(0), EdgeMark(0)] + [PointMark(0), EdgeMark(1)];
    ListedPointsOfPair(m1, 1, 2);
    ListedPointsOfPair(m2, 2, 3);
  }

  /**
   * On the 2 x 2 board, point 0 enters the list twice (both its ends are unlisted at its turn),
   * points 1 and 2 once each, and point 3 never: both its ends are listed by its turn.
   */
  lemma TwoByTwoPass(b: Board)
    requires b == TwoByTwo()
    ensures Pass(b).queue == []
    ensures ListedPoints(Pass(b).marks) == [0, 0, 1, 2]
  {
    var m1 := [PointMark(0), EdgeMark(0), PointMark(0), EdgeMark(1)];
    var m2 := m1 + [PointMark(1), EdgeMark(2)];
    var m3 := m2 + [PointMark(2), EdgeMark(3)];
    TwoByTwoFirstTurns(b, m1, m2);
    TwoByTwoLastTurns(b, m1, m2, m3);
    TwoByTwoListed(m1, m2, m3);
  }
}
