/**
 * The part of the game's Board that the renderer reads: the grid size and the adjacency map
 * `edgePool[p][q]` from a point to each neighbouring point and the edge between them.
 * How Board builds the pool and how `play` changes it are not part of this model; `getEdge` is
 * modelled as a lookup in the pool.
 */
module BoardShape {
  import opened Wrappers

  type EdgeId = int
  type FaceId = int

  /** A player; the renderer only reads its colour. */
  datatype Player = Player(color: string)

  /**
   * A unit cell. `id` stands for the object's identity; `sides` holds the `ends` array of each
   * of its bounding edges (the renderer reads nothing else of those edges).
   */
  datatype Face = Face(id: FaceId, owner: Option<Player>, sides: seq<seq<int>>)

  /** An edge between two points, with its optional owner and the faces it borders. */
  datatype Edge = Edge(id: EdgeId, ends: seq<int>, owner: Option<Player>, faces: seq<Face>)

  /**
   * One entry `edgePool[p][q]`: the neighbour `q` and the edge to it. The inner object of the
   * pool is kept as its list of entries, in the order in which `Object.keys` lists them
   * (ascending, as the keys are point indices).
   */
  datatype Link = Link(to: int, edge: Edge)

  type Pool = map<int, seq<Link>>

  /** `width` and `height` count points; point `p` sits at row `p / width`, column `p % width`. */
  datatype Board = Board(width: int, height: int, edgePool: Pool)

  /** The keys of an inner object are distinct and ascending, as `Object.keys` lists integer keys. */
  predicate Ascending(links: seq<Link>)
  {
    forall i, j :: 0 <= i < j < |links| ==> links[i].to < links[j].to
  }

  /** `links[q]`: the edge of the entry for neighbour `q`, if there is one. */
  function Lookup(links: seq<Link>, q: int): (r: Option<Edge>)
    ensures r.Some? ==> Link(q, r.value) in links
    ensures r.None? <==> forall l :: l in links ==> l.to != q
  {
    if links == [] then None
    else if links[0].to == q then Some(links[0].edge)
    else Lookup(links[1..], q)
  }

  /**
   * With distinct keys, looking up the key of an entry yields that entry's edge: the entry found
   * has the same key, so it is that entry.
   */
  lemma LookupFinds(links: seq<Link>, q: int, e: Edge)
    requires Ascending(links) && Link(q, e) in links
    ensures Lookup(links, q) == Some(e)
  {
  }

  /** The edge between `p1` and `p2`, or `None` when the pool has none (out-of-range points included). */
  function GetEdge(board: Board, p1: int, p2: int): (r: Option<Edge>)
    ensures r.Some? ==> p1 in board.edgePool && Link(p2, r.value) in board.edgePool[p1]
    ensures r.None? <==> p1 !in board.edgePool || forall l :: l in board.edgePool[p1] ==> l.to != p2
  {
    if p1 in board.edgePool then Lookup(board.edgePool[p1], p2) else None
  }

  /** Every point the traversal can name: the start point 0 and every neighbour listed in the pool. */
  ghost function Universe(pool: Pool): (points: set<int>)
  {
    {0} + (set p, l | p in pool && l in pool[p] :: l.to)
  }

  /** Every face record listed by some edge of the pool. */
  ghost function FacesOf(pool: Pool): (faces: set<Face>)
  {
    set p, l, f | p in pool && l in pool[p] && f in l.edge.faces :: f
  }

  /** The pool has an entry for point 0 and for every neighbour it lists (a board built by the game). */
  predicate Closed(board: Board)
  {
    0 in board.edgePool &&
    forall p, l :: p in board.edgePool && l in board.edgePool[p] ==> l.to in board.edgePool
  }
}
