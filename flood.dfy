// The paint-bucket fill of the `fill` command: a breadth-first search from
// the cursor over orthogonal neighbours that show the same key as the start
// cell (or are empty, when the start cell is), writing a new element into
// each cell it takes from the queue.
//
// The search is proved to fill exactly the connected component of the start
// cell: the filled set holds the start, is closed under same-key neighbours,
// and is contained in every set that is (the breadth-first tree the search
// builds is the witness).

module Flood {
  import opened Kinds
  import opened Boards
  import opened Grids
  import opened ElementManager

  type Cell = (int, int)

  /** The key a cell shows: nothing for an empty cell. */
  function KeyAt(b: Board, c: Cell): Option<char>
    requires InB(b, c.0, c.1)
  {
    if b[c.0][c.1].Empty? then None else Some(Key(KindOf(b[c.0][c.1])))
  }

  /** An in-grid cell showing key t (empty when t is nothing). */
  predicate Like(b: Board, t: Option<char>, c: Cell)
  {
    InB(b, c.0, c.1) && KeyAt(b, c) == t
  }

  /** The neighbour in direction k of the fill's order right, left, down,
      up (the offsets `RLDU`). */
  function Nb(c: Cell, k: int): (n: Cell)
    requires 0 <= k < 4
    ensures Adj4(n.0 - c.0, n.1 - c.1)
  {
    if k == 0 then (c.0, c.1 + 1) else if k == 1 then (c.0, c.1 - 1) else if k == 2 then (c.0 + 1, c.1) else (c.0 - 1, c.1)
  }

  /** No same-key neighbour of a member is left out. */
  ghost predicate Closed(b: Board, t: Option<char>, R: set<Cell>)
  {
    forall c, k :: c in R && 0 <= k < 4 && Like(b, t, Nb(c, k)) ==> Nb(c, k) in R
  }

  /** Every member shows key t and is reached from s by a chain of
      neighbours: `from` names one member it was reached from, in the
      direction given, at a smaller depth. */
  ghost predicate Tree(b: Board, t: Option<char>, s: Cell, R: set<Cell>,
                       from: map<Cell, (Cell, int)>, depth: map<Cell, nat>)
  {
    s in R && (forall c :: c in R ==> Like(b, t, c) && c in depth) &&
    forall c {:trigger c in from} :: c in R && c != s ==>
      c in from && from[c].0 in R && 0 <= from[c].1 < 4 && Nb(from[c].0, from[c].1) == c &&
      from[c].0 in depth && depth[from[c].0] < depth[c]
  }

  /** The board with slot v written into every cell of R. */
  function Flooded(b: Board, R: set<Cell>, v: Slot): (r: Board)
    ensures |r| == |b| && forall i :: 0 <= i < |b| ==> |r[i]| == |b[i]|
  {
    seq(|b|, i requires 0 <= i < |b| =>
      seq(|b[i]|, j requires 0 <= j < |b[i]| => if (i, j) in R then v else b[i][j]))
  }

  /** The cells of an h-by-w grid. */
  function AllCells(h: int, w: int): set<Cell>
  {
    set i, j | 0 <= i < h && 0 <= j < w :: (i, j)
  }

  /** The queue and the visited set of the search: the queue holds the
      visited cells not yet filled, each once. */
  ghost predicate Frontier(queue: seq<Cell>, visited: set<Cell>, filled: set<Cell>)
  {
    filled <= visited &&
    (forall k :: 0 <= k < |queue| ==> queue[k] in visited && queue[k] !in filled) &&
    (forall m, n :: 0 <= m < n < |queue| ==> queue[m] != queue[n]) &&
    (forall c :: c in visited ==> c in filled || c in queue)
  }

  /** The board of the grid during the search: the filled cells hold v,
      all others what they held before. */
  ghost predicate Painted(cur: Board, b: Board, filled: set<Cell>, v: Slot, h: int, w: int)
  {
    Shaped(cur, h, w) && Shaped(b, h, w) &&
    forall i, j :: 0 <= i < h && 0 <= j < w ==> cur[i][j] == if (i, j) in filled then v else b[i][j]
  }

  /** Taking the head of the queue moves it from the queue to the filled
      set. */
  lemma Pop(queue: seq<Cell>, visited: set<Cell>, filled: set<Cell>)
    requires Frontier(queue, visited, filled) && queue != []
    ensures queue[0] !in filled && Frontier(queue[1..], visited, filled + {queue[0]})
  {
    var q := queue[1..];
    forall k | 0 <= k < |q|
      ensures q[k] != queue[0]
    {
      assert q[k] == queue[k + 1];
    }
  }

  /** Writing v into one more cell. */
  lemma PaintOne(cur: Board, b: Board, filled: set<Cell>, v: Slot, h: int, w: int, c: Cell)
    requires Painted(cur, b, filled, v, h, w) && 0 <= c.0 < h && 0 <= c.1 < w
    ensures Painted(Set(cur, c.0, c.1, v), b, filled + {c}, v, h, w)
  {
  }

  /** Marking an unvisited cell visited and queueing it. */
  lemma Push(queue: seq<Cell>, visited: set<Cell>, filled: set<Cell>, n: Cell)
    requires Frontier(queue, visited, filled) && n !in visited
    ensures Frontier(queue + [n], visited + {n}, filled)
  {
  }

  /** A cell reached from a tree member in direction k joins the tree one
      level deeper. */
  lemma Grow(b: Board, t: Option<char>, s: Cell, R: set<Cell>, from: map<Cell, (Cell, int)>, depth: map<Cell, nat>,
             c: Cell, k: int)
    requires Tree(b, t, s, R, from, depth) && c in R && 0 <= k < 4 && Nb(c, k) !in R && Like(b, t, Nb(c, k))
    ensures Tree(b, t, s, R + {Nb(c, k)}, from[Nb(c, k) := (c, k)], depth[Nb(c, k) := depth[c] + 1])
  {
  }

  // --- The search ---

  /** `_cmd_fill`'s search from `start`, whose key is t, filling with the
      element registered under `key`, carrying `tags`.  The filled set R
      is the start cell's component, and `count` is its size. */
  method Fill(g: Grid, reg: Registry, key: char, tags: seq<string>, start: Cell, t: Option<char>,
              ghost b: Board, ghost S: set<Particle>)
    returns (count: int, ghost R: set<Cell>, ghost from: map<Cell, (Cell, int)>, ghost depth: map<Cell, nat>)
    requires g.Shows(b, S) && key in reg && Like(b, t, start)
    modifies g, g.cells
    ensures g.Shows(Flooded(b, R, New(reg[key], Initial(reg[key], tags))), S)
    ensures count == |R| && Closed(b, t, R) && Tree(b, t, start, R, from, depth)
  {
    ghost var v := New(reg[key], Initial(reg[key], tags));
    var queue: seq<Cell> := [start];
    var visited: set<Cell> := {start};
    ghost var filled: set<Cell> := {};
    ghost var cur := b;
    ghost var all := AllCells(g.height, g.width);
    from, depth := map[], map[start := 0];
    count := 0;
    Begin(b, t, start, v, g.height, g.width);
    while queue != []
      invariant g.Shows(cur, S) && count == |filled|
      invariant Search(b, t, start, cur, v, g.height, g.width, queue, visited, filled, from, depth)
      decreases |all - filled|, |queue|
    {
      ghost var c;
      c, cur, queue, visited, from, depth := Round(g, reg, key, tags, t, start, queue, visited, from, depth, b, cur, filled, v, S);
      Shrinks(all, filled, c);
      filled := filled + {c};
      count := count + 1;
    }
    Done(b, t, start, visited, filled, from, depth);
    R := filled;
    PaintedFlooded(cur, b, R, v, g.height, g.width);
  }

  /** The search starts from the start cell alone, visited and queued. */
  lemma Begin(b: Board, t: Option<char>, start: Cell, v: Slot, h: int, w: int)
    requires Shaped(b, h, w) && Like(b, t, start)
    ensures Search(b, t, start, b, v, h, w, [start], {start}, {}, map[], map[start := 0])
  {
  }

  /** Filling one more cell of the grid leaves fewer unfilled. */
  lemma Shrinks(all: set<Cell>, filled: set<Cell>, c: Cell)
    requires c in all && c !in filled
    ensures all - (filled + {c}) < all - filled
  {
    assert c in all - filled;
  }

  /** An empty queue: every visited cell is filled. */
  lemma Done(b: Board, t: Option<char>, s: Cell, visited: set<Cell>, filled: set<Cell>,
             from: map<Cell, (Cell, int)>, depth: map<Cell, nat>)
    requires Frontier([], visited, filled) && Tree(b, t, s, visited, from, depth)
    requires forall c, k :: c in filled && 0 <= k < 4 && Like(b, t, Nb(c, k)) ==> Nb(c, k) in visited
    ensures visited == filled && Closed(b, t, filled) && Tree(b, t, s, filled, from, depth)
  {
  }

  /** A board painted over the filled set is the flooded board. */
  lemma PaintedFlooded(cur: Board, b: Board, R: set<Cell>, v: Slot, h: int, w: int)
    requires Painted(cur, b, R, v, h, w)
    ensures cur == Flooded(b, R, v)
  {
    ghost var want := Flooded(b, R, v);
    assert forall i :: 0 <= i < |b| ==> cur[i] == want[i];
  }

  /** The state the search keeps between rounds: the grid shows the
      filled cells painted, the queue and visited set agree, every
      same-key neighbour of a filled cell has been visited, and the
      visited cells form a search tree from the start. */
  ghost predicate Search(b: Board, t: Option<char>, start: Cell, cur: Board, v: Slot, h: int, w: int,
                         queue: seq<Cell>, visited: set<Cell>, filled: set<Cell>,
                         from: map<Cell, (Cell, int)>, depth: map<Cell, nat>)
  {
    Painted(cur, b, filled, v, h, w) && filled <= AllCells(h, w) && Frontier(queue, visited, filled) &&
    (forall c, k :: c in filled && 0 <= k < 4 && Like(b, t, Nb(c, k)) ==> Nb(c, k) in visited) &&
    Tree(b, t, start, visited, from, depth)
  }

  /** One round: the head of the queue is filled and its neighbours
      explored. */
  method Round(g: Grid, reg: Registry, key: char, tags: seq<string>, t: Option<char>, start: Cell,
               queue: seq<Cell>, visited: set<Cell>,
               ghost from: map<Cell, (Cell, int)>, ghost depth: map<Cell, nat>,
               ghost b: Board, ghost cur: Board, ghost filled: set<Cell>, ghost v: Slot, ghost S: set<Particle>)
    returns (ghost c: Cell, ghost cur': Board, queue': seq<Cell>, visited': set<Cell>,
             ghost from': map<Cell, (Cell, int)>, ghost depth': map<Cell, nat>)
    requires g.Shows(cur, S) && key in reg && v == New(reg[key], Initial(reg[key], tags)) && queue != []
    requires Search(b, t, start, cur, v, g.height, g.width, queue, visited, filled, from, depth)
    modifies g, g.cells
    ensures g.Shows(cur', S) && c !in filled && c in AllCells(g.height, g.width)
    ensures Search(b, t, start, cur', v, g.height, g.width, queue', visited', filled + {c}, from', depth')
  {
    var h := queue[0];
    c := h;
    Pop(queue, visited, filled);
    assert c in visited;
    cur' := FillCell(g, reg, key, tags, h, b, cur, filled, v, S);
    queue', visited', from', depth' := Explore(g, h, t, start, queue[1..], visited, from, depth, b, cur', filled + {c}, v, S);
  }

  /** One cell taken from the queue: a new element, with the tags, set
      there. */
  method FillCell(g: Grid, reg: Registry, key: char, tags: seq<string>, c: Cell,
                  ghost b: Board, ghost cur: Board, ghost filled: set<Cell>, ghost v: Slot, ghost S: set<Particle>)
    returns (ghost cur': Board)
    requires g.Shows(cur, S) && Painted(cur, b, filled, v, g.height, g.width) && key in reg
    requires v == New(reg[key], Initial(reg[key], tags)) && InB(b, c.0, c.1)
    modifies g, g.cells
    ensures g.Shows(cur', S) && Painted(cur', b, filled + {c}, v, g.height, g.width)
  {
    var e := g.CreateElement(reg, key, c.0, c.1, tags);
    g.Place(c.0, c.1, e, cur, S);
    cur' := Set(cur, c.0, c.1, v);
    PaintOne(cur, b, filled, v, g.height, g.width, c);
  }

  /** The four neighbours of a cell just filled: each one in the grid, not
      yet visited and showing key t is marked visited and queued, reached
      from c. */
  method Explore(g: Grid, c: Cell, t: Option<char>, start: Cell, queue: seq<Cell>, visited: set<Cell>,
                 ghost from: map<Cell, (Cell, int)>, ghost depth: map<Cell, nat>,
                 ghost b: Board, ghost cur: Board, ghost filled: set<Cell>, ghost v: Slot, ghost S: set<Particle>)
    returns (queue': seq<Cell>, visited': set<Cell>, ghost from': map<Cell, (Cell, int)>, ghost depth': map<Cell, nat>)
    requires g.Shows(cur, S) && Painted(cur, b, filled, v, g.height, g.width)
    requires c in filled && Frontier(queue, visited, filled) && Tree(b, t, start, visited, from, depth)
    ensures Frontier(queue', visited', filled) && Tree(b, t, start, visited', from', depth') && visited <= visited'
    ensures forall k :: 0 <= k < 4 && Like(b, t, Nb(c, k)) ==> Nb(c, k) in visited'
  {
    queue', visited', from', depth' := queue, visited, from, depth;
    var k := 0;
    while k < 4
      invariant g.Shows(cur, S)
      invariant 0 <= k <= 4
      invariant Frontier(queue', visited', filled) && Tree(b, t, start, visited', from', depth') && visited <= visited'
      invariant forall d :: 0 <= d < k && Like(b, t, Nb(c, d)) ==> Nb(c, d) in visited'
    {
      ghost var before := visited';
      queue', visited', from', depth' := Consider(g, c, k, t, start, queue', visited', from', depth', b, cur, filled, v, S);
      forall d | 0 <= d <= k && Like(b, t, Nb(c, d))
        ensures Nb(c, d) in visited'
      {
        if d < k {
          assert Nb(c, d) in before;
        }
      }
      k := k + 1;
    }
  }

  /** One neighbour: queued when it is in the grid, not yet visited, and
      shows key t. */
  method Consider(g: Grid, c: Cell, k: int, t: Option<char>, start: Cell, queue: seq<Cell>, visited: set<Cell>,
                  ghost from: map<Cell, (Cell, int)>, ghost depth: map<Cell, nat>,
                  ghost b: Board, ghost cur: Board, ghost filled: set<Cell>, ghost v: Slot, ghost S: set<Particle>)
    returns (queue': seq<Cell>, visited': set<Cell>, ghost from': map<Cell, (Cell, int)>, ghost depth': map<Cell, nat>)
    requires g.Shows(cur, S) && Painted(cur, b, filled, v, g.height, g.width) && 0 <= k < 4
    requires c in visited && Frontier(queue, visited, filled) && Tree(b, t, start, visited, from, depth)
    ensures Frontier(queue', visited', filled) && Tree(b, t, start, visited', from', depth') && visited <= visited'
    ensures Like(b, t, Nb(c, k)) ==> Nb(c, k) in visited'
  {
    queue', visited', from', depth' := queue, visited, from, depth;
    var n := Nb(c, k);
    if g.IsValid(n.0, n.1) && n !in visited {
      var ne := g.GetElement(n.0, n.1);
      g.MatchAt(cur, S, n.0, n.1);
      var nk: Option<char> := if ne == null then None else Some(Key(ne.kind));
      assert n !in filled;
      assert nk == KeyAt(b, n);
      if nk == t {
        Push(queue, visited, filled, n);
        Grow(b, t, start, visited, from, depth, c, k);
        visited' := visited + {n};
        queue' := queue + [n];
        from' := from[n := (c, k)];
        depth' := depth[n := depth[c] + 1];
      }
    }
  }

  // --- Properties ---

  /** Every member of a search tree lies in every closed set that holds the
      start. */
  lemma {:induction false} TreeInside(b: Board, t: Option<char>, s: Cell, R: set<Cell>,
                                      from: map<Cell, (Cell, int)>, depth: map<Cell, nat>, X: set<Cell>, c: Cell)
    requires Tree(b, t, s, R, from, depth) && Closed(b, t, X) && s in X && c in R
    ensures c in X
    decreases depth[c]
  {
    if c != s {
      var p := from[c].0;
      TreeInside(b, t, s, R, from, depth, X, p);
      assert Nb(p, from[c].1) == c;
    }
  }

  /** The component of s: the filled set of a search is the least closed
      set holding s, and every cell in it shows the start's key. */
  lemma Component(b: Board, t: Option<char>, s: Cell, R: set<Cell>,
                  from: map<Cell, (Cell, int)>, depth: map<Cell, nat>, X: set<Cell>)
    requires Tree(b, t, s, R, from, depth) && Closed(b, t, X) && s in X
    ensures R <= X && forall c :: c in R ==> Like(b, t, c)
  {
    forall c | c in R
      ensures c in X
    {
      TreeInside(b, t, s, R, from, depth, X, c);
    }
  }

  /** Two searches from the same cell fill the same set. */
  lemma Unique(b: Board, t: Option<char>, s: Cell,
               R1: set<Cell>, f1: map<Cell, (Cell, int)>, d1: map<Cell, nat>,
               R2: set<Cell>, f2: map<Cell, (Cell, int)>, d2: map<Cell, nat>)
    requires Tree(b, t, s, R1, f1, d1) && Closed(b, t, R1)
    requires Tree(b, t, s, R2, f2, d2) && Closed(b, t, R2)
    ensures R1 == R2
  {
    Component(b, t, s, R1, f1, d1, R2);
    Component(b, t, s, R2, f2, d2, R1);
  }

  /** The fill leaves every cell outside the component as it was and gives
      every cell of the component a new element of its own. */
  lemma FloodedCells(b: Board, R: set<Cell>, v: Slot, i: int, j: int)
    requires InB(b, i, j)
    ensures Flooded(b, R, v)[i][j] == if (i, j) in R then v else b[i][j]
  {
  }
}
