// The simulation grid: a height-by-width array of cells, each empty or
// holding a reference to a particle.  Besides the operations of the grid
// itself (bounds check, read, write, clear, flag reset, factory, listing),
// this module has the grid-level primitives the elements are written with:
// look at a cell, place a new particle, clear a cell, change a particle's
// state, and the two movement primitives `_move_to` and `_swap_with`.
//
// Every primitive that changes the grid takes the board `b` the grid shows
// before the call and promises the board it shows afterwards, so that an
// element's update can be proved equal to a function on boards.

module Grids {
  import opened Kinds
  import opened Boards

  /** One board slot agrees with one cell.  `S` is the set of particles that
      existed when the board was taken: an `Old` slot is one of them, a `New`
      slot is a particle made since. */
  ghost predicate Match(q: Particle?, s: Slot, S: set<Particle>)
    reads q
  {
    match s
    case Empty => q == null
    case Old(p, st) => q == p && p in S && p.State() == st
    case New(k, st) => q != null && q !in S && q.kind == k && q.State() == st
  }

  /** Every slot of a height-by-width board that shows nothing. */
  function Blank(h: nat, w: nat): (b: Board)
    ensures Shaped(b, h, w)
    ensures forall i, j :: 0 <= i < h && 0 <= j < w ==> b[i][j] == Empty
  {
    seq(h, _ => seq(w, _ => Empty))
  }

  /** The slot a cell shows when the board is taken. */
  ghost function SlotOf(q: Particle?): Slot
    reads q
  {
    if q == null then Empty else Old(q, q.State())
  }

  class Grid {
    const height: int
    const width: int
    const cells: array2<Particle?>
    /** every particle that was ever placed on this grid */
    ghost var Repr: set<Particle>

    /** The dimensions are positive and every particle in a cell carries that
        cell's coordinates. */
    ghost predicate Valid()
      reads this, cells, Repr
    {
      0 < height && 0 < width && cells.Length0 == height && cells.Length1 == width &&
      forall i, j :: 0 <= i < height && 0 <= j < width && cells[i, j] != null ==>
        cells[i, j] in Repr && cells[i, j].y == i && cells[i, j].x == j
    }

    /** The grid shows board `b`. */
    ghost predicate Shows(b: Board, S: set<Particle>)
      reads this, cells, Repr
    {
      Valid() && S <= Repr && Shaped(b, height, width) &&
      forall i, j :: 0 <= i < height && 0 <= j < width ==> Match(cells[i, j], b[i][j], S)
    }

    /** The particle sits in the cell its coordinates name. */
    ghost predicate IsLive(p: Particle)
      reads this, cells, p
    {
      0 <= p.y < height && 0 <= p.x < width &&
      cells.Length0 == height && cells.Length1 == width && cells[p.y, p.x] == p
    }

    /** Particle `p` is live, and board `b` shows it as it is. */
    ghost predicate Hosts(b: Board, S: set<Particle>, p: Particle)
      reads this, cells, Repr, p
    {
      Shows(b, S) && IsLive(p) && InB(b, p.y, p.x) && b[p.y][p.x] == Old(p, p.State())
    }

    /** What an update may do to the particles: add new ones, and set
        `processed` flags but never clear one. */
    twostate predicate Grew()
      reads this, Repr
    {
      old(Repr) <= Repr && (forall q :: q in Repr && old(allocated(q)) ==> q in old(Repr)) &&
      forall q :: q in old(Repr) && old(q.processed) ==> q.processed
    }

    /** `Grid(height, width)` for positive dimensions: every cell empty. */
    constructor (h: int, w: int)
      requires h > 0 && w > 0
      ensures height == h && width == w && Repr == {}
      ensures Shows(Blank(h, w), {})
      ensures fresh(cells)
    {
      height, width := h, w;
      cells := new Particle?[h, w]((_, _) => null);
      Repr := {};
    }

    /** `Grid(height, width)`, which raises for a dimension that is not
        positive: no grid then. */
    static method Make(h: int, w: int) returns (g: Grid?)
      ensures g == null <==> h <= 0 || w <= 0
      ensures g != null ==> fresh(g) && fresh(g.cells) && g.height == h && g.width == w
      ensures g != null ==> g.Repr == {} && g.Shows(Blank(h, w), {})
    {
      if h <= 0 || w <= 0 {
        g := null;
      } else {
        g := new Grid(h, w);
      }
    }

    predicate IsValid(i: int, j: int)
    {
      0 <= i < height && 0 <= j < width
    }

    /** The cell's particle, or nothing for empty and out-of-range cells. */
    method GetElement(i: int, j: int) returns (e: Particle?)
      requires Valid()
      ensures !IsValid(i, j) ==> e == null
      ensures IsValid(i, j) ==> e == cells[i, j]
    {
      if IsValid(i, j) {
        e := cells[i, j];
      } else {
        e := null;
      }
    }

    predicate Dims()
    {
      cells.Length0 == height && cells.Length1 == width
    }

    /** `set_element`: inside the grid, writes that one cell and stamps a
        particle with the cell's coordinates; outside, changes nothing. */
    method SetElement(i: int, j: int, e: Particle?) returns (ok: bool)
      requires Dims()
      modifies cells, e
      ensures ok == IsValid(i, j)
      ensures ok ==> cells[i, j] == e
      ensures forall k, l :: 0 <= k < height && 0 <= l < width && (k != i || l != j) ==>
        cells[k, l] == old(cells[k, l])
      ensures e != null && ok ==> e.y == i && e.x == j
      ensures e != null && !ok ==> e.y == old(e.y) && e.x == old(e.x)
      ensures e != null ==> e.State() == old(e.State())
    {
      if IsValid(i, j) {
        if e != null {
          e.y, e.x := i, j;
        }
        cells[i, j] := e;
        ok := true;
      } else {
        ok := false;
      }
    }

    /** `create_element`: a new, unplaced particle of the class registered
        under `key`, at (i, j), with its own copy of `tags`; nothing for an
        unregistered key.  The grid is not touched. */
    method CreateElement(reg: Registry, key: char, i: int, j: int, tags: seq<string>) returns (e: Particle?)
      ensures key !in reg <==> e == null
      ensures e != null ==> fresh(e) && e.kind == reg[key] && e.y == i && e.x == j
      ensures e != null ==> e.State() == Initial(reg[key], tags)
    {
      if key in reg {
        e := new Particle(reg[key], i, j, tags);
      } else {
        e := null;
      }
    }

    /** A cell as an element sees it. */
    method Peek(i: int, j: int, ghost b: Board, ghost S: set<Particle>) returns (s: Seen)
      requires Shows(b, S)
      ensures s == Look(b, i, j)
    {
      if IsValid(i, j) {
        var q := cells[i, j];
        assert Match(q, b[i][j], S);
        if q == null {
          s := Vacant;
        } else {
          s := Sees(q.kind, q.State());
        }
      } else {
        s := Off;
      }
    }

    /** The slot (i, j) shows grid cell (i, j). */
    lemma MatchAt(b: Board, S: set<Particle>, i: int, j: int)
      requires Shows(b, S) && IsValid(i, j)
      ensures InB(b, i, j) && Match(cells[i, j], b[i][j], S)
      ensures cells[i, j] == null <==> b[i][j].Empty?
      ensures cells[i, j] != null ==> cells[i, j].kind == KindOf(b[i][j]) && cells[i, j].State() == b[i][j].st
    {
    }

    /** A live particle found on the board. */
    lemma LiveAt(b: Board, S: set<Particle>, p: Particle)
      requires Shows(b, S) && IsLive(p)
      ensures InB(b, p.y, p.x) && !b[p.y][p.x].Empty?
      ensures KindOf(b[p.y][p.x]) == p.kind && b[p.y][p.x].st == p.State()
      ensures p in S ==> b[p.y][p.x] == Old(p, p.State())
    {
      assert Match(cells[p.y, p.x], b[p.y][p.x], S);
    }

    /** A board that shows p in p's own cell hosts p. */
    lemma HostsAt(b: Board, S: set<Particle>, p: Particle)
      requires Shows(b, S) && InB(b, p.y, p.x) && b[p.y][p.x] == Old(p, p.State())
      ensures Hosts(b, S, p)
    {
      assert Match(cells[p.y, p.x], b[p.y][p.x], S);
    }

    /** Writes a particle that is not on the grid yet into cell (i, j). */
    method Place(i: int, j: int, e: Particle, ghost b: Board, ghost S: set<Particle>)
      requires Shows(b, S) && e !in Repr
      modifies this, cells, e
      ensures Shows(Set(b, i, j, New(e.kind, old(e.State()))), S)
      ensures Repr == old(Repr) + {e}
      ensures e.State() == old(e.State())
    {
      var ok := SetElement(i, j, e);
      Repr := Repr + {e};
      ghost var b' := Set(b, i, j, New(e.kind, e.State()));
      forall k, l | 0 <= k < height && 0 <= l < width
        ensures Match(cells[k, l], b'[k][l], S)
      {
        if k != i || l != j {
          assert old(Match(cells[k, l], b[k][l], S));
        }
      }
    }

    /** `set_element(i, j, None)`. */
    method ClearCell(i: int, j: int, ghost b: Board, ghost S: set<Particle>)
      requires Shows(b, S)
      modifies cells
      ensures Shows(Set(b, i, j, Empty), S)
    {
      var ok := SetElement(i, j, null);
      ghost var b' := Set(b, i, j, Empty);
      forall k, l | 0 <= k < height && 0 <= l < width
        ensures Match(cells[k, l], b'[k][l], S)
      {
        if k != i || l != j {
          assert old(Match(cells[k, l], b[k][l], S));
        }
      }
    }

    /** Sets the state of the particle in cell (i, j). */
    method Restate(i: int, j: int, st: St, ghost b: Board, ghost S: set<Particle>)
      requires Shows(b, S) && IsValid(i, j) && cells[i, j] != null
      modifies cells[i, j]
      ensures Shows(Put(b, i, j, WithSt(b[i][j], st)), S)
      ensures cells[i, j].State() == st
    {
      var q := cells[i, j];
      MatchAt(b, S, i, j);
      q.SetState(st);
      ghost var b' := Put(b, i, j, WithSt(b[i][j], st));
      forall k, l | 0 <= k < height && 0 <= l < width
        ensures Match(cells[k, l], b'[k][l], S)
      {
        if k != i || l != j {
          assert old(Match(cells[k, l], b[k][l], S));
          assert old(cells[k, l]) != q;
        }
      }
    }

    /** Marks the particle in cell (i, j) processed. */
    method MarkAt(i: int, j: int, ghost b: Board, ghost S: set<Particle>)
      requires Shows(b, S) && IsValid(i, j) && cells[i, j] != null
      modifies cells[i, j]
      ensures InB(b, i, j) && !b[i][j].Empty?
      ensures Shows(Proc(b, i, j), S)
      ensures cells[i, j].processed
    {
      MatchAt(b, S, i, j);
      Restate(i, j, cells[i, j].State().(processed := true), b, S);
    }

    /** Marks processed a particle that is no longer on the grid. */
    method Retire(p: Particle, ghost b: Board, ghost S: set<Particle>)
      requires Shows(b, S) && p in Repr && !IsLive(p)
      modifies p
      ensures Shows(b, S) && p.processed
    {
      p.processed := true;
      forall k, l | 0 <= k < height && 0 <= l < width
        ensures Match(cells[k, l], b[k][l], S)
      {
        assert old(Match(cells[k, l], b[k][l], S));
        assert cells[k, l] != p;
      }
    }

    /** The live particle `p` goes to (ni, nj), overwriting what is there,
        and is marked processed; written as `_move_to` does once the target
        is known to be free: clear the old cell, restamp, write the new cell. */
    method Relocate(p: Particle, ni: int, nj: int, ghost b: Board, ghost S: set<Particle>)
      requires Shows(b, S) && IsLive(p)
      modifies cells, p
      ensures InB(b, old(p.y), old(p.x)) && !b[old(p.y)][old(p.x)].Empty?
      ensures Shows(MoveB(b, old(p.y), old(p.x), ni, nj), S)
      ensures p.processed && p.y == ni && p.x == nj
    {
      LiveAt(b, S, p);
      var i, j := p.y, p.x;
      ghost var cleared := Set(b, i, j, Empty);
      ClearCell(i, j, b, S);
      ShowsAllBut(cleared, S, ni, nj);
      GoTo(p, ni, nj, cleared, S, b[i][j]);
    }

    /** `_move_to`: succeeds exactly when (ni, nj) holds nothing (a cell off
        the grid holds nothing, and the particle is lost); then the particle
        has moved and is processed, otherwise nothing changed. */
    method MoveTo(p: Particle, ni: int, nj: int, ghost b: Board, ghost S: set<Particle>) returns (ok: bool)
      requires Shows(b, S) && IsLive(p)
      modifies cells, p
      ensures InB(b, old(p.y), old(p.x)) && !b[old(p.y)][old(p.x)].Empty?
      ensures ok <==> !Look(b, ni, nj).Sees?
      ensures ok ==> Shows(MoveB(b, old(p.y), old(p.x), ni, nj), S) && p.processed
      ensures !ok ==> Shows(b, S) && p.State() == old(p.State())
      ensures Grew()
    {
      LiveAt(b, S, p);
      var t := GetElement(ni, nj);
      if IsValid(ni, nj) {
        MatchAt(b, S, ni, nj);
      }
      if t == null {
        Relocate(p, ni, nj, b, S);
        ok := true;
      } else {
        ok := false;
      }
    }

    /** `_swap_with`: the particle at (ni, nj), if any, goes to `p`'s cell,
        `p` goes to (ni, nj) and is marked processed; both carry their new
        coordinates. */
    method SwapWith(p: Particle, ni: int, nj: int, ghost b: Board, ghost S: set<Particle>)
      requires Shows(b, S) && IsLive(p)
      modifies cells, Repr
      ensures InB(b, old(p.y), old(p.x)) && !b[old(p.y)][old(p.x)].Empty?
      ensures Shows(SwapB(b, old(p.y), old(p.x), ni, nj), S) && p.processed
      ensures Grew()
    {
      LiveAt(b, S, p);
      var t := GetElement(ni, nj);
      var i, j := p.y, p.x;
      if t == null {
        // nothing to bring back: the same as moving
        if IsValid(ni, nj) {
          MatchAt(b, S, ni, nj);
        }
        Relocate(p, ni, nj, b, S);
      } else if t == p {
        assert ni == i && nj == j;
        assert b[i][j := b[i][j]] == b[i];
        assert Put(b, i, j, b[i][j]) == b;
        MarkAt(i, j, b, S);
        assert SwapB(b, i, j, ni, nj) == Proc(b, i, j);
      } else {
        MatchAt(b, S, ni, nj);
        Exchange(p, t, b, S);
      }
    }

    /** The writes of `_swap_with` for two distinct live particles. */
    method Exchange(p: Particle, t: Particle, ghost b: Board, ghost S: set<Particle>)
      requires Shows(b, S) && IsLive(p) && IsLive(t) && p != t
      modifies cells, p, t
      ensures InB(b, old(p.y), old(p.x)) && !b[old(p.y)][old(p.x)].Empty?
      ensures Shows(SwapB(b, old(p.y), old(p.x), old(t.y), old(t.x)), S) && p.processed
      ensures t.processed == old(t.processed)
    {
      LiveAt(b, S, p);
      LiveAt(b, S, t);
      var i, j := p.y, p.x;
      var ni, nj := t.y, t.x;
      ghost var b1 := Put(b, i, j, b[ni][nj]);
      TakeOver(p, t, b, S);
      GoTo(p, ni, nj, b1, S, b[i][j]);
    }

    /** The grid shows b at every cell but (ei, ej). */
    ghost predicate ShowsBut(b: Board, S: set<Particle>, ei: int, ej: int)
      reads this, cells, Repr
    {
      0 < height && 0 < width && cells.Length0 == height && cells.Length1 == width &&
      S <= Repr && Shaped(b, height, width) &&
      forall k, l :: 0 <= k < height && 0 <= l < width && (k != ei || l != ej) ==>
        (cells[k, l] != null ==> cells[k, l] in Repr && cells[k, l].y == k && cells[k, l].x == l) &&
        Match(cells[k, l], b[k][l], S)
    }

    /** The first write of the swap: t takes p's cell; t's own cell is left
        for p. */
    method TakeOver(p: Particle, t: Particle, ghost b: Board, ghost S: set<Particle>)
      requires Shows(b, S) && IsLive(p) && IsLive(t) && p != t
      modifies cells, t
      ensures InB(b, old(t.y), old(t.x)) && InB(b, p.y, p.x)
      ensures ShowsBut(Put(b, p.y, p.x, b[old(t.y)][old(t.x)]), S, old(t.y), old(t.x))
      ensures p.y != old(t.y) || p.x != old(t.x)
      ensures cells.Length0 == height && cells.Length1 == width && cells[p.y, p.x] == t
      ensures t.processed == old(t.processed)
    {
      LiveAt(b, S, t);
      var i, j := p.y, p.x;
      var ni, nj := t.y, t.x;
      ghost var b1 := Put(b, i, j, b[ni][nj]);
      assert Match(t, b[ni][nj], S);
      t.y, t.x := i, j;
      cells[i, j] := t;
      forall k, l | 0 <= k < height && 0 <= l < width && (k != ni || l != nj)
        ensures cells[k, l] != null ==> cells[k, l] in Repr && cells[k, l].y == k && cells[k, l].x == l
        ensures Match(cells[k, l], b1[k][l], S)
      {
        if k != i || l != j {
          var q := old(cells[k, l]);
          assert old(Match(q, b[k][l], S));
          assert q != null ==> old(q.y) == k && old(q.x) == l && q != t;
        }
      }
    }

    /** The grid shows b, except perhaps at (ei, ej). */
    lemma ShowsAllBut(b: Board, S: set<Particle>, ei: int, ej: int)
      requires Shows(b, S)
      ensures ShowsBut(b, S, ei, ej)
    {
    }

    /** The write that puts a particle in its new cell: p, which slot s
        shows and which is in no cell, takes the coordinates (ni, nj) and is
        marked processed; inside the grid it is written into that cell,
        outside it is lost. */
    method GoTo(p: Particle, ni: int, nj: int, ghost b: Board, ghost S: set<Particle>, ghost s: Slot)
      requires ShowsBut(b, S, ni, nj) && p in Repr && Match(p, s, S)
      requires 0 <= p.y < height && 0 <= p.x < width && cells[p.y, p.x] != p
      modifies cells, p
      ensures Shows(if IsValid(ni, nj) then Put(b, ni, nj, WithSt(s, s.st.(processed := true))) else b, S)
      ensures p.processed && p.y == ni && p.x == nj
    {
      ghost var b' := if IsValid(ni, nj) then Put(b, ni, nj, WithSt(s, s.st.(processed := true))) else b;
      p.y, p.x, p.processed := ni, nj, true;
      if IsValid(ni, nj) {
        cells[ni, nj] := p;
        assert Match(p, b'[ni][nj], S);
      }
      forall k, l | 0 <= k < height && 0 <= l < width && (k != ni || l != nj)
        ensures cells[k, l] != null ==> cells[k, l] in Repr && cells[k, l].y == k && cells[k, l].x == l
        ensures Match(cells[k, l], b'[k][l], S)
      {
        var q := old(cells[k, l]);
        assert q != p;
        assert b'[k][l] == b[k][l];
      }
    }

    /** `clear`: every cell empty, the dimensions kept. */
    method Clear(ghost b: Board, ghost S: set<Particle>)
      requires Shows(b, S)
      modifies cells
      ensures Shows(Blank(height, width), S)
    {
      var i := 0;
      while i < height
        invariant 0 <= i <= height
        invariant Shows(MapUpTo(b, Erase, i, 0), S)
      {
        ClearRow(i, b, S);
        i := i + 1;
      }
      ghost var r := MapUpTo(b, Erase, height, 0);
      forall k | 0 <= k < height
        ensures r[k] == Blank(height, width)[k]
      {
      }
    }

    /** The inner loop of `clear`: row i emptied. */
    method ClearRow(i: int, ghost b: Board, ghost S: set<Particle>)
      requires 0 <= i < height && Shaped(b, height, width) && Shows(MapUpTo(b, Erase, i, 0), S)
      modifies cells
      ensures Shows(MapUpTo(b, Erase, i + 1, 0), S)
    {
      var j := 0;
      while j < width
        invariant 0 <= j <= width
        invariant Shows(MapUpTo(b, Erase, i, j), S)
      {
        MapStep(b, Erase, i, j);
        ClearCell(i, j, MapUpTo(b, Erase, i, j), S);
        j := j + 1;
      }
      MapRow(b, Erase, i);
    }

    /** `reset_processed_flags`: every particle on the grid unprocessed, the
        cells and all other state unchanged. */
    method ResetProcessed(ghost b: Board, ghost S: set<Particle>)
      requires Shows(b, S)
      modifies Repr
      ensures Shows(MapUpTo(b, Unmark, height, 0), S)
      ensures forall i, j :: 0 <= i < height && 0 <= j < width && cells[i, j] != null ==> !cells[i, j].processed
    {
      var i := 0;
      while i < height
        invariant 0 <= i <= height
        invariant Shows(MapUpTo(b, Unmark, i, 0), S)
      {
        UnmarkRow(i, b, S);
        i := i + 1;
      }
      ghost var r := MapUpTo(b, Unmark, height, 0);
      forall i, j | 0 <= i < height && 0 <= j < width && cells[i, j] != null
        ensures !cells[i, j].processed
      {
        MatchAt(r, S, i, j);
      }
    }

    /** The inner loop of `reset_processed_flags` over row i. */
    method UnmarkRow(i: int, ghost b: Board, ghost S: set<Particle>)
      requires 0 <= i < height && Shaped(b, height, width) && Shows(MapUpTo(b, Unmark, i, 0), S)
      modifies Repr
      ensures Shows(MapUpTo(b, Unmark, i + 1, 0), S)
    {
      var j := 0;
      while j < width
        invariant 0 <= j <= width
        invariant Shows(MapUpTo(b, Unmark, i, j), S)
      {
        UnmarkCell(i, j, b, S);
        j := j + 1;
      }
      MapRow(b, Unmark, i);
    }

    /** One visit of `reset_processed_flags`. */
    method UnmarkCell(i: int, j: int, ghost b: Board, ghost S: set<Particle>)
      requires 0 <= i < height && 0 <= j < width && Shaped(b, height, width)
      requires Shows(MapUpTo(b, Unmark, i, j), S)
      modifies Repr
      ensures Shows(MapUpTo(b, Unmark, i, j + 1), S)
    {
      ghost var cur := MapUpTo(b, Unmark, i, j);
      MapStep(b, Unmark, i, j);
      var q := cells[i, j];
      MatchAt(cur, S, i, j);
      if q != null {
        Restate(i, j, q.State().(processed := false), cur, S);
      } else {
        assert Put(cur, i, j, Unmark(b[i][j])) == cur by {
          assert cur[i][j := cur[i][j]] == cur[i];
        }
      }
    }

    /** `es` are the particles in cells `cs`, one for one. */
    ghost predicate Lists(es: seq<Particle>, cs: seq<(int, int)>)
      reads this, cells
    {
      |es| == |cs| &&
      forall k :: 0 <= k < |cs| ==> IsValid(cs[k].0, cs[k].1) && Dims() && es[k] == cells[cs[k].0, cs[k].1]
    }

    lemma ListsAppend(es: seq<Particle>, cs: seq<(int, int)>, es': seq<Particle>, cs': seq<(int, int)>)
      requires Lists(es, cs) && Lists(es', cs')
      ensures Lists(es + es', cs + cs')
    {
      var e2, c2 := es + es', cs + cs';
      forall k | 0 <= k < |c2|
        ensures IsValid(c2[k].0, c2[k].1) && Dims() && e2[k] == cells[c2[k].0, c2[k].1]
      {
        if k >= |cs| {
          assert c2[k] == cs'[k - |cs|] && e2[k] == es'[k - |cs|];
        }
      }
    }

    /** Which cells of board `b` are occupied, and nothing more. */
    ghost predicate Occupancy(b: Board)
      reads this, cells
    {
      Dims() && Shaped(b, height, width) &&
      forall i, j :: 0 <= i < height && 0 <= j < width ==> (cells[i, j] == null <==> b[i][j].Empty?)
    }

    lemma ShowsOccupancy(b: Board, S: set<Particle>)
      requires Shows(b, S)
      ensures Occupancy(b)
    {
      forall i, j | 0 <= i < height && 0 <= j < width
        ensures cells[i, j] == null <==> b[i][j].Empty?
      {
        MatchAt(b, S, i, j);
      }
    }

    /** `get_all_elements`: the particles of the occupied cells, in
        row-major order. */
    method GetAllElements(ghost b: Board, ghost S: set<Particle>) returns (es: seq<Particle>)
      requires Shows(b, S)
      ensures Lists(es, Filled(b, height))
    {
      ShowsOccupancy(b, S);
      es := [];
      var i := 0;
      while i < height
        invariant Shows(b, S)
        invariant 0 <= i <= height
        invariant Lists(es, Filled(b, i))
      {
        var row := ListRow(i, b);
        ListsAppend(es, Filled(b, i), row, RowCells(b, i, width));
        es := es + row;
        i := i + 1;
      }
    }

    /** One row of `get_all_elements`. */
    method ListRow(i: int, ghost b: Board) returns (es: seq<Particle>)
      requires Occupancy(b) && 0 <= i < height
      ensures Lists(es, RowCells(b, i, width))
    {
      es := [];
      var j := 0;
      while j < width
        invariant Occupancy(b)
        invariant 0 <= j <= width
        invariant Lists(es, RowCells(b, i, j))
      {
        var q := cells[i, j];
        if q != null {
          ListsAppend(es, RowCells(b, i, j), [q], [(i, j)]);
          es := es + [q];
        }
        j := j + 1;
      }
    }

    /** The board the grid shows at this moment, every particle as it is. */
    ghost method Capture() returns (b: Board)
      requires Valid()
      ensures Shows(b, Repr)
      ensures forall i, j :: 0 <= i < height && 0 <= j < width ==> b[i][j] == SlotOf(cells[i, j])
    {
      b := Blank(height, width);
      var i := 0;
      while i < height
        invariant 0 <= i <= height && Shaped(b, height, width)
        invariant forall k, l :: 0 <= k < height && 0 <= l < width ==>
          b[k][l] == if Before(k, l, i, 0) then SlotOf(cells[k, l]) else Empty
      {
        var j := 0;
        while j < width
          invariant 0 <= j <= width && Shaped(b, height, width)
          invariant forall k, l :: 0 <= k < height && 0 <= l < width ==>
            b[k][l] == if Before(k, l, i, j) then SlotOf(cells[k, l]) else Empty
        {
          b := Put(b, i, j, SlotOf(cells[i, j]));
          j := j + 1;
        }
        i := i + 1;
      }
    }
  }

  /** The particle kept its cell and its state. */
  twostate predicate Kept(p: Particle)
    reads p
  {
    p.State() == old(p.State()) && p.y == old(p.y) && p.x == old(p.x)
  }
}
