// Particles and the value view of a grid.
//
// A particle is an object: the grid holds references, and the same object
// keeps its tags and timers when it moves.  A board is the value the grid
// shows at one moment: for every cell, nothing, an existing particle with the
// state it has, or a particle made during the current update.

module Boards {
  import opened Kinds
  import opened Oracle

  /** Everything a particle carries besides its coordinates. */
  datatype St = St(
    density: int,
    isStatic: bool,
    isPowder: bool,
    isHeat: bool,
    processed: bool,
    tags: seq<string>,
    lit: bool,         // Explosive and Bomb: is_lit
    litTimer: int,     // Explosive and Bomb: lit_timer
    burning: bool,     // Thermite: is_burning
    burnTimer: int,    // Thermite: burn_timer
    solidified: bool)  // Photosensitive: is_solidified

  /** The state `cls(y, x)` gives a new element, with its tags set afterwards. */
  function Initial(k: Kind, tags: seq<string>): (st: St)
    ensures !st.processed && st.tags == tags && st.density == BaseDensity(k)
    ensures !st.lit && st.litTimer == 0 && !st.burning && st.burnTimer == 0 && !st.solidified
  {
    St(BaseDensity(k), BaseStatic(k), BasePowder(k), BaseHeat(k), false, tags,
       false, 0, false, 0, false)
  }

  class Particle {
    const kind: Kind
    var y: int
    var x: int
    var processed: bool
    var tags: seq<string>
    var density: int
    var isStatic: bool
    var isPowder: bool
    var isHeat: bool
    var lit: bool
    var litTimer: int
    var burning: bool
    var burnTimer: int
    var solidified: bool

    /** `Element.__init__` plus the element class's own constructor. */
    constructor (k: Kind, y0: int, x0: int, tags0: seq<string>)
      ensures kind == k && y == y0 && x == x0 && State() == Initial(k, tags0)
    {
      kind, y, x := k, y0, x0;
      processed, tags := false, tags0;
      density, isStatic, isPowder, isHeat := BaseDensity(k), BaseStatic(k), BasePowder(k), BaseHeat(k);
      lit, litTimer, burning, burnTimer, solidified := false, 0, false, 0, false;
    }

    function State(): St
      reads this
    {
      St(density, isStatic, isPowder, isHeat, processed, tags, lit, litTimer,
         burning, burnTimer, solidified)
    }

    /** Writes every field of the state at once; the coordinates stay. */
    method SetState(s: St)
      modifies this
      ensures State() == s && y == old(y) && x == old(x)
    {
      density, isStatic, isPowder, isHeat := s.density, s.isStatic, s.isPowder, s.isHeat;
      processed, tags := s.processed, s.tags;
      lit, litTimer, burning, burnTimer, solidified := s.lit, s.litTimer, s.burning, s.burnTimer, s.solidified;
      assert State() == St(s.density, s.isStatic, s.isPowder, s.isHeat, s.processed, s.tags,
                           s.lit, s.litTimer, s.burning, s.burnTimer, s.solidified);
    }
  }

  /** One cell of a board. */
  datatype Slot =
    | Empty
    | Old(p: Particle, st: St)   // a particle that existed before
    | New(k: Kind, st: St)       // a particle made during this update

  /** What an element sees when it looks at a cell. */
  datatype Seen = Off | Vacant | Sees(k: Kind, st: St)

  type Board = seq<seq<Slot>>

  predicate Shaped(b: Board, h: int, w: int)
  {
    |b| == h && forall i :: 0 <= i < h ==> |b[i]| == w
  }

  /** Every row has the same length. */
  predicate Rect(b: Board)
  {
    forall i :: 0 <= i < |b| ==> |b[i]| == |b[0]|
  }

  predicate InB(b: Board, i: int, j: int)
  {
    0 <= i < |b| && 0 <= j < |b[i]|
  }

  function KindOf(s: Slot): Kind
    requires !s.Empty?
  {
    match s
    case Old(p, _) => p.kind
    case New(k, _) => k
  }

  function SeenOf(s: Slot): Seen
  {
    if s.Empty? then Vacant else Sees(KindOf(s), s.st)
  }

  /** `grid.get_element` as seen by an element: out-of-range cells are `Off`. */
  function Look(b: Board, i: int, j: int): Seen
  {
    if InB(b, i, j) then SeenOf(b[i][j]) else Off
  }

  function Put(b: Board, i: int, j: int, s: Slot): (r: Board)
    requires InB(b, i, j)
    ensures |r| == |b| && forall k :: 0 <= k < |b| ==> |r[k]| == |b[k]|
    ensures r[i][j] == s
    ensures forall k, l :: 0 <= k < |b| && 0 <= l < |b[k]| && (k != i || l != j) ==> r[k][l] == b[k][l]
  {
    b[i := b[i][j := s]]
  }

  /** `set_element`: a write inside the grid, nothing outside it. */
  function Set(b: Board, i: int, j: int, s: Slot): (r: Board)
    ensures |r| == |b| && forall k :: 0 <= k < |b| ==> |r[k]| == |b[k]|
    ensures InB(b, i, j) ==> r[i][j] == s
    ensures forall k, l :: 0 <= k < |b| && 0 <= l < |b[k]| && (k != i || l != j) ==> r[k][l] == b[k][l]
  {
    if InB(b, i, j) then Put(b, i, j, s) else b
  }

  /** The same particle in the same cell with a new state. */
  function WithSt(s: Slot, st: St): Slot
  {
    match s
    case Empty => Empty
    case Old(p, _) => Old(p, st)
    case New(k, _) => New(k, st)
  }

  /** The particle in cell (i, j) marked processed. */
  function Proc(b: Board, i: int, j: int): (r: Board)
    requires InB(b, i, j) && !b[i][j].Empty?
    ensures |r| == |b| && forall k :: 0 <= k < |b| ==> |r[k]| == |b[k]|
  {
    Put(b, i, j, WithSt(b[i][j], b[i][j].st.(processed := true)))
  }

  /** The element at (i, j) moved to (ni, nj) and marked processed; whatever
      (ni, nj) held is overwritten, and a target outside the grid loses the
      element, as `set_element` ignores it. */
  function MoveB(b: Board, i: int, j: int, ni: int, nj: int): (r: Board)
    requires InB(b, i, j) && !b[i][j].Empty?
    ensures |r| == |b| && forall k :: 0 <= k < |b| ==> |r[k]| == |b[k]|
  {
    var mover := WithSt(b[i][j], b[i][j].st.(processed := true));
    var cleared := Put(b, i, j, Empty);
    if InB(b, ni, nj) then Put(cleared, ni, nj, mover) else cleared
  }

  /** `_swap_with` of the element at (i, j) and cell (ni, nj). */
  function SwapB(b: Board, i: int, j: int, ni: int, nj: int): (r: Board)
    requires InB(b, i, j) && !b[i][j].Empty?
    ensures |r| == |b| && forall k :: 0 <= k < |b| ==> |r[k]| == |b[k]|
  {
    var mover := WithSt(b[i][j], b[i][j].st.(processed := true));
    if !InB(b, ni, nj) then Put(b, i, j, Empty)
    else Put(Put(b, i, j, b[ni][nj]), ni, nj, mover)
  }

  /** Row-major order on cells: (k, l) comes before (i, j). */
  predicate Before(k: int, l: int, i: int, j: int)
  {
    k < i || (k == i && l < j)
  }

  /** `b` with `f` applied to every slot before (i, j) in row-major order. */
  function MapUpTo(b: Board, f: Slot -> Slot, i: int, j: int): (r: Board)
    ensures |r| == |b| && forall k :: 0 <= k < |b| ==> |r[k]| == |b[k]|
    ensures forall k, l :: 0 <= k < |b| && 0 <= l < |b[k]| ==>
      r[k][l] == if Before(k, l, i, j) then f(b[k][l]) else b[k][l]
  {
    seq(|b|, k requires 0 <= k < |b| =>
      seq(|b[k]|, l requires 0 <= l < |b[k]| => if Before(k, l, i, j) then f(b[k][l]) else b[k][l]))
  }

  /** One more slot of a row-major sweep. */
  lemma MapStep(b: Board, f: Slot -> Slot, i: int, j: int)
    requires InB(b, i, j)
    ensures Put(MapUpTo(b, f, i, j), i, j, f(b[i][j])) == MapUpTo(b, f, i, j + 1)
  {
    var r, r' := Put(MapUpTo(b, f, i, j), i, j, f(b[i][j])), MapUpTo(b, f, i, j + 1);
    forall k | 0 <= k < |b|
      ensures r[k] == r'[k]
    {
    }
  }

  /** The end of one row is the start of the next. */
  lemma MapRow(b: Board, f: Slot -> Slot, i: int)
    requires 0 <= i < |b|
    ensures MapUpTo(b, f, i, |b[i]|) == MapUpTo(b, f, i + 1, 0)
  {
    var r, r' := MapUpTo(b, f, i, |b[i]|), MapUpTo(b, f, i + 1, 0);
    forall k | 0 <= k < |b|
      ensures r[k] == r'[k]
    {
    }
  }

  /** The slot emptied. */
  function Erase(s: Slot): Slot
  {
    Empty
  }

  /** The slot with its particle's `processed` flag cleared. */
  function Unmark(s: Slot): (r: Slot)
    ensures r.Empty? <==> s.Empty?
  {
    if s.Empty? then s else WithSt(s, s.st.(processed := false))
  }

  /** The occupied cells of row i left of column j, left to right. */
  function RowCells(b: Board, i: int, j: int): (r: seq<(int, int)>)
    requires 0 <= i < |b| && 0 <= j <= |b[i]|
    ensures forall c :: c in r ==> c.0 == i && 0 <= c.1 < j && !b[i][c.1].Empty?
    decreases j
  {
    if j == 0 then [] else RowCells(b, i, j - 1) + (if b[i][j - 1].Empty? then [] else [(i, j - 1)])
  }

  /** The occupied cells of the rows above row i, in row-major order. */
  function Filled(b: Board, i: int): (r: seq<(int, int)>)
    requires 0 <= i <= |b|
    ensures forall c :: c in r ==> 0 <= c.0 < i && InB(b, c.0, c.1) && !b[c.0][c.1].Empty?
    decreases i
  {
    if i == 0 then [] else Filled(b, i - 1) + RowCells(b, i - 1, |b[i - 1]|)
  }

  /** Strictly increasing in row-major order. */
  predicate RowMajor(r: seq<(int, int)>)
  {
    forall m, n :: 0 <= m < n < |r| ==> Before(r[m].0, r[m].1, r[n].0, r[n].1)
  }

  lemma AppendRowMajor(r: seq<(int, int)>, t: seq<(int, int)>)
    requires RowMajor(r) && RowMajor(t)
    requires forall m, n :: 0 <= m < |r| && 0 <= n < |t| ==> Before(r[m].0, r[m].1, t[n].0, t[n].1)
    ensures RowMajor(r + t)
  {
    var u := r + t;
    forall m, n | 0 <= m < n < |u|
      ensures Before(u[m].0, u[m].1, u[n].0, u[n].1)
    {
      if n >= |r| {
        assert u[n] == t[n - |r|];
        if m >= |r| {
          assert u[m] == t[m - |r|];
        }
      }
    }
  }

  /** A row lists exactly its occupied cells, left to right. */
  lemma {:induction false} RowCellsExact(b: Board, i: int, j: int, c: (int, int))
    requires 0 <= i < |b| && 0 <= j <= |b[i]|
    ensures c in RowCells(b, i, j) <==> c.0 == i && 0 <= c.1 < j && !b[i][c.1].Empty?
    ensures RowMajor(RowCells(b, i, j))
    decreases j
  {
    if j > 0 {
      RowCellsExact(b, i, j - 1, c);
      var r := RowCells(b, i, j - 1);
      if !b[i][j - 1].Empty? {
        AppendRowMajor(r, [(i, j - 1)]);
      } else {
        assert RowCells(b, i, j) == r;
      }
    }
  }

  /** `Filled` lists exactly the occupied cells of the first i rows, in
      row-major order. */
  lemma {:induction false} FilledExact(b: Board, i: int, c: (int, int))
    requires 0 <= i <= |b|
    ensures c in Filled(b, i) <==> 0 <= c.0 < i && InB(b, c.0, c.1) && !b[c.0][c.1].Empty?
    ensures RowMajor(Filled(b, i))
    decreases i
  {
    if i > 0 {
      FilledExact(b, i - 1, c);
      RowCellsExact(b, i - 1, |b[i - 1]|, c);
      var r, t := Filled(b, i - 1), RowCells(b, i - 1, |b[i - 1]|);
      forall m, n | 0 <= m < |r| && 0 <= n < |t|
        ensures Before(r[m].0, r[m].1, t[n].0, t[n].1)
      {
        assert r[m] in r && t[n] in t;
      }
      AppendRowMajor(r, t);
    }
  }

  /** What an element's update leaves behind: the board, whether the element
      itself ended processed, and the rest of the random stream. */
  datatype Out = Out(b: Board, done: bool, r: Rng)

  // --- Neighbourhoods in the check orders the element files use ---

  /** right, left, down, up */
  const RLDU: seq<(int, int)> := [(0, 1), (0, -1), (1, 0), (-1, 0)]
  /** up, down, left, right */
  const UDLR: seq<(int, int)> := [(-1, 0), (1, 0), (0, -1), (0, 1)]
  /** orthogonal then diagonal, starting right */
  const Ring8R: seq<(int, int)> := [(0, 1), (0, -1), (1, 0), (-1, 0), (1, 1), (1, -1), (-1, 1), (-1, -1)]
  /** orthogonal then diagonal, starting up */
  const Ring8U: seq<(int, int)> := [(-1, 0), (1, 0), (0, -1), (0, 1), (-1, -1), (-1, 1), (1, -1), (1, 1)]

  /** No neighbourhood contains the cell itself. */
  lemma NoSelf()
    ensures (0, 0) !in RLDU && (0, 0) !in UDLR && (0, 0) !in Ring8R && (0, 0) !in Ring8U
  {
  }

  /** One of the eight cells around. */
  predicate Adj8(dy: int, dx: int)
  {
    -1 <= dy <= 1 && -1 <= dx <= 1 && (dy != 0 || dx != 0)
  }

  /** One of the four cells that share a side. */
  predicate Adj4(dy: int, dx: int)
  {
    (dy == 0 && (dx == 1 || dx == -1)) || (dx == 0 && (dy == 1 || dy == -1))
  }

  /** The eight-cell neighbourhoods are the cells around. */
  lemma Near8(d: (int, int))
    requires d in Ring8R || d in Ring8U
    ensures Adj8(d.0, d.1)
  {
  }

  /** The four-cell neighbourhoods are the cells that share a side. */
  lemma Near4(d: (int, int))
    requires d in RLDU || d in UDLR
    ensures Adj4(d.0, d.1)
  {
  }

  /** Every cell around is in both eight-cell orders. */
  lemma Has8(dy: int, dx: int)
    requires Adj8(dy, dx)
    ensures (dy, dx) in Ring8R && (dy, dx) in Ring8U
  {
  }

  /** Every cell sharing a side is in both four-cell orders. */
  lemma Has4(dy: int, dx: int)
    requires Adj4(dy, dx)
    ensures (dy, dx) in RLDU && (dy, dx) in UDLR
  {
  }

  /** The cells at the given offsets of (y, x) whose view satisfies `ok`, in
      offset order, skipping cells off the grid. */
  function Scan(b: Board, y: int, x: int, offs: seq<(int, int)>, ok: Seen -> bool): (r: seq<(int, int)>)
    ensures |r| <= |offs|
  {
    if offs == [] then []
    else
      var c := (y + offs[0].0, x + offs[0].1);
      var rest := Scan(b, y, x, offs[1..], ok);
      if InB(b, c.0, c.1) && ok(Look(b, c.0, c.1)) then [c] + rest else rest
  }

  /** Every cell the scan collects is on the board, satisfies `ok`, and lies
      at one of the offsets. */
  lemma ScanSound(b: Board, y: int, x: int, offs: seq<(int, int)>, ok: Seen -> bool)
    ensures forall c :: c in Scan(b, y, x, offs, ok) ==>
      InB(b, c.0, c.1) && ok(Look(b, c.0, c.1)) && (c.0 - y, c.1 - x) in offs
  {
    if offs != [] {
      ScanSound(b, y, x, offs[1..], ok);
    }
  }

  /** Writing a cell at none of the offsets leaves the scan alone. */
  lemma {:induction false} ScanSetElsewhere(b: Board, y: int, x: int, offs: seq<(int, int)>, ok: Seen -> bool,
                                            i: int, j: int, s: Slot)
    requires (i - y, j - x) !in offs
    ensures Scan(Set(b, i, j, s), y, x, offs, ok) == Scan(b, y, x, offs, ok)
  {
    if offs != [] {
      assert offs[0] != (i - y, j - x);
      ScanSetElsewhere(b, y, x, offs[1..], ok, i, j, s);
    }
  }

  /** A scan is its first cell, when that one qualifies, followed by the
      scan of the remaining offsets, which does not hold the first cell when
      its offset does not come again. */
  lemma ScanStep(b: Board, y: int, x: int, offs: seq<(int, int)>, ok: Seen -> bool)
    requires offs != [] && offs[0] !in offs[1..]
    ensures var c := (y + offs[0].0, x + offs[0].1);
      var rest := Scan(b, y, x, offs[1..], ok);
      c !in rest && Scan(b, y, x, offs, ok) == if InB(b, c.0, c.1) && ok(Look(b, c.0, c.1)) then [c] + rest else rest
  {
    ScanSound(b, y, x, offs[1..], ok);
  }

  /** A scan never collects the cell it starts from. */
  lemma ScanOthers(b: Board, y: int, x: int, offs: seq<(int, int)>, ok: Seen -> bool)
    requires (0, 0) !in offs
    ensures (y, x) !in Scan(b, y, x, offs, ok)
  {
    if offs != [] {
      ScanOthers(b, y, x, offs[1..], ok);
    }
  }

  lemma ScanComplete(b: Board, y: int, x: int, offs: seq<(int, int)>, ok: Seen -> bool, d: (int, int))
    requires d in offs && InB(b, y + d.0, x + d.1) && ok(Look(b, y + d.0, x + d.1))
    ensures (y + d.0, x + d.1) in Scan(b, y, x, offs, ok)
  {
    if offs[0] != d {
      ScanComplete(b, y, x, offs[1..], ok, d);
    }
  }

  /** Appending one offset extends the scan by at most that cell. */
  lemma ScanSnoc(b: Board, y: int, x: int, offs: seq<(int, int)>, d: (int, int), ok: Seen -> bool)
    ensures Scan(b, y, x, offs + [d], ok)
         == Scan(b, y, x, offs, ok)
            + (if InB(b, y + d.0, x + d.1) && ok(Look(b, y + d.0, x + d.1)) then [(y + d.0, x + d.1)] else [])
  {
    if offs == [] {
      assert [d][1..] == [];
    } else {
      assert (offs + [d])[0] == offs[0];
      assert (offs + [d])[1..] == offs[1..] + [d];
      ScanSnoc(b, y, x, offs[1..], d, ok);
    }
  }

  /** Some cell around (y, x), at an offset `near` admits, satisfies `ok`. */
  ghost predicate AnyNear(b: Board, y: int, x: int, near: (int, int) -> bool, ok: Seen -> bool)
  {
    exists i, j :: InB(b, i, j) && near(i - y, j - x) && ok(Look(b, i, j))
  }

  /** A scan over exactly the offsets `near` admits finds something iff some
      such cell satisfies `ok`. */
  lemma ScanAnyOf(b: Board, y: int, x: int, offs: seq<(int, int)>, near: (int, int) -> bool, ok: Seen -> bool)
    requires forall d :: d in offs ==> near(d.0, d.1)
    requires forall dy, dx :: near(dy, dx) ==> (dy, dx) in offs
    ensures Scan(b, y, x, offs, ok) != [] <==> AnyNear(b, y, x, near, ok)
  {
    ScanSound(b, y, x, offs, ok);
    if Scan(b, y, x, offs, ok) != [] {
      var c := Scan(b, y, x, offs, ok)[0];
      assert near(c.0 - y, c.1 - x);
    }
    if AnyNear(b, y, x, near, ok) {
      var i, j :| InB(b, i, j) && near(i - y, j - x) && ok(Look(b, i, j));
      ScanComplete(b, y, x, offs, ok, (i - y, j - x));
    }
  }

  lemma Scan8(b: Board, y: int, x: int, ok: Seen -> bool)
    ensures Scan(b, y, x, Ring8R, ok) != [] <==> AnyNear(b, y, x, Adj8, ok)
    ensures Scan(b, y, x, Ring8U, ok) != [] <==> AnyNear(b, y, x, Adj8, ok)
  {
    forall d | d in Ring8R || d in Ring8U
      ensures Adj8(d.0, d.1)
    {
      Near8(d);
    }
    forall dy, dx | Adj8(dy, dx)
      ensures (dy, dx) in Ring8R && (dy, dx) in Ring8U
    {
      Has8(dy, dx);
    }
    ScanAnyOf(b, y, x, Ring8R, Adj8, ok);
    ScanAnyOf(b, y, x, Ring8U, Adj8, ok);
  }

  lemma Scan4(b: Board, y: int, x: int, ok: Seen -> bool)
    ensures Scan(b, y, x, RLDU, ok) != [] <==> AnyNear(b, y, x, Adj4, ok)
    ensures Scan(b, y, x, UDLR, ok) != [] <==> AnyNear(b, y, x, Adj4, ok)
  {
    forall d | d in RLDU || d in UDLR
      ensures Adj4(d.0, d.1)
    {
      Near4(d);
    }
    forall dy, dx | Adj4(dy, dx)
      ensures (dy, dx) in RLDU && (dy, dx) in UDLR
    {
      Has4(dy, dx);
    }
    ScanAnyOf(b, y, x, RLDU, Adj4, ok);
    ScanAnyOf(b, y, x, UDLR, Adj4, ok);
  }

  /** What an eight-cell scan collects is around the cell. */
  lemma ScanIn8(b: Board, y: int, x: int, ok: Seen -> bool)
    ensures forall c :: c in Scan(b, y, x, Ring8R, ok) ==> InB(b, c.0, c.1) && ok(Look(b, c.0, c.1)) && Adj8(c.0 - y, c.1 - x)
    ensures forall c :: c in Scan(b, y, x, Ring8U, ok) ==> InB(b, c.0, c.1) && ok(Look(b, c.0, c.1)) && Adj8(c.0 - y, c.1 - x)
  {
    ScanSound(b, y, x, Ring8R, ok);
    ScanSound(b, y, x, Ring8U, ok);
    forall d | d in Ring8R || d in Ring8U
      ensures Adj8(d.0, d.1)
    {
      Near8(d);
    }
  }

  /** What a four-cell scan collects shares a side with the cell. */
  lemma ScanIn4(b: Board, y: int, x: int, ok: Seen -> bool)
    ensures forall c :: c in Scan(b, y, x, RLDU, ok) ==> InB(b, c.0, c.1) && ok(Look(b, c.0, c.1)) && Adj4(c.0 - y, c.1 - x)
    ensures forall c :: c in Scan(b, y, x, UDLR, ok) ==> InB(b, c.0, c.1) && ok(Look(b, c.0, c.1)) && Adj4(c.0 - y, c.1 - x)
  {
    ScanSound(b, y, x, RLDU, ok);
    ScanSound(b, y, x, UDLR, ok);
    forall d | d in RLDU || d in UDLR
      ensures Adj4(d.0, d.1)
    {
      Near4(d);
    }
  }

  /** A scan splits at any offset. */
  lemma {:induction false} ScanSplit(b: Board, y: int, x: int, offs: seq<(int, int)>, k: nat, ok: Seen -> bool)
    requires k <= |offs|
    ensures Scan(b, y, x, offs, ok) == Scan(b, y, x, offs[..k], ok) + Scan(b, y, x, offs[k..], ok)
  {
    if k > 0 {
      ScanSplit(b, y, x, offs[1..], k - 1, ok);
      assert offs[1..][..k - 1] == offs[..k][1..];
      assert offs[1..][k - 1..] == offs[k..];
    } else {
      assert offs[..0] == [];
    }
  }

  /** A cell on the board is collected by a four-cell scan exactly when it
      shares a side with (y, x) and satisfies `ok`. */
  lemma InScan4Iff(b: Board, y: int, x: int, ok: Seen -> bool, i: int, j: int)
    requires InB(b, i, j)
    ensures (i, j) in Scan(b, y, x, RLDU, ok) <==> Adj4(i - y, j - x) && ok(Look(b, i, j))
  {
    if (i, j) in Scan(b, y, x, RLDU, ok) {
      ScanAt(b, y, x, RLDU, ok, (i, j));
      Near4((i - y, j - x));
    }
    if Adj4(i - y, j - x) && ok(Look(b, i, j)) {
      Has4(i - y, j - x);
      ScanComplete(b, y, x, RLDU, ok, (i - y, j - x));
    }
  }

  /** One cell a scan collected. */
  lemma ScanAt(b: Board, y: int, x: int, offs: seq<(int, int)>, ok: Seen -> bool, c: (int, int))
    requires c in Scan(b, y, x, offs, ok)
    ensures InB(b, c.0, c.1) && ok(Look(b, c.0, c.1)) && (c.0 - y, c.1 - x) in offs
  {
    ScanSound(b, y, x, offs, ok);
  }

  /** One cell an eight-cell scan collected. */
  lemma InScan8(b: Board, y: int, x: int, ok: Seen -> bool, c: (int, int))
    requires c in Scan(b, y, x, Ring8R, ok) || c in Scan(b, y, x, Ring8U, ok)
    ensures InB(b, c.0, c.1) && ok(Look(b, c.0, c.1)) && Adj8(c.0 - y, c.1 - x) && c != (y, x)
  {
    var d := (c.0 - y, c.1 - x);
    if c in Scan(b, y, x, Ring8R, ok) {
      ScanAt(b, y, x, Ring8R, ok, c);
      Near8(d);
    } else {
      ScanAt(b, y, x, Ring8U, ok, c);
      Near8(d);
    }
  }

  /** One cell a four-cell scan collected. */
  lemma InScan4(b: Board, y: int, x: int, ok: Seen -> bool, c: (int, int))
    requires c in Scan(b, y, x, RLDU, ok) || c in Scan(b, y, x, UDLR, ok)
    ensures InB(b, c.0, c.1) && ok(Look(b, c.0, c.1)) && Adj4(c.0 - y, c.1 - x) && c != (y, x)
  {
    var d := (c.0 - y, c.1 - x);
    if c in Scan(b, y, x, RLDU, ok) {
      ScanAt(b, y, x, RLDU, ok, c);
      Near4(d);
    } else {
      ScanAt(b, y, x, UDLR, ok, c);
      Near4(d);
    }
  }
}
