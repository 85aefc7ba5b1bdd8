// ConveyorBelt (elements/conveyor_belt.py): a solid that pushes the element
// resting on it one cell to the right.  It declares itself not static, so
// rules that act on non-static elements treat the belt as movable.

module ConveyorRule {
  import opened Kinds
  import opened Boards
  import opened Grids
  import opened Cells
  import opened Movement

  /** `direction_dx * push_force` */
  const Shift := 1

  /** An element the belt can push: present, not static, not processed. */
  predicate Pushable(t: Seen)
  {
    Unprocessed(t) && !t.st.isStatic
  }

  /** The cell the pushed element moves into accepts it: empty, or a gas or
      liquid it strictly outweighs (swapped with it). */
  predicate Accepts(d: int, t: Seen)
  {
    t.Vacant? || (t.Sees? && (IsGas(t.k) || IsLiquid(t.k)) && CanDisplace(d, t))
  }

  /** The push condition of the belt at (y, x). */
  predicate Ready(b: Board, y: int, x: int)
  {
    Pushable(Look(b, y - 1, x)) && InB(b, y - 1, x + Shift) &&
    Accepts(Look(b, y - 1, x).st.density, Look(b, y - 1, x + Shift))
  }

  /** `ConveyorBelt.update` for an unprocessed belt at (y, x): a pushable
      element right above moves one cell right when that cell is inside and
      accepts it; the belt is processed on every path. */
  function Push(b: Board, y: int, x: int): (r: Board)
    requires InB(b, y, x) && !b[y][x].Empty?
    ensures SameShape(b, r) && Marked(b, r, y, x)
  {
    if Ready(b, y, x) then
      var b1 := if Look(b, y - 1, x + Shift).Vacant? then MoveB(b, y - 1, x, y - 1, x + Shift) else SwapB(b, y - 1, x, y - 1, x + Shift);
      assert b1[y][x] == b[y][x];
      Proc(b1, y, x)
    else Proc(b, y, x)
  }

  /** Reads the element above the belt and the cell it would move into:
      the element when the belt can push it, nothing otherwise. */
  method ReadyM(g: Grid, y: int, x: int, ghost b: Board, ghost S: set<Particle>) returns (q: Particle?, t: Seen)
    requires g.Shows(b, S)
    ensures t == Look(b, y - 1, x + Shift)
    ensures q != null <==> Ready(b, y, x)
    ensures q != null ==> g.IsLive(q) && q.y == y - 1 && q.x == x
  {
    t := g.Peek(y - 1, x + Shift, b, S);
    q := null;
    if g.IsValid(y - 1, x) {
      var a := g.GetElement(y - 1, x);
      g.MatchAt(b, S, y - 1, x);
      if a != null && !a.processed && !a.isStatic && g.IsValid(y - 1, x + Shift) && Accepts(a.density, t) {
        q := a;
      }
    }
  }

  /** The push itself, into an empty cell: the element above moves, then
      the belt is marked processed. */
  method SlideM(g: Grid, p: Particle, q: Particle, ghost b: Board, ghost S: set<Particle>)
    requires g.Hosts(b, S, p) && g.IsLive(q) && q.y == p.y - 1 && q.x == p.x
    requires Ready(b, p.y, p.x) && Look(b, p.y - 1, p.x + Shift).Vacant?
    modifies g.cells, g.Repr
    ensures g.Shows(Push(b, old(p.y), old(p.x)), S) && p.processed
    ensures g.Grew()
  {
    var y, x := p.y, p.x;
    g.LiveAt(b, S, q);
    ghost var b1 := MoveB(b, y - 1, x, y - 1, x + Shift);
    g.Relocate(q, y - 1, x + Shift, b, S);
    assert b1[y][x] == b[y][x];
    g.HostsAt(b1, S, p);
    assert Push(b, y, x) == Proc(b1, y, x);
    MarkSelf(g, p, b1, S);
  }

  /** The push itself, into a gas or liquid: the two trade places, then
      the belt is marked processed. */
  method TradeM(g: Grid, p: Particle, q: Particle, ghost b: Board, ghost S: set<Particle>)
    requires g.Hosts(b, S, p) && g.IsLive(q) && q.y == p.y - 1 && q.x == p.x
    requires Ready(b, p.y, p.x) && Look(b, p.y - 1, p.x + Shift).Sees?
    modifies g.cells, g.Repr
    ensures g.Shows(Push(b, old(p.y), old(p.x)), S) && p.processed
    ensures g.Grew()
  {
    var y, x := p.y, p.x;
    g.LiveAt(b, S, q);
    ghost var b1 := SwapB(b, y - 1, x, y - 1, x + Shift);
    g.MatchAt(b, S, y - 1, x + Shift);
    var e := g.GetElement(y - 1, x + Shift);
    assert e.y == y - 1 && e.x == x + Shift && e != p && q != p;
    ghost var st := p.State();
    g.Exchange(q, e, b, S);
    assert p.y == y && p.x == x && p.State() == st;
    assert b1[y][x] == b[y][x];
    g.HostsAt(b1, S, p);
    assert Push(b, y, x) == Proc(b1, y, x);
    MarkSelf(g, p, b1, S);
  }

  method PushM(g: Grid, p: Particle, ghost b: Board, ghost S: set<Particle>)
    requires g.Hosts(b, S, p)
    modifies g.cells, g.Repr
    ensures g.Shows(Push(b, old(p.y), old(p.x)), S) && p.processed && g.Grew()
  {
    var y, x := p.y, p.x;
    var q, t := ReadyM(g, y, x, b, S);
    if q == null {
      MarkSelf(g, p, b, S);
    } else if t.Vacant? {
      SlideM(g, p, q, b, S);
    } else {
      TradeM(g, p, q, b, S);
    }
  }

  // --- Properties ---

  /** The belt pushes exactly when a pushable element sits right above it
      and the cell to that element's right is inside and accepts it. */
  lemma PushesWhen(b: Board, y: int, x: int)
    requires InB(b, y, x) && !b[y][x].Empty?
    ensures var r := Push(b, y, x);
      r != Proc(b, y, x) <==>
        Pushable(Look(b, y - 1, x)) && InB(b, y - 1, x + 1) &&
        Accepts(Look(b, y - 1, x).st.density, Look(b, y - 1, x + 1))
  {
    var r := Push(b, y, x);
    if Pushable(Look(b, y - 1, x)) && InB(b, y - 1, x + 1) && Accepts(Look(b, y - 1, x).st.density, Look(b, y - 1, x + 1)) {
      assert r[y - 1][x + 1] != b[y - 1][x + 1];
    }
  }

  /** A push moves the element from above the belt one cell right, marked
      processed so it moves once per frame, and leaves in its old cell
      nothing or the gas or liquid it displaced; the belt is only marked
      processed, and no other cell changes. */
  lemma PushMoves(b: Board, y: int, x: int)
    requires InB(b, y, x) && !b[y][x].Empty?
    requires Pushable(Look(b, y - 1, x)) && InB(b, y - 1, x + 1)
    requires Accepts(Look(b, y - 1, x).st.density, Look(b, y - 1, x + 1))
    ensures var r := Push(b, y, x);
      Marked(b, r, y, x) &&
      r[y - 1][x + 1] == WithSt(b[y - 1][x], b[y - 1][x].st.(processed := true)) &&
      r[y - 1][x] == b[y - 1][x + 1] &&
      forall i, j :: InB(b, i, j) && (i, j) !in {(y, x), (y - 1, x), (y - 1, x + 1)} ==> r[i][j] == b[i][j]
  {
  }

  /** Without a push only the belt changes: it is marked processed. */
  lemma IdleBelt(b: Board, y: int, x: int)
    requires InB(b, y, x) && !b[y][x].Empty?
    requires !(Pushable(Look(b, y - 1, x)) && InB(b, y - 1, x + 1) &&
               Accepts(Look(b, y - 1, x).st.density, Look(b, y - 1, x + 1)))
    ensures var r := Push(b, y, x);
      Marked(b, r, y, x) && forall i, j :: InB(b, i, j) && (i, j) != (y, x) ==> r[i][j] == b[i][j]
  {
  }

  /** Only a strictly heavier element can be pushed into an occupied cell,
      so two elements never trade places by the belt twice over. */
  lemma PushStrict(d: int, t: Seen)
    requires Accepts(d, t) && t.Sees?
    ensures d > t.st.density
  {
  }

  /** The belt itself is movable to rules that test `is_static`. */
  lemma BeltNotStatic()
    ensures !BaseStatic(Conveyor) && ArchOf(Conveyor) == StaticA
  {
  }
}
