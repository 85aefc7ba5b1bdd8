// The movement framework of the archetypes: the density rule, the fall of
// powders and liquids (straight, then diagonal with side clearance), the
// horizontal probe of liquids, and the rise, spread and boundary
// dissipation of gases.
//
// Each step is a function on boards, and a method on the grid that is proved
// to show the board the function gives.

module Movement {
  import opened Kinds
  import opened Oracle
  import opened Boards
  import opened Grids

  /** `_can_displace`: anything moves into nothing; otherwise only the
      strictly denser element displaces the other. */
  predicate CanDisplace(d: int, t: Seen)
  {
    !t.Sees? || d > t.st.density
  }

  /** No element displaces an element of its own density, and no two
      elements displace each other. */
  lemma DisplaceStrict(a: St, ka: Kind, c: St, kc: Kind)
    ensures a.density == c.density ==> !CanDisplace(a.density, Sees(kc, c))
    ensures CanDisplace(a.density, Sees(kc, c)) ==> !CanDisplace(c.density, Sees(ka, a))
  {
  }

  /** How an element moves: powder grains, a liquid, a gas, or the
      upward-falling antigravity powder. */
  datatype Phase = Grains | Fluid | Vapour | Rising

  /** An occupied cell the mover may swap with. */
  predicate Takes(m: Phase, d: int, t: Seen)
  {
    t.Sees? &&
    match m
    case Grains => (IsLiquid(t.k) || IsGas(t.k) || t.st.isPowder) && CanDisplace(d, t)
    case Fluid => (IsGas(t.k) || IsLiquid(t.k)) && CanDisplace(d, t)
    case Vapour => IsGas(t.k) && CanDisplace(d, t)
    case Rising => if IsGas(t.k) then CanDisplace(d, t) else t.k == AntiGravity && d < t.st.density
  }

  /** The same-row cell a diagonal step passes: empty or gas, and for powder
      grains also liquid.  A cell off the grid reads as empty. */
  predicate Clear(m: Phase, t: Seen)
  {
    !t.Sees? || IsGas(t.k) || (m == Grains && IsLiquid(t.k))
  }

  /** The row a falling element looks at. */
  function Ahead(m: Phase, y: int): int
  {
    if m == Rising then y - 1 else y + 1
  }

  /** Cell (ny, nx) is inside and free for the mover: empty or one it takes. */
  predicate Opens(b: Board, ny: int, nx: int, m: Phase, d: int)
  {
    InB(b, ny, nx) && (Look(b, ny, nx).Vacant? || Takes(m, d, Look(b, ny, nx)))
  }

  /** The move into an open cell: `_move_to` into an empty one, `_swap_with` otherwise. */
  function Go(b: Board, y: int, x: int, ny: int, nx: int): Board
    requires InB(b, y, x) && !b[y][x].Empty?
  {
    if Look(b, ny, nx).Vacant? then MoveB(b, y, x, ny, nx) else SwapB(b, y, x, ny, nx)
  }

  /** A diagonal candidate: its column and whether it is a swap. */
  datatype Pick = NoPick | PickAt(nx: int, swap: bool)

  /** One direction of the diagonal search. */
  function DiagTry(b: Board, y: int, x: int, ny: int, dx: int, m: Phase, d: int): (pk: Pick)
    ensures pk.PickAt? ==> pk.nx == x + dx && Opens(b, ny, x + dx, m, d) && Clear(m, Look(b, y, x + dx))
    ensures pk.PickAt? ==> (pk.swap <==> !Look(b, ny, x + dx).Vacant?)
    ensures pk.NoPick? ==> !Opens(b, ny, x + dx, m, d) || !Clear(m, Look(b, y, x + dx))
  {
    var nx := x + dx;
    if !InB(b, ny, nx) then NoPick
    else
      var t := Look(b, ny, nx);
      if t.Vacant? then (if Clear(m, Look(b, y, nx)) then PickAt(nx, false) else NoPick)
      else if Takes(m, d, t) then (if Clear(m, Look(b, y, nx)) then PickAt(nx, true) else NoPick)
      else NoPick
  }

  /** The first direction in `dirs` that gives a candidate. */
  function FirstPick(b: Board, y: int, x: int, ny: int, dirs: seq<int>, m: Phase, d: int): Pick
  {
    if dirs == [] then NoPick
    else
      var pk := DiagTry(b, y, x, ny, dirs[0], m, d);
      if pk.PickAt? then pk else FirstPick(b, y, x, ny, dirs[1..], m, d)
  }

  /** The fall step of Powder, Liquid and AntiGravityPowder: straight on,
      then the diagonals in shuffled order.  `done` says the element moved;
      otherwise the board is unchanged. */
  function Fall(b: Board, y: int, x: int, m: Phase, r: Rng): Out
    requires InB(b, y, x) && !b[y][x].Empty?
  {
    var d := b[y][x].st.density;
    var ny := Ahead(m, y);
    if Opens(b, ny, x, m, d) then Out(Go(b, y, x, ny, x), true, r)
    else
      var (first, r1) := FirstSide(r);
      var pk := FirstPick(b, y, x, ny, [first, -first], m, d);
      if pk.PickAt? then Out(Go(b, y, x, ny, pk.nx), true, r1)
      else Out(b, false, r1)
  }

  /** Moving into the cell in direction dx (-1, 0 or 1) on the row ahead. */
  predicate StepsTo(b: Board, y: int, x: int, dx: int, m: Phase, b': Board)
    requires InB(b, y, x) && !b[y][x].Empty?
  {
    var d := b[y][x].st.density;
    Opens(b, Ahead(m, y), x + dx, m, d) && (dx == 0 || Clear(m, Look(b, y, x + dx))) &&
    b' == Go(b, y, x, Ahead(m, y), x + dx)
  }

  /** The fall moves at most one row, straight if it can, diagonally only
      past a clear side cell, and stays only when no move is open. */
  lemma FallSpec(b: Board, y: int, x: int, m: Phase, r: Rng)
    requires InB(b, y, x) && !b[y][x].Empty?
    ensures var o := Fall(b, y, x, m, r); var d := b[y][x].st.density; var ny := Ahead(m, y);
      && (Opens(b, ny, x, m, d) ==> StepsTo(b, y, x, 0, m, o.b) && o.done)
      && (o.done <==> Opens(b, ny, x, m, d) || StepsTo(b, y, x, -1, m, Go(b, y, x, ny, x - 1))
                                            || StepsTo(b, y, x, 1, m, Go(b, y, x, ny, x + 1)))
      && (o.done ==> StepsTo(b, y, x, 0, m, o.b) || StepsTo(b, y, x, -1, m, o.b) || StepsTo(b, y, x, 1, m, o.b))
      && (!o.done ==> o.b == b)
  {
    var d := b[y][x].st.density;
    var ny := Ahead(m, y);
    var (first, r1) := FirstSide(r);
    var dirs := [first, -first];
    assert dirs[1..] == [-first] && dirs[1..][1..] == [];
    var p1 := DiagTry(b, y, x, ny, first, m, d);
    var p2 := DiagTry(b, y, x, ny, -first, m, d);
    assert FirstPick(b, y, x, ny, dirs[1..][1..], m, d) == NoPick;
    assert FirstPick(b, y, x, ny, dirs[1..], m, d) == p2;
    assert FirstPick(b, y, x, ny, dirs, m, d) == if p1.PickAt? then p1 else p2;
  }

  /** What a horizontal or vertical probe has found: the target cell,
      whether there is one, whether it is a swap, and whether the probe ran
      off the grid. */
  datatype Flow = Flow(ty: int, tx: int, can: bool, swap: bool, edge: bool)

  /** The probe from (y, x) before it has looked at any cell. */
  function Start(y: int, x: int): Flow
  {
    Flow(y, x, false, false, false)
  }

  /** The cell at distance i from (y, x) in direction (dy, dx). */
  function Far(b: Board, y: int, x: int, dy: int, dx: int, i: int): Seen
  {
    Look(b, y + dy * i, x + dx * i)
  }

  /** The first direction of a probe, from distance i on: the farthest cell
      of the run of empty cells, or the first cell it takes as a swap. */
  function Probe(b: Board, y: int, x: int, dy: int, dx: int, i: int, n: int, m: Phase, d: int, f: Flow): Flow
    requires 1 <= i
    decreases n + 1 - i
  {
    if i > n then f
    else
      var c := Far(b, y, x, dy, dx, i);
      if c.Off? then f.(edge := true)
      else if c.Vacant? then Probe(b, y, x, dy, dx, i + 1, n, m, d, Flow(y + dy * i, x + dx * i, true, false, f.edge))
      else if Takes(m, d, c) then Flow(y + dy * i, x + dx * i, true, true, f.edge)
      else f
  }

  /** The second direction of a probe: a swap wins; an empty cell counts only
      while nothing has been found; another element stops it. */
  function Reprobe(b: Board, y: int, x: int, dy: int, dx: int, i: int, n: int, m: Phase, d: int, f: Flow): Flow
    requires 1 <= i
    decreases n + 1 - i
  {
    if i > n then f
    else
      var c := Far(b, y, x, dy, dx, i);
      if c.Off? then f
      else if Takes(m, d, c) then Flow(y + dy * i, x + dx * i, true, true, f.edge)
      else if c.Vacant? && !f.can then Reprobe(b, y, x, dy, dx, i + 1, n, m, d, Flow(y + dy * i, x + dx * i, true, false, f.edge))
      else if c.Sees? then f
      else Reprobe(b, y, x, dy, dx, i + 1, n, m, d, f)
  }

  /** The horizontal probe of Liquid and Gas: direction `dir` up to `n`
      cells, then the opposite direction unless a swap was found. */
  function Sweep(b: Board, y: int, x: int, dir: int, n: int, m: Phase, d: int): Flow
  {
    var f := Probe(b, y, x, 0, dir, 1, n, m, d, Start(y, x));
    if f.swap then f else Reprobe(b, y, x, 0, -dir, 1, n, m, d, f)
  }

  /** Carrying out what a probe found: a swap, or a `_move_to` that only
      succeeds into a cell holding nothing. */
  function Exec(b: Board, y: int, x: int, f: Flow, r: Rng): Out
    requires InB(b, y, x) && !b[y][x].Empty?
  {
    if f.can && (f.ty != y || f.tx != x) then
      if f.swap then Out(SwapB(b, y, x, f.ty, f.tx), true, r)
      else if !Look(b, f.ty, f.tx).Sees? then Out(MoveB(b, y, x, f.ty, f.tx), true, r)
      else Out(b, false, r)
    else Out(b, false, r)
  }

  /** Cells 1 to k in direction (dy, dx) are all empty. */
  predicate Run(b: Board, y: int, x: int, dy: int, dx: int, k: int)
  {
    forall j :: 1 <= j <= k ==> Far(b, y, x, dy, dx, j).Vacant?
  }

  /** The probe stops at the first cell that is not empty: a swap there if it
      takes it, otherwise the last empty cell before it, or nothing. */
  lemma {:induction false} ProbeSpec(b: Board, y: int, x: int, dy: int, dx: int, i: int, n: int, m: Phase, d: int, f: Flow)
    requires 1 <= i <= n + 1 && Run(b, y, x, dy, dx, i - 1)
    requires f.can ==> i >= 2 && f == Flow(y + dy * (i - 1), x + dx * (i - 1), true, false, false)
    requires !f.can ==> i == 1 && f == Start(y, x)
    ensures var g := Probe(b, y, x, dy, dx, i, n, m, d, f);
      exists k :: i - 1 <= k <= n && Run(b, y, x, dy, dx, k) &&
        if k == n then !g.swap && !g.edge && (k == 0 ==> g == Start(y, x)) && (k > 0 ==> g == Flow(y + dy * k, x + dx * k, true, false, false))
        else
          var c := Far(b, y, x, dy, dx, k + 1);
          !c.Vacant? &&
          (Takes(m, d, c) ==> g == Flow(y + dy * (k + 1), x + dx * (k + 1), true, true, false)) &&
          (!Takes(m, d, c) ==>
             && g.edge == c.Off? && !g.swap
             && (k == 0 ==> g.(edge := false) == Start(y, x))
             && (k > 0 ==> g.(edge := false) == Flow(y + dy * k, x + dx * k, true, false, false)))
    decreases n + 1 - i
  {
    var g := Probe(b, y, x, dy, dx, i, n, m, d, f);
    if i > n {
      assert Run(b, y, x, dy, dx, n);
    } else {
      var c := Far(b, y, x, dy, dx, i);
      if c.Vacant? {
        var f' := Flow(y + dy * i, x + dx * i, true, false, f.edge);
        assert Run(b, y, x, dy, dx, i);
        ProbeSpec(b, y, x, dy, dx, i + 1, n, m, d, f');
      } else {
        assert Run(b, y, x, dy, dx, i - 1);
      }
    }
  }

  /** The second direction can only add a swap, or, when the first found
      nothing, the empty cell right beside the mover. */
  lemma ReprobeSpec(b: Board, y: int, x: int, dy: int, dx: int, n: int, m: Phase, d: int, f: Flow)
    requires 0 <= n
    ensures var g := Reprobe(b, y, x, dy, dx, 1, n, m, d, f);
      || g == f
      || (exists k :: 1 <= k <= n && Run(b, y, x, dy, dx, k - 1) && Takes(m, d, Far(b, y, x, dy, dx, k)) &&
                      g == Flow(y + dy * k, x + dx * k, true, true, f.edge))
      || (!f.can && 1 <= n && Far(b, y, x, dy, dx, 1).Vacant? && g == Flow(y + dy, x + dx, true, false, f.edge))
  {
    ReprobeFrom(b, y, x, dy, dx, 1, n, m, d, f, f);
  }

  lemma {:induction false} ReprobeFrom(b: Board, y: int, x: int, dy: int, dx: int, i: int, n: int, m: Phase, d: int, f0: Flow, f: Flow)
    requires 1 <= i <= n + 1 && Run(b, y, x, dy, dx, i - 1)
    requires (f == f0 && (i == 1 || f0.can)) || (!f0.can && i >= 2 && f == Flow(y + dy, x + dx, true, false, f0.edge))
    ensures var g := Reprobe(b, y, x, dy, dx, i, n, m, d, f);
      || g == f0
      || (exists k :: 1 <= k <= n && Run(b, y, x, dy, dx, k - 1) && Takes(m, d, Far(b, y, x, dy, dx, k)) &&
                      g == Flow(y + dy * k, x + dx * k, true, true, f0.edge))
      || (!f0.can && 1 <= n && Far(b, y, x, dy, dx, 1).Vacant? && g == Flow(y + dy, x + dx, true, false, f0.edge))
    decreases n + 1 - i
  {
    if i <= n {
      var c := Far(b, y, x, dy, dx, i);
      if c.Off? {
      } else if Takes(m, d, c) {
        assert Run(b, y, x, dy, dx, i - 1);
      } else if c.Vacant? && !f.can {
        assert i == 1;
        ReprobeFrom(b, y, x, dy, dx, i + 1, n, m, d, f0, Flow(y + dy * i, x + dx * i, true, false, f.edge));
      } else if c.Sees? {
      } else {
        assert Run(b, y, x, dy, dx, i);
        ReprobeFrom(b, y, x, dy, dx, i + 1, n, m, d, f0, f);
      }
    }
  }

  /** A probe result points at a cell it may enter: an empty cell for a
      move, a cell it takes for a swap, never the mover's own. */
  predicate Aims(b: Board, y: int, x: int, m: Phase, d: int, f: Flow)
  {
    (f.can ==> InB(b, f.ty, f.tx) && (f.ty != y || f.tx != x) &&
               (f.swap ==> Takes(m, d, Look(b, f.ty, f.tx))) &&
               (!f.swap ==> Look(b, f.ty, f.tx).Vacant?)) &&
    (!f.can ==> !f.swap)
  }

  /** One of the four unit directions. */
  predicate Unit(dy: int, dx: int)
  {
    (dy == 0 && (dx == 1 || dx == -1)) || (dx == 0 && (dy == 1 || dy == -1))
  }

  lemma {:induction false} ProbeAims(b: Board, y: int, x: int, dy: int, dx: int, i: int, n: int, m: Phase, d: int, f: Flow)
    requires 1 <= i && Unit(dy, dx) && Aims(b, y, x, m, d, f)
    ensures Aims(b, y, x, m, d, Probe(b, y, x, dy, dx, i, n, m, d, f))
    ensures dy == 0 && f.ty == y ==> Probe(b, y, x, dy, dx, i, n, m, d, f).ty == y
    decreases n + 1 - i
  {
    if i <= n {
      var c := Far(b, y, x, dy, dx, i);
      if c.Vacant? {
        ProbeAims(b, y, x, dy, dx, i + 1, n, m, d, Flow(y + dy * i, x + dx * i, true, false, f.edge));
      }
    }
  }

  lemma {:induction false} ReprobeAims(b: Board, y: int, x: int, dy: int, dx: int, i: int, n: int, m: Phase, d: int, f: Flow)
    requires 1 <= i && Unit(dy, dx) && Aims(b, y, x, m, d, f)
    ensures Aims(b, y, x, m, d, Reprobe(b, y, x, dy, dx, i, n, m, d, f))
    ensures dy == 0 && f.ty == y ==> Reprobe(b, y, x, dy, dx, i, n, m, d, f).ty == y
    decreases n + 1 - i
  {
    if i <= n {
      var c := Far(b, y, x, dy, dx, i);
      if !c.Off? && !Takes(m, d, c) {
        if c.Vacant? && !f.can {
          ReprobeAims(b, y, x, dy, dx, i + 1, n, m, d, Flow(y + dy * i, x + dx * i, true, false, f.edge));
        } else if c.Vacant? {
          ReprobeAims(b, y, x, dy, dx, i + 1, n, m, d, f);
        }
      }
    }
  }

  /** The horizontal flow moves exactly when the probe found a target: its
      `_move_to` never meets an occupied cell. */
  lemma SweepExec(b: Board, y: int, x: int, dir: int, n: int, m: Phase, r: Rng)
    requires InB(b, y, x) && !b[y][x].Empty? && (dir == 1 || dir == -1)
    ensures var f := Sweep(b, y, x, dir, n, m, b[y][x].st.density);
      Aims(b, y, x, m, b[y][x].st.density, f) && f.ty == y &&
      Exec(b, y, x, f, r).done == f.can
  {
    var d := b[y][x].st.density;
    var f1 := Probe(b, y, x, 0, dir, 1, n, m, d, Start(y, x));
    ProbeAims(b, y, x, 0, dir, 1, n, m, d, Start(y, x));
    ReprobeAims(b, y, x, 0, -dir, 1, n, m, d, f1);
  }

  /** The mover went to another cell that was open for it. */
  ghost predicate Moved(b: Board, y: int, x: int, m: Phase, b': Board)
    requires InB(b, y, x) && !b[y][x].Empty?
  {
    exists ty, tx :: (ty != y || tx != x) && Opens(b, ty, tx, m, b[y][x].st.density) && b' == Go(b, y, x, ty, tx)
  }

  /** Carrying out a probe that aims right moves the mover or changes nothing. */
  lemma ExecMoves(b: Board, y: int, x: int, m: Phase, f: Flow, r: Rng)
    requires InB(b, y, x) && !b[y][x].Empty? && Aims(b, y, x, m, b[y][x].st.density, f)
    ensures var o := Exec(b, y, x, f, r);
      o.r == r && o.done == f.can && (o.done ==> Moved(b, y, x, m, o.b)) && (!o.done ==> o.b == b)
  {
    if f.can {
      assert Opens(b, f.ty, f.tx, m, b[y][x].st.density);
      assert Exec(b, y, x, f, r).b == Go(b, y, x, f.ty, f.tx);
    }
  }

  /** Liquid movement: the fall, then the horizontal flow. */
  function LiquidMove(b: Board, y: int, x: int, r: Rng): Out
    requires InB(b, y, x) && !b[y][x].Empty?
  {
    var o := Fall(b, y, x, Fluid, r);
    if o.done then o
    else
      var (dir, r1) := Side(o.r);
      Exec(b, y, x, Sweep(b, y, x, dir, FlowSpeed(KindOf(b[y][x])), Fluid, b[y][x].st.density), r1)
  }

  /** A liquid moves to a cell open for it, or the board is unchanged. */
  lemma LiquidMoveSpec(b: Board, y: int, x: int, r: Rng)
    requires InB(b, y, x) && !b[y][x].Empty?
    ensures var o := LiquidMove(b, y, x, r);
      (o.done ==> Moved(b, y, x, Fluid, o.b)) && (!o.done ==> o.b == b)
  {
    var o := Fall(b, y, x, Fluid, r);
    FallSpec(b, y, x, Fluid, r);
    if o.done {
      var ny := Ahead(Fluid, y);
      if StepsTo(b, y, x, 0, Fluid, o.b) {
        assert Opens(b, ny, x, Fluid, b[y][x].st.density);
      } else if StepsTo(b, y, x, -1, Fluid, o.b) {
        assert Opens(b, ny, x - 1, Fluid, b[y][x].st.density);
      } else {
        assert Opens(b, ny, x + 1, Fluid, b[y][x].st.density);
      }
    } else {
      var (dir, r1) := Side(o.r);
      SweepExec(b, y, x, dir, FlowSpeed(KindOf(b[y][x])), Fluid, r1);
      ExecMoves(b, y, x, Fluid, Sweep(b, y, x, dir, FlowSpeed(KindOf(b[y][x])), Fluid, b[y][x].st.density), r1);
    }
  }

  /** `check_boundary_dissipation`: whether a gas whose rise runs off the
      top vanishes.  Steam and Fire never do; Smoke has 2.5 times its 0.02
      chance; every other gas keeps the default 0.01. */
  function Dissipates(k: Kind, r: Rng): (res: (bool, Rng))
    ensures k == Steam || k == Fire ==> res == (false, r)
    ensures k != Steam && k != Fire ==> res.1 == Next(r)
  {
    if k == Steam || k == Fire then (false, r)
    else if k == Smoke then Chance(r, 50)
    else Chance(r, 10)
  }

  /** The rise probe of a gas: straight up, `rise_speed` cells. */
  function Rise(b: Board, y: int, x: int): Flow
    requires InB(b, y, x) && !b[y][x].Empty?
  {
    Probe(b, y, x, -1, 0, 1, RiseSpeed(KindOf(b[y][x])), Vapour, b[y][x].st.density, Start(y, x))
  }

  /** Gas movement: rise (or vanish at the top edge), and spread only when
      it did not rise. */
  function GasMove(b: Board, y: int, x: int, r: Rng): Out
    requires InB(b, y, x) && !b[y][x].Empty?
  {
    var k := KindOf(b[y][x]);
    var up := Rise(b, y, x);
    var (gone, r1) := if up.edge then Dissipates(k, r) else (false, r);
    if gone then Out(Put(b, y, x, Empty), true, r1)
    else
      var o := Exec(b, y, x, up, r1);
      if o.done then o
      else
        var (dir, r2) := Side(r1);
        Exec(b, y, x, Sweep(b, y, x, dir, SpreadFactor(k), Vapour, b[y][x].st.density), r2)
  }

  /** A rise that runs off the grid passed only empty cells up to the top
      row. */
  lemma RiseEdge(b: Board, y: int, x: int)
    requires InB(b, y, x) && !b[y][x].Empty? && Rect(b)
    ensures Rise(b, y, x).edge ==> y < RiseSpeed(KindOf(b[y][x])) && Run(b, y, x, -1, 0, y)
  {
    var n, d := RiseSpeed(KindOf(b[y][x])), b[y][x].st.density;
    var g := Rise(b, y, x);
    ProbeSpec(b, y, x, -1, 0, 1, n, Vapour, d, Start(y, x));
    var k :| 0 <= k <= n && Run(b, y, x, -1, 0, k) &&
      if k == n then !g.swap && !g.edge && (k == 0 ==> g == Start(y, x)) && (k > 0 ==> g == Flow(y - k, x, true, false, false))
      else
        var c := Far(b, y, x, -1, 0, k + 1);
        !c.Vacant? &&
        (Takes(Vapour, d, c) ==> g == Flow(y - (k + 1), x, true, true, false)) &&
        (!Takes(Vapour, d, c) ==> g.edge == c.Off? && !g.swap);
    if g.edge {
      assert k < n;
      if k > 0 {
        assert Far(b, y, x, -1, 0, k).Vacant?;
      }
      assert k == y;
    }
  }

  /** A gas stays, moves to a cell open for it, or (only when its rise runs
      off the top, and never for Steam or Fire) vanishes. */
  lemma GasMoveSpec(b: Board, y: int, x: int, r: Rng)
    requires InB(b, y, x) && !b[y][x].Empty? && Rect(b)
    ensures var o := GasMove(b, y, x, r); var k := KindOf(b[y][x]);
      || (!o.done && o.b == b)
      || (o.done && Moved(b, y, x, Vapour, o.b))
      || (o.done && k != Steam && k != Fire && y < RiseSpeed(k) && Run(b, y, x, -1, 0, y) && o.b == Put(b, y, x, Empty))
    ensures Opens(b, y - 1, x, Vapour, b[y][x].st.density) ==> GasMove(b, y, x, r).done
  {
    var k, d := KindOf(b[y][x]), b[y][x].st.density;
    var up := Rise(b, y, x);
    ProbeAims(b, y, x, -1, 0, 1, RiseSpeed(k), Vapour, d, Start(y, x));
    RiseEdge(b, y, x);
    var (gone, r1) := if up.edge then Dissipates(k, r) else (false, r);
    if !gone {
      ExecMoves(b, y, x, Vapour, up, r1);
      var (dir, r2) := Side(r1);
      SweepExec(b, y, x, dir, SpreadFactor(k), Vapour, r2);
      ExecMoves(b, y, x, Vapour, Sweep(b, y, x, dir, SpreadFactor(k), Vapour, d), r2);
      if Opens(b, y - 1, x, Vapour, d) {
        RiseOpen(b, y, x, RiseSpeed(k), d);
      }
    }
  }

  /** A rise whose first cell is open finds a target. */
  lemma RiseOpen(b: Board, y: int, x: int, n: int, d: int)
    requires 1 <= n && Opens(b, y - 1, x, Vapour, d)
    ensures Probe(b, y, x, -1, 0, 1, n, Vapour, d, Start(y, x)).can
  {
    var c := Far(b, y, x, -1, 0, 1);
    assert c == Look(b, y - 1, x);
    if c.Vacant? {
      ProbeCan(b, y, x, -1, 0, 2, n, Vapour, d, Flow(y - 1, x, true, false, false));
    }
  }

  /** Once a probe has a target it keeps one. */
  lemma {:induction false} ProbeCan(b: Board, y: int, x: int, dy: int, dx: int, i: int, n: int, m: Phase, d: int, f: Flow)
    requires 1 <= i && f.can
    ensures Probe(b, y, x, dy, dx, i, n, m, d, f).can
    decreases n + 1 - i
  {
    if i <= n && Far(b, y, x, dy, dx, i).Vacant? {
      ProbeCan(b, y, x, dy, dx, i + 1, n, m, d, Flow(y + dy * i, x + dx * i, true, false, f.edge));
    }
  }

  // --- The same steps on the grid ---

  /** One direction of the diagonal search, read off the grid. */
  method DiagTryM(g: Grid, y: int, x: int, ny: int, dx: int, m: Phase, d: int, ghost b: Board, ghost S: set<Particle>)
    returns (pk: Pick)
    requires g.Shows(b, S)
    ensures pk == DiagTry(b, y, x, ny, dx, m, d)
  {
    var nx := x + dx;
    pk := NoPick;
    if g.IsValid(ny, nx) {
      var t := g.Peek(ny, nx, b, S);
      if t.Vacant? || Takes(m, d, t) {
        var side := g.Peek(y, nx, b, S);
        if Clear(m, side) {
          pk := PickAt(nx, !t.Vacant?);
        }
      }
    }
  }

  /** The loop over the shuffled diagonal directions, stopping at the first
      candidate. */
  method FirstPickM(g: Grid, y: int, x: int, ny: int, first: int, m: Phase, d: int, ghost b: Board, ghost S: set<Particle>)
    returns (pk: Pick)
    requires g.Shows(b, S)
    ensures pk == FirstPick(b, y, x, ny, [first, -first], m, d)
  {
    var dirs := [first, -first];
    var k := 0;
    pk := NoPick;
    while k < |dirs|
      invariant g.Shows(b, S)
      invariant 0 <= k <= |dirs|
      invariant FirstPick(b, y, x, ny, dirs[k..], m, d) == FirstPick(b, y, x, ny, dirs, m, d)
    {
      assert dirs[k..][1..] == dirs[k + 1..];
      var t := DiagTryM(g, y, x, ny, dirs[k], m, d, b, S);
      if t.PickAt? {
        pk := t;
        return;
      }
      k := k + 1;
    }
  }

  /** `_move_to` into an empty cell, `_swap_with` otherwise. */
  method GoM(g: Grid, p: Particle, ny: int, nx: int, c: Seen, ghost b: Board, ghost S: set<Particle>)
    requires g.Hosts(b, S, p) && c == Look(b, ny, nx)
    modifies g.cells, g.Repr
    ensures g.Shows(Go(b, old(p.y), old(p.x), ny, nx), S) && p.processed
    ensures g.Grew()
  {
    if c.Vacant? {
      var ok := g.MoveTo(p, ny, nx, b, S);
    } else {
      g.SwapWith(p, ny, nx, b, S);
    }
  }

  /** The fall step on the grid. */
  method FallM(g: Grid, p: Particle, m: Phase, rng: Rng, ghost b: Board, ghost S: set<Particle>) returns (rng': Rng)
    requires g.Hosts(b, S, p) && !p.processed
    modifies g.cells, g.Repr
    ensures var o := Fall(b, old(p.y), old(p.x), m, rng);
      g.Shows(o.b, S) && rng' == o.r && (p.processed <==> o.done) && (!o.done ==> Kept(p))
    ensures g.Grew()
  {
    var y, x := p.y, p.x;
    var d := p.density;
    var ny := Ahead(m, y);
    var c := g.Peek(ny, x, b, S);
    if g.IsValid(ny, x) && (c.Vacant? || Takes(m, d, c)) {
      GoM(g, p, ny, x, c, b, S);
      return rng;
    }
    var (first, r1) := FirstSide(rng);
    var pk := FirstPickM(g, y, x, ny, first, m, d, b, S);
    if pk.PickAt? {
      var c' := g.Peek(ny, pk.nx, b, S);
      GoM(g, p, ny, pk.nx, c', b, S);
    }
    rng' := r1;
  }

  /** The first direction of a probe, read off the grid. */
  method ProbeM(g: Grid, y: int, x: int, dy: int, dx: int, n: int, m: Phase, d: int, ghost b: Board, ghost S: set<Particle>)
    returns (f: Flow)
    requires g.Shows(b, S)
    ensures f == Probe(b, y, x, dy, dx, 1, n, m, d, Start(y, x))
  {
    f := Start(y, x);
    var i := 1;
    while i <= n
      invariant g.Shows(b, S)
      invariant 1 <= i
      invariant Probe(b, y, x, dy, dx, i, n, m, d, f) == Probe(b, y, x, dy, dx, 1, n, m, d, Start(y, x))
      decreases n + 1 - i
    {
      var ty, tx := y + dy * i, x + dx * i;
      var c := g.Peek(ty, tx, b, S);
      assert c == Far(b, y, x, dy, dx, i);
      if c.Off? {
        f := f.(edge := true);
        return;
      }
      if !c.Vacant? {
        if Takes(m, d, c) {
          f := Flow(ty, tx, true, true, f.edge);
        }
        return;
      }
      f := Flow(ty, tx, true, false, f.edge);
      i := i + 1;
    }
  }

  /** The second direction of a probe, read off the grid. */
  method ReprobeM(g: Grid, y: int, x: int, dy: int, dx: int, n: int, m: Phase, d: int, f0: Flow, ghost b: Board, ghost S: set<Particle>)
    returns (f: Flow)
    requires g.Shows(b, S)
    ensures f == Reprobe(b, y, x, dy, dx, 1, n, m, d, f0)
  {
    f := f0;
    var i := 1;
    while i <= n
      invariant g.Shows(b, S)
      invariant 1 <= i
      invariant Reprobe(b, y, x, dy, dx, i, n, m, d, f) == Reprobe(b, y, x, dy, dx, 1, n, m, d, f0)
      decreases n + 1 - i
    {
      var c := g.Peek(y + dy * i, x + dx * i, b, S);
      if c.Off? {
        return;
      }
      if Takes(m, d, c) {
        f := Flow(y + dy * i, x + dx * i, true, true, f.edge);
        return;
      }
      if c.Vacant? && !f.can {
        f := Flow(y + dy * i, x + dx * i, true, false, f.edge);
      } else if c.Sees? {
        return;
      }
      i := i + 1;
    }
  }

  /** Both directions of the horizontal probe. */
  method SweepM(g: Grid, y: int, x: int, dir: int, n: int, m: Phase, d: int, ghost b: Board, ghost S: set<Particle>)
    returns (f: Flow)
    requires g.Shows(b, S)
    ensures f == Sweep(b, y, x, dir, n, m, d)
  {
    f := ProbeM(g, y, x, 0, dir, n, m, d, b, S);
    if !f.swap {
      f := ReprobeM(g, y, x, 0, -dir, n, m, d, f, b, S);
    }
  }

  /** Carries out what a probe found. */
  method ExecM(g: Grid, p: Particle, f: Flow, ghost rng: Rng, ghost b: Board, ghost S: set<Particle>)
    requires g.Hosts(b, S, p) && !p.processed
    modifies g.cells, g.Repr
    ensures var o := Exec(b, old(p.y), old(p.x), f, rng);
      g.Shows(o.b, S) && (p.processed <==> o.done) && (!o.done ==> Kept(p))
    ensures g.Grew()
  {
    if f.can && (f.ty != p.y || f.tx != p.x) {
      if f.swap {
        g.SwapWith(p, f.ty, f.tx, b, S);
      } else {
        var ok := g.MoveTo(p, f.ty, f.tx, b, S);
      }
    }
  }

  /** Liquid movement on the grid. */
  method LiquidMoveM(g: Grid, p: Particle, rng: Rng, ghost b: Board, ghost S: set<Particle>) returns (rng': Rng)
    requires g.Hosts(b, S, p) && !p.processed
    modifies g.cells, g.Repr
    ensures var o := LiquidMove(b, old(p.y), old(p.x), rng);
      g.Shows(o.b, S) && rng' == o.r && (p.processed <==> o.done) && (!o.done ==> Kept(p))
    ensures g.Grew()
  {
    rng' := FallM(g, p, Fluid, rng, b, S);
    if !p.processed {
      var (dir, r1) := Side(rng');
      var f := SweepM(g, p.y, p.x, dir, FlowSpeed(p.kind), Fluid, p.density, b, S);
      ExecM(g, p, f, r1, b, S);
      rng' := r1;
    }
  }

  /** Gas movement on the grid. */
  method GasMoveM(g: Grid, p: Particle, rng: Rng, ghost b: Board, ghost S: set<Particle>) returns (rng': Rng)
    requires g.Hosts(b, S, p) && !p.processed
    modifies g.cells, g.Repr
    ensures var o := GasMove(b, old(p.y), old(p.x), rng);
      g.Shows(o.b, S) && rng' == o.r && (p.processed <==> o.done) && (!o.done ==> Kept(p))
    ensures g.Grew()
  {
    var y, x := p.y, p.x;
    var up := ProbeM(g, y, x, -1, 0, RiseSpeed(p.kind), Vapour, p.density, b, S);
    var gone;
    gone, rng' := false, rng;
    if up.edge {
      gone, rng' := Dissipates(p.kind, rng).0, Dissipates(p.kind, rng).1;
    }
    if gone {
      g.ClearCell(y, x, b, S);
      g.Retire(p, Set(b, y, x, Empty), S);
      return;
    }
    ExecM(g, p, up, rng', b, S);
    if !p.processed {
      var (dir, r2) := Side(rng');
      var f := SweepM(g, y, x, dir, SpreadFactor(p.kind), Vapour, p.density, b, S);
      ExecM(g, p, f, r2, b, S);
      rng' := r2;
    }
  }
}
