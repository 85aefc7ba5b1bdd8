// Explosive and Bomb (elements/mod/new_elements_a.py): solids that are lit
// by a neighbouring heat source, fuse or lit explosive, count down, and then
// explode, leaving processed fire on every empty or flammable cell within the
// blast radius.  The explosive waits five updates; the bomb's timer starts
// at zero, so it explodes in the update that lights it, after falling one
// cell if the cell below is empty.

module ExplosiveRule {
  import opened Kinds
  import opened Boards
  import opened Grids
  import opened Cells

  /** `Explosive.fuse_frames` */
  const FuseFrames := 5

  /** `Explosive.blast_radius` */
  const ExplosiveRadius := 5

  /** `Bomb.blast_radius` */
  const BombRadius := 7

  // --- Ignition ---

  /** One neighbour that lights an explosive or a bomb: unprocessed, and a
      heat source, a fuse, or a lit element with key 'D' or 'B'.
      `getattr(neighbor, 'is_lit', False)` reads the lit flag, which only
      Explosive and Bomb ever set. */
  predicate Igniter(t: Seen)
  {
    Unprocessed(t) && (t.st.isHeat || KeyIs(t, 'U') || ((KeyIs(t, 'D') || KeyIs(t, 'B')) && t.st.lit))
  }

  /** `_check_ignition` of an unlit element, the same for both classes:
      some cell of the eight around is an igniter. */
  predicate Ignites(b: Board, y: int, x: int)
  {
    Scan(b, y, x, Ring8U, Igniter) != []
  }

  /** The neighbour loop of `_check_ignition`, which returns at the first
      igniter. */
  method IgnitesM(g: Grid, y: int, x: int, ghost b: Board, ghost S: set<Particle>) returns (on: bool)
    requires g.Shows(b, S)
    ensures on == Ignites(b, y, x)
  {
    var h := FindM(g, y, x, Ring8U, Igniter, b, S);
    on := h.HitAt?;
  }

  /** The state of an explosive once lit: lit, timer set to the fuse length,
      tag "lit" appended. */
  function LitExplosive(st: St): (st': St)
    ensures st'.lit && st'.litTimer == FuseFrames && st'.tags == st.tags + ["lit"]
  {
    st.(lit := true, litTimer := FuseFrames, tags := st.tags + ["lit"])
  }

  /** The state of a bomb once lit: lit, movable, tag "lit" appended; the
      timer keeps its value (`self.lit_timer = self.lit_timer`). */
  function LitBomb(st: St): (st': St)
    ensures st'.lit && !st'.isStatic && st'.litTimer == st.litTimer && st'.tags == st.tags + ["lit"]
  {
    st.(lit := true, isStatic := false, tags := st.tags + ["lit"])
  }

  // --- The blast ---

  /** Offset (dy, dx) lies within radius `rad` (`math.sqrt(dy**2 + dx**2) <=
      rad`, on integers). */
  predicate InRadius(rad: int, dy: int, dx: int)
  {
    dy * dy + dx * dx <= rad * rad
  }

  /** A cell content the blast replaces: nothing, or a flammable element
      other than fire. */
  predicate Burnable(t: Seen)
  {
    t.Vacant? || (t.Sees? && IsFlammable(t.k) && Key(t.k) != 'F')
  }

  /** The fire the blast writes: `create_element('F', ...)`, processed. */
  function Blaze(reg: Registry): Slot
    requires 'F' in reg
  {
    Born(reg['F'], [], true)
  }

  /** Cell (i, j) receives fire from a blast of radius `rad` at (y, x). An
      unregistered 'F' makes no fire, and then nothing is written. */
  predicate Fires(reg: Registry, b: Board, y: int, x: int, rad: int, i: int, j: int)
  {
    'F' in reg && InRadius(rad, i - y, j - x) && Burnable(Look(b, i, j))
  }

  /** The board once the blast loops have visited every cell of the square
      before (ci, cj) in row-major order.  Each cell is read once, before it
      is written, so it is read as it was before the blast. */
  function Blasted(reg: Registry, b: Board, y: int, x: int, rad: int, ci: int, cj: int): (r: Board)
    ensures SameShape(b, r)
  {
    seq(|b|, i requires 0 <= i < |b| => seq(|b[i]|, j requires 0 <= j < |b[i]| =>
      if Fires(reg, b, y, x, rad, i, j) && Before(i, j, ci, cj) then Blaze(reg) else b[i][j]))
  }

  /** A cell the loops have passed holds fire if it fires; every other cell
      is as before. */
  lemma BlastedAt(reg: Registry, b: Board, y: int, x: int, rad: int, ci: int, cj: int, i: int, j: int)
    requires InB(b, i, j)
    ensures Blasted(reg, b, y, x, rad, ci, cj)[i][j] ==
      if Fires(reg, b, y, x, rad, i, j) && Before(i, j, ci, cj) then Blaze(reg) else b[i][j]
  {
  }

  /** The whole blast of radius `rad` at (y, x). */
  function Blast(reg: Registry, b: Board, y: int, x: int, rad: int): (r: Board)
    ensures SameShape(b, r)
  {
    Blasted(reg, b, y, x, rad, y + rad + 1, x - rad)
  }

  lemma SquareAbove(r: int, a: int)
    requires 0 <= r < a
    ensures r * r < a * a
  {
    assert r * r <= r * a;
  }

  lemma SquareBound(rad: int, d: int)
    requires rad >= 0 && d * d <= rad * rad
    ensures -rad <= d <= rad
  {
    if d > rad {
      SquareAbove(rad, d);
    } else if d < -rad {
      SquareAbove(rad, -d);
    }
  }

  lemma RadiusBound(rad: int, dy: int, dx: int)
    requires rad >= 0 && InRadius(rad, dy, dx)
    ensures -rad <= dy <= rad && -rad <= dx <= rad
  {
    assert dy * dy >= 0 && dx * dx >= 0 by {
      if dy < 0 { assert dy * dy == (-dy) * (-dy); }
      if dx < 0 { assert dx * dx == (-dx) * (-dx); }
    }
    SquareBound(rad, dy);
    SquareBound(rad, dx);
  }

  /** Two sweep positions that agree on every cell within the radius give
      the same board. */
  lemma BlastedSame(reg: Registry, b: Board, y: int, x: int, rad: int, ci: int, cj: int, ci': int, cj': int)
    requires forall dy, dx :: InRadius(rad, dy, dx) ==> (Before(y + dy, x + dx, ci, cj) <==> Before(y + dy, x + dx, ci', cj'))
    ensures Blasted(reg, b, y, x, rad, ci, cj) == Blasted(reg, b, y, x, rad, ci', cj')
  {
    var r, r' := Blasted(reg, b, y, x, rad, ci, cj), Blasted(reg, b, y, x, rad, ci', cj');
    forall i | 0 <= i < |b|
      ensures r[i] == r'[i]
    {
      forall j | 0 <= j < |b[i]|
        ensures r[i][j] == r'[i][j]
      {
        if InRadius(rad, i - y, j - x) {
          assert Before(y + (i - y), x + (j - x), ci, cj) <==> Before(y + (i - y), x + (j - x), ci', cj');
        }
      }
    }
  }

  /** Before the loops nothing is written. */
  lemma BlastStart(reg: Registry, b: Board, y: int, x: int, rad: int)
    requires rad >= 0
    ensures Blasted(reg, b, y, x, rad, y - rad, x - rad) == b
  {
    var r := Blasted(reg, b, y, x, rad, y - rad, x - rad);
    forall i | 0 <= i < |b|
      ensures r[i] == b[i]
    {
      forall j | 0 <= j < |b[i]|
        ensures r[i][j] == b[i][j]
      {
        if InRadius(rad, i - y, j - x) {
          RadiusBound(rad, i - y, j - x);
        }
      }
    }
  }

  /** The end of one row of the square is the start of the next. */
  lemma BlastWrap(reg: Registry, b: Board, y: int, x: int, rad: int, ci: int)
    requires rad >= 0
    ensures Blasted(reg, b, y, x, rad, ci, x + rad + 1) == Blasted(reg, b, y, x, rad, ci + 1, x - rad)
  {
    forall dy, dx | InRadius(rad, dy, dx)
      ensures Before(y + dy, x + dx, ci, x + rad + 1) <==> Before(y + dy, x + dx, ci + 1, x - rad)
    {
      RadiusBound(rad, dy, dx);
    }
    BlastedSame(reg, b, y, x, rad, ci, x + rad + 1, ci + 1, x - rad);
  }

  /** One visit of the inner loop: the cell (ci, cj) gets fire if it fires,
      and nothing else changes. */
  lemma BlastStep(reg: Registry, b: Board, y: int, x: int, rad: int, ci: int, cj: int)
    ensures var r := Blasted(reg, b, y, x, rad, ci, cj);
      Blasted(reg, b, y, x, rad, ci, cj + 1) ==
        if InB(b, ci, cj) && Fires(reg, b, y, x, rad, ci, cj) then Put(r, ci, cj, Blaze(reg)) else r
  {
    var r, r' := Blasted(reg, b, y, x, rad, ci, cj), Blasted(reg, b, y, x, rad, ci, cj + 1);
    var e := if InB(b, ci, cj) && Fires(reg, b, y, x, rad, ci, cj) then Put(r, ci, cj, Blaze(reg)) else r;
    forall i | 0 <= i < |b|
      ensures r'[i] == e[i]
    {
      forall j | 0 <= j < |b[i]|
        ensures r'[i][j] == e[i][j]
      {
      }
    }
  }

  /** One visit of the inner loop: the cell (i, j) is read and, if it lies
      within the radius and burns, receives fire. */
  method BlastCellM(g: Grid, reg: Registry, y: int, x: int, rad: int, i: int, j: int,
                    ghost b: Board, ghost S: set<Particle>)
    requires g.Shows(Blasted(reg, b, y, x, rad, i, j), S)
    modifies g, g.cells
    ensures g.Shows(Blasted(reg, b, y, x, rad, i, j + 1), S)
    ensures g.Grew() && unchanged(old(g.Repr))
  {
    ghost var cur := Blasted(reg, b, y, x, rad, i, j);
    BlastNext(reg, b, y, x, rad, i, j);
    if !(InRadius(rad, i - y, j - x) && g.IsValid(i, j)) {
      return;
    }
    var t := g.Peek(i, j, cur, S);
    if !Burnable(t) {
      return;
    }
    var made := Spawn(g, reg, 'F', i, j, [], true, cur, S);
  }

  /** The visit of (ci, cj) in the terms the loop body reads: the cell as
      the loops find it, and the fire `create_element` makes. */
  lemma BlastNext(reg: Registry, b: Board, y: int, x: int, rad: int, ci: int, cj: int)
    ensures var cur := Blasted(reg, b, y, x, rad, ci, cj);
      Blasted(reg, b, y, x, rad, ci, cj + 1) ==
        if InRadius(rad, ci - y, cj - x) && InB(b, ci, cj) && Burnable(Look(cur, ci, cj)) && 'F' in reg
        then Set(cur, ci, cj, Fresh(reg, 'F', [], true)) else cur
  {
    BlastStep(reg, b, y, x, rad, ci, cj);
    if InB(b, ci, cj) {
      BlastedLook(reg, b, y, x, rad, ci, cj);
    }
  }

  /** The loops have not yet written the cell they are at. */
  lemma BlastedLook(reg: Registry, b: Board, y: int, x: int, rad: int, ci: int, cj: int)
    requires InB(b, ci, cj)
    ensures Look(Blasted(reg, b, y, x, rad, ci, cj), ci, cj) == Look(b, ci, cj)
  {
  }

  /** The inner loop over row i, for the column offsets -rad to rad (the
      loop runs over the column itself). */
  method BlastRowM(g: Grid, reg: Registry, y: int, x: int, rad: int, i: int, ghost b: Board, ghost S: set<Particle>)
    requires rad >= 0 && g.Shows(Blasted(reg, b, y, x, rad, i, x - rad), S)
    modifies g, g.cells
    ensures g.Shows(Blasted(reg, b, y, x, rad, i + 1, x - rad), S)
    ensures g.Grew() && unchanged(old(g.Repr))
  {
    var j := x - rad;
    while j <= x + rad
      invariant x - rad <= j <= x + rad + 1
      invariant g.Shows(Blasted(reg, b, y, x, rad, i, j), S)
      invariant g.Grew() && unchanged(old(g.Repr))
    {
      BlastCellM(g, reg, y, x, rad, i, j, b, S);
      j := j + 1;
    }
    BlastWrap(reg, b, y, x, rad, i);
  }

  /** The blast loops over the row offsets -rad to rad (run over the row
      itself): every cell of the square around (y, x) within the radius that
      is empty or flammable and not fire receives processed fire. */
  method BlastM(g: Grid, reg: Registry, y: int, x: int, rad: int, ghost b: Board, ghost S: set<Particle>)
    requires rad >= 0 && g.Shows(b, S)
    modifies g, g.cells
    ensures g.Shows(Blast(reg, b, y, x, rad), S)
    ensures g.Grew() && unchanged(old(g.Repr))
  {
    BlastStart(reg, b, y, x, rad);
    var i := y - rad;
    while i <= y + rad
      invariant y - rad <= i <= y + rad + 1
      invariant g.Shows(Blasted(reg, b, y, x, rad, i, x - rad), S)
      invariant g.Grew() && unchanged(old(g.Repr))
    {
      BlastRowM(g, reg, y, x, rad, i, b, S);
      i := i + 1;
    }
  }

  /** `set_element(self.y, self.x, None)`, the processed flag, then the
      blast around the element's cell. */
  method ExplodeM(g: Grid, p: Particle, reg: Registry, rad: int, ghost b: Board, ghost S: set<Particle>)
    requires rad >= 0 && g.Hosts(b, S, p)
    modifies g, g.cells, p
    ensures g.Shows(Blast(reg, Put(b, old(p.y), old(p.x), Empty), old(p.y), old(p.x), rad), S)
    ensures p.processed && g.Grew()
  {
    var y, x := p.y, p.x;
    VanishM(g, p, b, S);
    BlastM(g, reg, y, x, rad, Put(b, y, x, Empty), S);
  }

  // --- Explosive ---

  /** `Explosive.run_interactions` followed by `Solid.update`'s processed
      flag, for an unprocessed explosive at (y, x): an unlit explosive beside
      an igniter is lit; a lit one counts down, and when its timer reaches
      zero its cell is emptied and the blast of radius 5 is laid around it.
      Otherwise it stays, processed. */
  function Explosive(reg: Registry, b: Board, y: int, x: int): (r: Board)
    requires InB(b, y, x) && !b[y][x].Empty?
    ensures SameShape(b, r)
  {
    var st := b[y][x].st;
    var st1 := if !st.lit && Ignites(b, y, x) then LitExplosive(st) else st;
    if !st1.lit then Proc(b, y, x)
    else
      var st2 := st1.(litTimer := st1.litTimer - 1);
      if st2.litTimer <= 0 then Blast(reg, Put(b, y, x, Empty), y, x, ExplosiveRadius)
      else Put(b, y, x, WithSt(b[y][x], st2.(processed := true)))
  }

  method ExplosiveM(g: Grid, p: Particle, reg: Registry, ghost b: Board, ghost S: set<Particle>)
    requires g.Hosts(b, S, p)
    modifies g, g.cells, p
    ensures g.Shows(Explosive(reg, b, old(p.y), old(p.x)), S) && p.processed && g.Grew()
  {
    var y, x := p.y, p.x;
    var st := p.State();
    if !p.lit {
      var on := IgnitesM(g, y, x, b, S);
      if on {
        st := LitExplosive(st);
      }
    }
    if !st.lit {
      MarkSelf(g, p, b, S);
      return;
    }
    st := st.(litTimer := st.litTimer - 1);
    if st.litTimer <= 0 {
      ExplodeM(g, p, reg, ExplosiveRadius, b, S);
    } else {
      RestateM(g, p, st.(processed := true), b, S);
    }
  }

  // --- Bomb ---

  /** The bomb's straight fall of one cell, taken only into an empty cell:
      a liquid or gas below stops it as a solid would. */
  predicate Drops(b: Board, y: int, x: int)
  {
    Look(b, y + 1, x).Vacant?
  }

  /** The bomb's state after the ignition step. */
  function BombIgnited(b: Board, y: int, x: int): St
    requires InB(b, y, x) && !b[y][x].Empty?
  {
    var st := b[y][x].st;
    if !st.lit && Ignites(b, y, x) then LitBomb(st) else st
  }

  /** The state of a lit bomb after this update's count-down. */
  function BombTicked(b: Board, y: int, x: int): St
    requires InB(b, y, x) && !b[y][x].Empty?
  {
    BombIgnited(b, y, x).(litTimer := BombIgnited(b, y, x).litTimer - 1)
  }

  /** `Bomb.update` for an unprocessed bomb at (y, x): an unlit bomb beside
      an igniter is lit; a lit one counts down, falls one cell if the cell
      below is empty, and when its timer has run out its cell is emptied and
      the blast of radius 7 is laid around where it now is.  It is processed
      on every path. */
  function Bomb(reg: Registry, b: Board, y: int, x: int): (r: Board)
    requires InB(b, y, x) && !b[y][x].Empty?
    ensures SameShape(b, r)
  {
    if !BombIgnited(b, y, x).lit then Proc(b, y, x)
    else
      var st2 := BombTicked(b, y, x);
      var b1 := Put(b, y, x, WithSt(b[y][x], st2));
      var ny := if Drops(b, y, x) then y + 1 else y;
      var b2 := if Drops(b, y, x) then MoveB(b1, y, x, y + 1, x) else b1;
      if st2.litTimer <= 0 then Blast(reg, Put(b2, ny, x, Empty), ny, x, BombRadius)
      else if Drops(b, y, x) then b2
      else Proc(b1, y, x)
  }

  method BombM(g: Grid, p: Particle, reg: Registry, ghost b: Board, ghost S: set<Particle>)
    requires g.Hosts(b, S, p)
    modifies g, g.cells, p
    ensures g.Shows(Bomb(reg, b, old(p.y), old(p.x)), S) && p.processed && g.Grew()
  {
    var y, x := p.y, p.x;
    var st := p.State();
    if !p.lit {
      var on := IgnitesM(g, y, x, b, S);
      if on {
        st := LitBomb(st);
      }
    }
    if !st.lit {
      MarkSelf(g, p, b, S);
      return;
    }
    st := st.(litTimer := st.litTimer - 1);
    RestateM(g, p, st, b, S);
    ghost var b1 := Put(b, y, x, Old(p, st));
    assert st == BombTicked(b, y, x);
    var below := g.Peek(y + 1, x, b1, S);
    assert below == Look(b, y + 1, x);
    FallExplodeM(g, p, reg, st, below.Vacant?, b, b1, S);
  }

  /** The fall and the explosion of a lit bomb whose new state is written. */
  method FallExplodeM(g: Grid, p: Particle, reg: Registry, st: St, drops: bool,
                      ghost b: Board, ghost b1: Board, ghost S: set<Particle>)
    requires InB(b, p.y, p.x) && !b[p.y][p.x].Empty?
    requires g.Hosts(b1, S, p) && b1 == Put(b, p.y, p.x, WithSt(b[p.y][p.x], st)) && p.State() == st
    requires BombIgnited(b, p.y, p.x).lit && st == BombTicked(b, p.y, p.x)
    requires drops == Drops(b, p.y, p.x)
    modifies g, g.cells, p
    ensures g.Shows(Bomb(reg, b, old(p.y), old(p.x)), S) && p.processed && g.Grew()
  {
    var y, x := p.y, p.x;
    var ny := y;
    ghost var b2 := b1;
    if drops {
      b2 := MoveB(b1, y, x, y + 1, x);
      g.Relocate(p, y + 1, x, b1, S);
      ny := y + 1;
      g.LiveAt(b2, S, p);
      g.HostsAt(b2, S, p);
    }
    if st.litTimer <= 0 {
      ExplodeM(g, p, reg, BombRadius, b2, S);
    } else if !drops {
      MarkSelf(g, p, b1, S);
    }
  }

  // --- Properties ---

  /** The ignition test looks at all eight neighbours. */
  lemma IgnitesNear(b: Board, y: int, x: int)
    ensures Ignites(b, y, x) <==> AnyNear(b, y, x, Adj8, Igniter)
  {
    Scan8(b, y, x, Igniter);
  }

  /** After the blast, a cell holds processed fire exactly when it lies
      within the radius and was empty or flammable and not fire (and 'F' is
      registered); every other cell keeps its contents. */
  lemma BlastAt(reg: Registry, b: Board, y: int, x: int, rad: int, i: int, j: int)
    requires rad >= 0 && InB(b, i, j)
    ensures Blast(reg, b, y, x, rad)[i][j] == if Fires(reg, b, y, x, rad, i, j) then Blaze(reg) else b[i][j]
  {
    if InRadius(rad, i - y, j - x) {
      RadiusBound(rad, i - y, j - x);
    }
  }

  /** An unlit explosive is lit exactly when an igniter is among its eight
      neighbours; lighting sets the timer to five, appends the tag "lit",
      and the same update counts it down to four.  Nothing else changes. */
  lemma ExplosiveLights(reg: Registry, b: Board, y: int, x: int)
    requires InB(b, y, x) && !b[y][x].Empty? && !b[y][x].st.lit
    ensures var st := b[y][x].st; var r := Explosive(reg, b, y, x);
      (AnyNear(b, y, x, Adj8, Igniter) ==>
        r == Put(b, y, x, WithSt(b[y][x], st.(lit := true, litTimer := FuseFrames - 1,
                                               tags := st.tags + ["lit"], processed := true)))) &&
      (!AnyNear(b, y, x, Adj8, Igniter) ==> r == Proc(b, y, x))
  {
    IgnitesNear(b, y, x);
  }

  /** A lit explosive whose timer is above one only counts down.  At one or
      less it explodes: its own cell is emptied and then, within radius 5,
      every empty or flammable cell other than fire receives processed fire,
      its own cell included; no cell outside the radius changes. */
  lemma ExplosiveFuse(reg: Registry, b: Board, y: int, x: int)
    requires InB(b, y, x) && !b[y][x].Empty? && b[y][x].st.lit
    ensures var st := b[y][x].st; var r := Explosive(reg, b, y, x);
      (st.litTimer > 1 ==> r == Put(b, y, x, WithSt(b[y][x], st.(litTimer := st.litTimer - 1, processed := true)))) &&
      (st.litTimer <= 1 ==>
        r[y][x] == (if 'F' in reg then Blaze(reg) else Empty) &&
        forall i, j :: InB(b, i, j) && (i, j) != (y, x) ==>
          r[i][j] == if Fires(reg, b, y, x, ExplosiveRadius, i, j) then Blaze(reg) else b[i][j])
  {
    var st := b[y][x].st;
    if st.litTimer <= 1 {
      var b0 := Put(b, y, x, Empty);
      BlastAt(reg, b0, y, x, ExplosiveRadius, y, x);
      forall i, j | InB(b, i, j) && (i, j) != (y, x)
        ensures Explosive(reg, b, y, x)[i][j] ==
          if Fires(reg, b, y, x, ExplosiveRadius, i, j) then Blaze(reg) else b[i][j]
      {
        BlastAt(reg, b0, y, x, ExplosiveRadius, i, j);
      }
    }
  }

  /** A bomb that was never lit has the timer its constructor gives it,
      zero, so the update that lights it also explodes it: it falls one
      cell first if that cell is empty, and the blast of radius 7 is laid
      around the cell it then occupies, over the board without the bomb. */
  lemma BombSameUpdate(reg: Registry, b: Board, y: int, x: int)
    requires InB(b, y, x) && !b[y][x].Empty? && !b[y][x].st.lit && b[y][x].st.litTimer == 0
    requires AnyNear(b, y, x, Adj8, Igniter)
    ensures var ny := if Look(b, y + 1, x).Vacant? then y + 1 else y;
      Bomb(reg, b, y, x) == Blast(reg, Put(b, y, x, Empty), ny, x, BombRadius)
  {
    IgnitesNear(b, y, x);
    var b1 := Put(b, y, x, WithSt(b[y][x], BombTicked(b, y, x)));
    if Drops(b, y, x) {
      DropClears(b, y, x, WithSt(b[y][x], BombTicked(b, y, x)));
      assert Bomb(reg, b, y, x) == Blast(reg, Put(MoveB(b1, y, x, y + 1, x), y + 1, x, Empty), y + 1, x, BombRadius);
    } else {
      assert Put(b1, y, x, Empty)[y] == Put(b, y, x, Empty)[y];
      assert Put(b1, y, x, Empty) == Put(b, y, x, Empty);
    }
  }

  /** Falling into an empty cell and then emptying the new cell leaves the
      board without the element. */
  lemma DropClears(b: Board, y: int, x: int, s: Slot)
    requires InB(b, y, x) && InB(b, y + 1, x) && b[y + 1][x] == Empty && !s.Empty?
    ensures Put(MoveB(Put(b, y, x, s), y, x, y + 1, x), y + 1, x, Empty) == Put(b, y, x, Empty)
  {
    var b2 := Put(MoveB(Put(b, y, x, s), y, x, y + 1, x), y + 1, x, Empty);
    var e := Put(b, y, x, Empty);
    forall i | 0 <= i < |b|
      ensures b2[i] == e[i]
    {
      forall j | 0 <= j < |b[i]|
        ensures b2[i][j] == e[i][j]
      {
      }
    }
  }

  /** A lit bomb that does not explode moves only straight down into an
      empty cell: only its own cell and the one below change, the one below
      only when it was empty, in which case the bomb is there, processed,
      and its old cell is empty. */
  lemma BombFalls(reg: Registry, b: Board, y: int, x: int)
    requires InB(b, y, x) && !b[y][x].Empty? && BombTicked(b, y, x).litTimer > 0
    ensures var r := Bomb(reg, b, y, x);
      (forall i, j :: InB(b, i, j) && (i, j) != (y, x) && (i, j) != (y + 1, x) ==> r[i][j] == b[i][j]) &&
      (BombIgnited(b, y, x).lit && Drops(b, y, x) ==>
        r[y][x] == Empty && r[y + 1][x] == WithSt(b[y][x], BombTicked(b, y, x).(processed := true))) &&
      (!Drops(b, y, x) ==> r[y][x].st.processed && (InB(b, y + 1, x) ==> r[y + 1][x] == b[y + 1][x]))
  {
  }
}
