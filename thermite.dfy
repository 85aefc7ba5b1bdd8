// Thermite (elements/thermite.py): a powder that ignites from strong heat
// beside it, burns as a heat source for a few frames and leaves metal.

module ThermiteRule {
  import opened Kinds
  import opened Oracle
  import opened Boards
  import opened Grids
  import opened Cells

  /** `ignition_threshold_temp`, `burn_duration` */
  const Threshold := 2
  const Duration := 5

  /** The heat a neighbour gives off: a heat source scores 2 as fire 'F' or
      lava 'L', 1 as an ember 'B', 3 as burning thermite 'T', else 0. */
  function Score(t: Seen): nat
  {
    if !Heat(t) then 0
    else if Key(t.k) == 'F' || Key(t.k) == 'L' then 2
    else if Key(t.k) == 'B' then 1
    else if Key(t.k) == 'T' && t.st.burning then 3
    else 0
  }

  /** The neighbour checked n-th: up, down, left, right. */
  function Cell(y: int, x: int, n: nat): (int, int)
    requires n < |UDLR|
  {
    (y + UDLR[n].0, x + UDLR[n].1)
  }

  function Max(a: int, b: int): int { if a < b then b else a }

  /** `current_heat` after the first n checks. */
  function Warmth(b: Board, y: int, x: int, n: nat): nat
    requires n <= |UDLR|
  {
    if n == 0 then 0 else Max(Warmth(b, y, x, n - 1), Score(Look(b, Cell(y, x, n - 1).0, Cell(y, x, n - 1).1)))
  }

  /** The state after ignition: burning, timer at `burn_duration`, a heat
      source, and tagged "burning". */
  function Ignited(st: St): St
  {
    st.(burning := true, burnTimer := Duration, isHeat := true, tags := st.tags + ["burning"])
  }

  /** `Thermite.run_interactions`, which burns a burning thermite and
      otherwise checks for ignition. */
  function Interact(reg: Registry, b: Board, y: int, x: int, r: Rng): (o: Out)
    requires InB(b, y, x) && !b[y][x].Empty?
    ensures SameShape(b, o.b) && Local(b, o.b, y, x, (y, x))
    ensures !o.done ==> Keeps(b[y][x], o.b[y][x])
  {
    if b[y][x].st.burning then Burn(reg, b, y, x, r) else Kindle(b, y, x, r)
  }

  /** Burning, the timer drops by one; at zero or below the thermite is
      finished and its cell becomes whatever key 'M' makes, with its tags
      (the thermite stays, processed, when 'M' is not registered); above
      zero it stays a heat source and is left to fall. No draw. */
  function Burn(reg: Registry, b: Board, y: int, x: int, r: Rng): (o: Out)
    requires InB(b, y, x) && !b[y][x].Empty?
    ensures SameShape(b, o.b) && Local(b, o.b, y, x, (y, x)) && o.r == r
  {
    var st := b[y][x].st;
    var ticked := st.(burnTimer := st.burnTimer - 1);
    if ticked.burnTimer <= 0 then
      var b1 := Put(b, y, x, WithSt(b[y][x], ticked));
      if 'M' in reg then Out(Put(b1, y, x, Born(reg['M'], st.tags, false)), true, r)
      else Out(Put(b1, y, x, WithSt(b[y][x], ticked.(processed := true))), true, r)
    else Out(Put(b, y, x, WithSt(b[y][x], ticked.(isHeat := true))), false, r)
  }

  /** Not burning, a 60% roll at heat 2 or more ignites the thermite, and it
      is left to fall either way. */
  function Kindle(b: Board, y: int, x: int, r: Rng): (o: Out)
    requires InB(b, y, x) && !b[y][x].Empty?
    ensures SameShape(b, o.b) && Local(b, o.b, y, x, (y, x)) && !o.done
  {
    if Warmth(b, y, x, |UDLR|) < Threshold then Out(b, false, r)
    else
      var (lit, r1) := Chance(r, 600);
      if lit then Out(Put(b, y, x, WithSt(b[y][x], Ignited(b[y][x].st))), false, r1)
      else Out(b, false, r1)
  }

  /** The heat loop over the four orthogonal neighbours. */
  method WarmthM(g: Grid, y: int, x: int, ghost b: Board, ghost S: set<Particle>) returns (heat: nat)
    requires g.Shows(b, S)
    ensures heat == Warmth(b, y, x, |UDLR|)
  {
    heat := 0;
    var n := 0;
    while n < |UDLR|
      invariant g.Shows(b, S)
      invariant 0 <= n <= |UDLR| && heat == Warmth(b, y, x, n)
    {
      var c := Cell(y, x, n);
      var t := g.Peek(c.0, c.1, b, S);
      heat := Max(heat, Score(t));
      n := n + 1;
    }
  }

  method BurnM(g: Grid, p: Particle, reg: Registry, rng: Rng, ghost b: Board, ghost S: set<Particle>)
    requires g.Hosts(b, S, p) && !p.processed
    modifies g, g.cells, p
    ensures var o := Burn(reg, b, old(p.y), old(p.x), rng);
      g.Shows(o.b, S) && (p.processed <==> o.done) && (!o.done ==> p.y == old(p.y) && p.x == old(p.x))
    ensures g.Grew()
  {
    var y, x := p.y, p.x;
    var st := p.State().(burnTimer := p.burnTimer - 1);
    assert WithSt(b[y][x], st) == Old(p, st);
    ghost var o := Burn(reg, b, y, x, rng);
    RestateM(g, p, st, b, S);
    ghost var b1 := Put(b, y, x, Old(p, st));
    if st.burnTimer <= 0 {
      if 'M' in reg {
        assert o.b == Put(b1, y, x, Fresh(reg, 'M', st.tags, false));
        ReplaceM(g, p, reg, 'M', st.tags, false, b1, S);
      } else {
        assert o.b == Proc(b1, y, x);
        MarkSelf(g, p, b1, S);
      }
    } else {
      assert o.b == Put(b, y, x, Old(p, st.(isHeat := true)));
      RestateM(g, p, st.(isHeat := true), b1, S);
    }
  }

  method KindleM(g: Grid, p: Particle, rng: Rng, ghost b: Board, ghost S: set<Particle>) returns (rng': Rng)
    requires g.Hosts(b, S, p) && !p.processed
    modifies p
    ensures var o := Kindle(b, old(p.y), old(p.x), rng);
      g.Shows(o.b, S) && rng' == o.r && !p.processed && p.y == old(p.y) && p.x == old(p.x)
    ensures g.Grew()
  {
    var y, x := p.y, p.x;
    rng' := rng;
    var heat := WarmthM(g, y, x, b, S);
    if heat < Threshold {
      return;
    }
    var lit;
    lit, rng' := Chance(rng, 600).0, Chance(rng, 600).1;
    if lit {
      RestateM(g, p, Ignited(p.State()), b, S);
    }
  }

  method InteractM(g: Grid, p: Particle, reg: Registry, rng: Rng, ghost b: Board, ghost S: set<Particle>)
    returns (rng': Rng)
    requires g.Hosts(b, S, p) && !p.processed
    modifies g, g.cells, p
    ensures var o := Interact(reg, b, old(p.y), old(p.x), rng);
      g.Shows(o.b, S) && rng' == o.r && (p.processed <==> o.done) &&
      (!o.done ==> p.y == old(p.y) && p.x == old(p.x))
    ensures g.Grew()
  {
    if p.burning {
      BurnM(g, p, reg, rng, b, S);
      rng' := rng;
    } else {
      rng' := KindleM(g, p, rng, b, S);
    }
  }

  /** A neighbour hot enough on its own: a heat source that is fire, lava or
      burning thermite. */
  predicate Strong(t: Seen)
  {
    Heat(t) && (Key(t.k) == 'F' || Key(t.k) == 'L' || (Key(t.k) == 'T' && t.st.burning))
  }

  /** `current_heat` is the largest score among the checks so far, and 0
      when there are none. */
  lemma {:induction false} WarmthIsMax(b: Board, y: int, x: int, n: nat)
    requires n <= |UDLR|
    ensures forall m :: 0 <= m < n ==> Score(Look(b, Cell(y, x, m).0, Cell(y, x, m).1)) <= Warmth(b, y, x, n)
    ensures Warmth(b, y, x, n) == 0 ||
            exists m :: 0 <= m < n && Score(Look(b, Cell(y, x, m).0, Cell(y, x, m).1)) == Warmth(b, y, x, n)
  {
    if n > 0 {
      WarmthIsMax(b, y, x, n - 1);
    }
  }

  /** The heat reaches the threshold exactly when some orthogonal neighbour
      is strong; embers alone never suffice. */
  lemma HotEnough(b: Board, y: int, x: int)
    ensures Warmth(b, y, x, |UDLR|) >= Threshold <==>
      exists m :: 0 <= m < |UDLR| && Strong(Look(b, Cell(y, x, m).0, Cell(y, x, m).1))
  {
    WarmthIsMax(b, y, x, |UDLR|);
    if Warmth(b, y, x, |UDLR|) >= Threshold {
      var m :| 0 <= m < |UDLR| && Score(Look(b, Cell(y, x, m).0, Cell(y, x, m).1)) == Warmth(b, y, x, |UDLR|);
      assert Strong(Look(b, Cell(y, x, m).0, Cell(y, x, m).1));
    }
  }

  /** A thermite that is not burning ignites exactly when a strong
      orthogonal neighbour exists and the roll succeeds: it is then burning,
      a heat source, with its timer at 5 and "burning" added to its tags,
      and nothing else changes. It is never finished, so it falls next. */
  lemma Ignites(reg: Registry, b: Board, y: int, x: int, r: Rng)
    requires InB(b, y, x) && !b[y][x].Empty? && !b[y][x].st.processed && !b[y][x].st.burning
    ensures var o := Interact(reg, b, y, x, r);
      var st := b[y][x].st;
      var lit := (exists m :: 0 <= m < |UDLR| && Strong(Look(b, Cell(y, x, m).0, Cell(y, x, m).1))) &&
                 Chance(r, 600).0;
      !o.done && (lit <==> o.b != b) &&
      (lit ==> var st' := o.b[y][x].st;
               o.b[y][x] == WithSt(b[y][x], st') && st'.burning && st'.burnTimer == Duration &&
               st'.isHeat && st'.tags == st.tags + ["burning"] && !st'.processed)
  {
    HotEnough(b, y, x);
    var o := Interact(reg, b, y, x, r);
    if o.b != b {
      assert o.b[y][x] == WithSt(b[y][x], Ignited(b[y][x].st));
    }
  }

  /** A burning thermite counts down by one each update, without a draw:
      it is finished exactly when the timer reaches zero, and its cell then
      holds new metal with its tags (or the thermite itself, processed, when
      'M' is not registered); until then it stays burning and a heat
      source. */
  lemma BurnsDown(reg: Registry, b: Board, y: int, x: int, r: Rng)
    requires InB(b, y, x) && !b[y][x].Empty? && !b[y][x].st.processed && b[y][x].st.burning
    ensures var o := Interact(reg, b, y, x, r);
      var st := b[y][x].st;
      o.r == r && (o.done <==> st.burnTimer <= 1) &&
      (o.done && 'M' in reg ==> o.b[y][x] == Born(reg['M'], st.tags, false)) &&
      (o.done && 'M' !in reg ==> o.b[y][x] == WithSt(b[y][x], st.(burnTimer := st.burnTimer - 1, processed := true))) &&
      (!o.done ==> var st' := o.b[y][x].st;
                   o.b[y][x] == WithSt(b[y][x], st') && st'.burning && st'.isHeat &&
                   st'.burnTimer == st.burnTimer - 1 && st'.tags == st.tags && !st'.processed)
  {
  }
}
