// Fungus (elements/fungus.py): a solid that, when not crowded, may spread
// over mud, plants and wood around it, or else release a spore into an
// empty cell around it.

module FungusRule {
  import opened Kinds
  import opened Oracle
  import opened Boards
  import opened Grids
  import opened Cells

  /** Another fungus. */
  predicate Fungal(t: Seen) { t.Sees? && t.k == Fungus }

  /** What fungus grows over: unprocessed mud 'R', plant 'P' or wood 'd'. */
  predicate Edible(t: Seen)
  {
    Unprocessed(t) && (Key(t.k) == 'R' || Key(t.k) == 'P' || Key(t.k) == 'd')
  }

  /** The cells the fungus may spread to: none when two or more of its eight
      neighbours are fungus already. */
  function Spread(b: Board, y: int, x: int): (cs: seq<(int, int)>)
    ensures |Scan(b, y, x, Ring8U, Fungal)| >= 2 ==> cs == []
    ensures forall c :: c in cs ==> InB(b, c.0, c.1) && Edible(Look(b, c.0, c.1)) && (c.0 - y, c.1 - x) in Ring8U
  {
    ScanSound(b, y, x, Ring8U, Edible);
    if |Scan(b, y, x, Ring8U, Fungal)| < 2 then Scan(b, y, x, Ring8U, Edible) else []
  }

  /** All the random choices of one update: the spread target from a 0.5%
      roll and, only when there was none, the spore cell from a 0.1% roll. */
  function Rolls(b: Board, y: int, x: int, r: Rng): (Hit, Hit, Rng)
  {
    var (h1, r1) := Strike(Spread(b, y, x), 5, r);
    var (h2, r2) := if h1.HitAt? then (Miss, r1) else Strike(Scan(b, y, x, Ring8U, Hole), 1, r1);
    (h1, h2, r2)
  }

  /** `Fungus.run_interactions`: the spread target, if any, becomes processed
      fungus with this fungus's tags; the spore cell, if any, becomes what key
      ',' makes, unprocessed and with the same tags (nothing when ',' is not
      registered). The fungus is processed. */
  function Interact(reg: Registry, b: Board, y: int, x: int, r: Rng): (o: Out)
    requires InB(b, y, x) && !b[y][x].Empty?
    ensures o.done && SameShape(b, o.b)
  {
    var (h1, h2, r2) := Rolls(b, y, x, r);
    Out(Proc(Grow(reg, b, h1, h2, b[y][x].st.tags), y, x), true, r2)
  }

  /** The writes of one update: processed fungus into the spread target,
      then the spore into the spore cell. */
  function Grow(reg: Registry, b: Board, h1: Hit, h2: Hit, tags: seq<string>): (r: Board)
    ensures SameShape(b, r)
  {
    var b1 := Land(b, h1, Born(Fungus, tags, true));
    if ',' in reg then Land(b1, h2, Fresh(reg, ',', tags, false)) else b1
  }

  method GrowM(g: Grid, p: Particle, reg: Registry, h1: Hit, h2: Hit, tags: seq<string>,
               ghost b: Board, ghost S: set<Particle>)
    requires g.Hosts(b, S, p)
    requires h1.HitAt? ==> (h1.i, h1.j) != (p.y, p.x)
    requires h2.HitAt? ==> (h2.i, h2.j) != (p.y, p.x)
    modifies g, g.cells
    ensures g.Hosts(Grow(reg, b, h1, h2, tags), S, p)
    ensures g.Grew() && unchanged(old(g.Repr))
  {
    LandKindM(g, p, h1, Fungus, tags, true, b, S);
    if ',' in reg {
      LandM(g, p, reg, h2, ',', tags, false, Land(b, h1, Born(Fungus, tags, true)), S);
    }
  }

  method SpreadM(g: Grid, y: int, x: int, ghost b: Board, ghost S: set<Particle>) returns (cs: seq<(int, int)>)
    requires g.Shows(b, S)
    ensures cs == Spread(b, y, x)
  {
    var fs := ScanM(g, y, x, Ring8U, Fungal, b, S);
    cs := [];
    if |fs| < 2 {
      cs := ScanM(g, y, x, Ring8U, Edible, b, S);
    }
  }

  method RollsM(g: Grid, y: int, x: int, rng: Rng, ghost b: Board, ghost S: set<Particle>)
    returns (h1: Hit, h2: Hit, rng': Rng)
    requires g.Shows(b, S)
    ensures (h1, h2, rng') == Rolls(b, y, x, rng)
    ensures h1.HitAt? ==> (h1.i, h1.j) != (y, x)
    ensures h2.HitAt? ==> (h2.i, h2.j) != (y, x)
  {
    var spread := SpreadM(g, y, x, b, S);
    var holes := ScanM(g, y, x, Ring8U, Hole, b, S);
    NoSelf();
    ScanOthers(b, y, x, Ring8U, Edible);
    ScanOthers(b, y, x, Ring8U, Hole);
    h1, rng' := StrikeM(spread, 5, rng);
    h2 := Miss;
    if !h1.HitAt? {
      h2, rng' := StrikeM(holes, 1, rng');
    }
  }

  method InteractM(g: Grid, p: Particle, reg: Registry, rng: Rng, ghost b: Board, ghost S: set<Particle>)
    returns (rng': Rng)
    requires g.Hosts(b, S, p)
    modifies g, g.cells, p
    ensures var o := Interact(reg, b, old(p.y), old(p.x), rng); g.Shows(o.b, S) && rng' == o.r
    ensures p.processed && g.Grew()
  {
    var y, x, tags := p.y, p.x, p.tags;
    var h1, h2;
    h1, h2, rng' := RollsM(g, y, x, rng, b, S);
    InteractIs(reg, b, y, x, rng, h1, h2, rng', tags);
    GrowM(g, p, reg, h1, h2, tags, b, S);
    MarkSelf(g, p, Grow(reg, b, h1, h2, tags), S);
  }

  /** `Interact` in terms of the rolls. */
  lemma InteractIs(reg: Registry, b: Board, y: int, x: int, r: Rng, h1: Hit, h2: Hit, r2: Rng, tags: seq<string>)
    requires InB(b, y, x) && !b[y][x].Empty?
    requires (h1, h2, r2) == Rolls(b, y, x, r) && tags == b[y][x].st.tags
    ensures Interact(reg, b, y, x, r) == Out(Proc(Grow(reg, b, h1, h2, tags), y, x), true, r2)
  {
  }

  /** The one cell, if any, an update writes besides the fungus's own. */
  function Target(reg: Registry, b: Board, y: int, x: int, r: Rng): Hit
  {
    var (h1, h2, _) := Rolls(b, y, x, r);
    if h1.HitAt? then h1 else if ',' in reg then h2 else Miss
  }

  /** What that cell receives: fungus after a spread, a spore otherwise. */
  function Growth(reg: Registry, b: Board, y: int, x: int, r: Rng): Slot
    requires InB(b, y, x) && !b[y][x].Empty?
  {
    var tags := b[y][x].st.tags;
    if Rolls(b, y, x, r).0.HitAt? then Born(Fungus, tags, true) else Fresh(reg, ',', tags, false)
  }

  lemma Shape(reg: Registry, b: Board, y: int, x: int, r: Rng)
    requires InB(b, y, x) && !b[y][x].Empty?
    ensures var h := Target(reg, b, y, x, r);
      h.HitAt? ==> InB(b, h.i, h.j) && Adj8(h.i - y, h.j - x) && (h.i, h.j) != (y, x)
    ensures Interact(reg, b, y, x, r).b ==
      Proc(Land(b, Target(reg, b, y, x, r), Growth(reg, b, y, x, r)), y, x)
  {
    var (h1, h2, r2) := Rolls(b, y, x, r);
    if h1.HitAt? {
      InScan8(b, y, x, Edible, (h1.i, h1.j));
    } else if h2.HitAt? {
      InScan8(b, y, x, Hole, (h2.i, h2.j));
    }
  }

  /** What may appear in cell (i, j) beside a fungus with these tags: fungus
      over edible matter, while fewer than two of its eight neighbours are
      fungus, or a spore in an empty cell. */
  predicate Fits(reg: Registry, b: Board, y: int, x: int, tags: seq<string>, i: int, j: int, v: Slot)
    requires InB(b, i, j)
  {
    (v == Born(Fungus, tags, true) && Edible(Look(b, i, j)) && |Scan(b, y, x, Ring8U, Fungal)| < 2) ||
    (',' in reg && v == Born(reg[','], tags, false) && Look(b, i, j).Vacant?)
  }

  /** The fungus's own cell is only marked processed, and at most one other
      cell, one of its eight neighbours, changes: either an edible one,
      reachable only with fewer than two fungus neighbours, that becomes
      processed fungus with the same tags, or an empty one that becomes an
      unprocessed spore with the same tags. */
  lemma SpreadsOne(reg: Registry, b: Board, y: int, x: int, r: Rng)
    requires InB(b, y, x) && !b[y][x].Empty?
    ensures var o := Interact(reg, b, y, x, r);
      Marked(b, o.b, y, x) && OneOther(b, o.b, y, x) && Around(b, o.b, y, x, Adj8) &&
      forall i, j :: InB(b, i, j) && (i, j) != (y, x) && o.b[i][j] != b[i][j] ==>
        Fits(reg, b, y, x, b[y][x].st.tags, i, j, o.b[i][j])
  {
    var h, s := Target(reg, b, y, x, r), Growth(reg, b, y, x, r);
    Shape(reg, b, y, x, r);
    LandMark(b, y, x, h, s, Adj8);
    TargetFits(reg, b, y, x, r);
  }

  /** The cell an update writes besides the fungus's own held edible matter
      and takes fungus, or was empty and takes a spore. */
  lemma TargetFits(reg: Registry, b: Board, y: int, x: int, r: Rng)
    requires InB(b, y, x) && !b[y][x].Empty?
    ensures var h := Target(reg, b, y, x, r);
      h.HitAt? ==> InB(b, h.i, h.j) && Fits(reg, b, y, x, b[y][x].st.tags, h.i, h.j, Growth(reg, b, y, x, r))
  {
    var (h1, h2, r2) := Rolls(b, y, x, r);
    Shape(reg, b, y, x, r);
    if h1.HitAt? {
      InScan8(b, y, x, Edible, (h1.i, h1.j));
    } else if ',' in reg && h2.HitAt? {
      InScan8(b, y, x, Hole, (h2.i, h2.j));
    }
  }

  /** The fungus spreads exactly when it has fewer than two fungus
      neighbours, some edible neighbour, and the 0.5% roll succeeds. */
  lemma SpreadsWhen(b: Board, y: int, x: int, r: Rng)
    ensures Rolls(b, y, x, r).0.HitAt? <==>
      |Scan(b, y, x, Ring8U, Fungal)| < 2 && AnyNear(b, y, x, Adj8, Edible) && Chance(r, 5).0
    ensures Rolls(b, y, x, r).1.HitAt? ==>
      !Rolls(b, y, x, r).0.HitAt? && AnyNear(b, y, x, Adj8, Hole)
  {
    Scan8(b, y, x, Edible);
    Scan8(b, y, x, Hole);
  }
}
