// GlassPowder (elements/mod/new_elements_a.py): a powder that, next to any
// heat source, may melt into glass carrying its tags.

module GlassPowderRule {
  import opened Kinds
  import opened Oracle
  import opened Boards
  import opened Grids
  import opened Cells

  /** `melt_chance`, in thousandths. */
  const MeltOdds := 100

  /** `GlassPowder.run_interactions`: a heat source among the eight cells
      around (processed or not) and a 10% roll turn the powder's cell into
      glass made by key 'X' with the powder's tags (the powder stays if 'X'
      is not registered); the powder is then processed.  Otherwise nothing
      changes and the powder falls. */
  function Interact(reg: Registry, b: Board, y: int, x: int, r: Rng): (o: Out)
    requires InB(b, y, x) && !b[y][x].Empty?
    ensures SameShape(b, o.b) && (!o.done ==> o.b == b)
  {
    if Scan(b, y, x, Ring8U, Heat) == [] then Out(b, false, r)
    else
      var (melt, r1) := Chance(r, MeltOdds);
      if melt then Out(Become(reg, b, y, x, 'X', b[y][x].st.tags, false), true, r1)
      else Out(b, false, r1)
  }

  method InteractM(g: Grid, p: Particle, reg: Registry, rng: Rng, ghost b: Board, ghost S: set<Particle>)
    returns (rng': Rng)
    requires g.Hosts(b, S, p) && !p.processed
    modifies g, g.cells, p
    ensures var o := Interact(reg, b, old(p.y), old(p.x), rng);
      g.Shows(o.b, S) && rng' == o.r && (p.processed <==> o.done) && (!o.done ==> Kept(p))
    ensures g.Grew()
  {
    var h := FindM(g, p.y, p.x, Ring8U, Heat, b, S);
    rng' := rng;
    if h.HitAt? {
      var melt;
      melt, rng' := Chance(rng, MeltOdds).0, Chance(rng, MeltOdds).1;
      if melt {
        BecomeM(g, p, reg, 'X', p.tags, false, b, S);
      }
    }
  }

  // --- Properties ---

  /** The powder melts exactly when a heat source is among the eight cells
      around and the roll succeeds; only its own cell changes; the glass is
      unprocessed and keeps the powder's tags; without heat no roll is
      drawn. */
  lemma Melts(reg: Registry, b: Board, y: int, x: int, r: Rng)
    requires InB(b, y, x) && !b[y][x].Empty?
    ensures var o := Interact(reg, b, y, x, r);
      (o.done <==> AnyNear(b, y, x, Adj8, Heat) && Chance(r, MeltOdds).0) &&
      Local(b, o.b, y, x, (y, x)) &&
      (o.done && 'X' in reg ==> o.b[y][x] == Born(reg['X'], b[y][x].st.tags, false)) &&
      (o.done && 'X' !in reg ==> Marked(b, o.b, y, x)) &&
      (!AnyNear(b, y, x, Adj8, Heat) ==> o.r == r)
  {
    Scan8(b, y, x, Heat);
    if 'X' !in reg {
      MarkOnly(b, y, x);
    }
  }

  /** A processed heat source melts the powder as well as an unprocessed one:
      only `is_heat_source` is read. */
  lemma AnyHeat(reg: Registry, b: Board, y: int, x: int, r: Rng, i: int, j: int)
    requires InB(b, y, x) && !b[y][x].Empty? && InB(b, i, j) && Adj8(i - y, j - x)
    requires b[i][j].Old? || b[i][j].New?
    requires b[i][j].st.isHeat && b[i][j].st.processed && Chance(r, MeltOdds).0
    ensures Interact(reg, b, y, x, r).done
  {
    Scan8(b, y, x, Heat);
    assert Heat(Look(b, i, j));
  }
}
