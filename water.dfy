// Water (elements/water.py): a liquid that, beside an unprocessed heat
// source, may boil into steam and cool that heat source.

module WaterRule {
  import opened Kinds
  import opened Oracle
  import opened Boards
  import opened Grids
  import opened Cells

  /** An unprocessed heat source. */
  predicate Hot(t: Seen) { Heat(t) && Unprocessed(t) }

  /** `Water.run_interactions`: with an unprocessed orthogonal heat source
      (the first in right, left, down, up order), a 5% roll turns the water's
      cell into whatever key 'G' makes, processed, and then tries to cool
      that heat source. Otherwise the water is left to flow. */
  function Interact(reg: Registry, b: Board, y: int, x: int, r: Rng): (o: Out)
    requires InB(b, y, x) && !b[y][x].Empty?
    ensures SameShape(b, o.b) && (!o.done ==> o.b == b)
  {
    var h := First(Scan(b, y, x, RLDU, Hot));
    if h.Miss? then Out(b, false, r)
    else
      var (boil, r1) := Chance(r, 50);
      if !boil then Out(b, false, r1)
      else
        var (b2, r2) := Quench(reg, Put(b, y, x, Fresh(reg, 'G', [], true)), h, LookAt(b, h), 600, true, r1);
        Out(b2, true, r2)
  }

  method InteractM(g: Grid, p: Particle, reg: Registry, rng: Rng, ghost b: Board, ghost S: set<Particle>)
    returns (rng': Rng)
    requires g.Hosts(b, S, p) && !p.processed
    modifies g, g.cells, p
    ensures var o := Interact(reg, b, old(p.y), old(p.x), rng);
      g.Shows(o.b, S) && rng' == o.r && (p.processed <==> o.done) && (!o.done ==> Kept(p))
    ensures g.Grew()
  {
    var y, x := p.y, p.x;
    var h := FindM(g, y, x, RLDU, Hot, b, S);
    rng' := rng;
    if h.Miss? {
      return;
    }
    var boil;
    boil, rng' := Chance(rng, 50).0, Chance(rng, 50).1;
    if !boil {
      return;
    }
    var t := LookAtM(g, h, b, S);
    ReplaceM(g, p, reg, 'G', [], true, b, S);
    rng' := QuenchM(g, reg, h, t, 600, true, rng', Put(b, y, x, Fresh(reg, 'G', [], true)), S);
  }

  /** Only the water's cell and the heat source's cell can change. The water
      boils exactly when an unprocessed orthogonal heat source exists and the
      5% roll succeeds, into processed steam. The heat source, the first
      such in right, left, down, up order, is then cooled: an ember becomes
      processed ash on the next roll at 60% and fire processed smoke on the
      next roll at 10%, each only when the product's key is registered; in
      every other case it is as it was. */
  lemma Boils(reg: Registry, b: Board, y: int, x: int, r: Rng)
    requires InB(b, y, x) && !b[y][x].Empty?
    ensures var o := Interact(reg, b, y, x, r);
      var h := First(Scan(b, y, x, RLDU, Hot));
      (o.done <==> AnyNear(b, y, x, Adj4, Hot) && Chance(r, 50).0) &&
      (o.done ==> h.HitAt? && InB(b, h.i, h.j) && Adj4(h.i - y, h.j - x) && Hot(Look(b, h.i, h.j)) &&
                  o.b[y][x] == Fresh(reg, 'G', [], true) && Local(b, o.b, y, x, (h.i, h.j)) &&
                  var t := Look(b, h.i, h.j);
                  var ok := Chance(Next(r), CoolOdds(t, 600)).0;
                  var ash := ok && KeyIs(t, 'B') && 'H' in reg;
                  var smoke := ok && KeyIs(t, 'F') && 'K' in reg;
                  (ash ==> o.b[h.i][h.j] == Born(reg['H'], [], true)) &&
                  (smoke ==> o.b[h.i][h.j] == Born(reg['K'], [], true)) &&
                  (!ash && !smoke ==> o.b[h.i][h.j] == b[h.i][h.j])) &&
      (!AnyNear(b, y, x, Adj4, Hot) ==> o.r == r)
  {
    Scan4(b, y, x, Hot);
    var o := Interact(reg, b, y, x, r);
    var h := First(Scan(b, y, x, RLDU, Hot));
    if o.done {
      InScan4(b, y, x, Hot, (h.i, h.j));
      QuenchOne(reg, b, y, x, Fresh(reg, 'G', [], true), h, LookAt(b, h), 600, true, Chance(r, 50).1);
    }
  }
}
