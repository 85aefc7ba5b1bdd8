// Ice (elements/ice.py): a solid that, beside a heat source, may melt into
// water and cool that heat source.

module IceRule {
  import opened Kinds
  import opened Oracle
  import opened Boards
  import opened Grids
  import opened Cells

  /** `Ice.run_interactions`: with an orthogonal heat source (the first in
      right, left, down, up order, processed or not), a 10% roll turns the
      ice's cell into whatever key 'W' makes, unprocessed, and then, if that
      heat source is still unprocessed, tries to cool it (an ember on a 70%
      roll). The ice is processed in every case. */
  function Interact(reg: Registry, b: Board, y: int, x: int, r: Rng): (o: Out)
    requires InB(b, y, x) && !b[y][x].Empty?
    ensures o.done && SameShape(b, o.b)
  {
    var h := First(Scan(b, y, x, RLDU, Heat));
    if h.Miss? then Out(Proc(b, y, x), true, r)
    else
      var (melt, r1) := Chance(r, 100);
      if !melt then Out(Proc(b, y, x), true, r1)
      else
        var b1 := Put(b, y, x, Fresh(reg, 'W', [], false));
        if Unprocessed(LookAt(b, h)) then
          var (b2, r2) := Quench(reg, b1, h, LookAt(b, h), 700, false, r1);
          Out(b2, true, r2)
        else Out(b1, true, r1)
  }

  method InteractM(g: Grid, p: Particle, reg: Registry, rng: Rng, ghost b: Board, ghost S: set<Particle>)
    returns (rng': Rng)
    requires g.Hosts(b, S, p)
    modifies g, g.cells, p
    ensures var o := Interact(reg, b, old(p.y), old(p.x), rng); g.Shows(o.b, S) && rng' == o.r
    ensures p.processed && g.Grew()
  {
    var y, x := p.y, p.x;
    var h := FindM(g, y, x, RLDU, Heat, b, S);
    rng' := rng;
    if h.Miss? {
      MarkSelf(g, p, b, S);
      return;
    }
    var melt;
    melt, rng' := Chance(rng, 100).0, Chance(rng, 100).1;
    if !melt {
      MarkSelf(g, p, b, S);
      return;
    }
    var t := LookAtM(g, h, b, S);
    ReplaceM(g, p, reg, 'W', [], false, b, S);
    if Unprocessed(t) {
      rng' := QuenchM(g, reg, h, t, 700, false, rng', Put(b, y, x, Fresh(reg, 'W', [], false)), S);
    }
  }

  /** Only the ice's cell and the heat source's cell can change. The ice
      melts exactly when an orthogonal heat source exists and the 10% roll
      succeeds, into unprocessed water. The heat source, the first such in
      right, left, down, up order, is then cooled only if it was
      unprocessed: an ember becomes what key 'H' makes on the next roll at
      70%, fire what key 'K' makes on the next roll at 10%, processed, and an
      unregistered product leaves the cell empty; in every other case it is
      as it was. Otherwise the ice only marks itself. */
  lemma Melts(reg: Registry, b: Board, y: int, x: int, r: Rng)
    requires InB(b, y, x) && !b[y][x].Empty?
    ensures var o := Interact(reg, b, y, x, r);
      var h := First(Scan(b, y, x, RLDU, Heat));
      var melted := AnyNear(b, y, x, Adj4, Heat) && Chance(r, 100).0;
      (!melted ==> o.b == Proc(b, y, x)) &&
      (melted ==> h.HitAt? && InB(b, h.i, h.j) && Adj4(h.i - y, h.j - x) && Heat(Look(b, h.i, h.j)) &&
                  o.b[y][x] == Fresh(reg, 'W', [], false) && Local(b, o.b, y, x, (h.i, h.j)) &&
                  var t := Look(b, h.i, h.j);
                  var cool := Unprocessed(t) && Chance(Next(r), CoolOdds(t, 700)).0;
                  (cool && KeyIs(t, 'B') ==> o.b[h.i][h.j] == Fresh(reg, 'H', [], true)) &&
                  (cool && KeyIs(t, 'F') ==> o.b[h.i][h.j] == Fresh(reg, 'K', [], true)) &&
                  (!(cool && (KeyIs(t, 'B') || KeyIs(t, 'F'))) ==> o.b[h.i][h.j] == b[h.i][h.j])) &&
      (!AnyNear(b, y, x, Adj4, Heat) ==> o.r == r)
  {
    Scan4(b, y, x, Heat);
    if First(Scan(b, y, x, RLDU, Heat)).HitAt? {
      MeltsBeside(reg, b, y, x, r);
    }
  }

  /** `Melts` once a heat source is found: the 10% roll decides. */
  lemma MeltsBeside(reg: Registry, b: Board, y: int, x: int, r: Rng)
    requires InB(b, y, x) && !b[y][x].Empty? && First(Scan(b, y, x, RLDU, Heat)).HitAt?
    ensures var o := Interact(reg, b, y, x, r);
      var h := First(Scan(b, y, x, RLDU, Heat));
      var melted := Chance(r, 100).0;
      (!melted ==> o.b == Proc(b, y, x)) &&
      (melted ==> InB(b, h.i, h.j) && Adj4(h.i - y, h.j - x) && Heat(Look(b, h.i, h.j)) &&
                  o.b[y][x] == Fresh(reg, 'W', [], false) && Local(b, o.b, y, x, (h.i, h.j)) &&
                  var t := Look(b, h.i, h.j);
                  var cool := Unprocessed(t) && Chance(Next(r), CoolOdds(t, 700)).0;
                  (cool && KeyIs(t, 'B') ==> o.b[h.i][h.j] == Fresh(reg, 'H', [], true)) &&
                  (cool && KeyIs(t, 'F') ==> o.b[h.i][h.j] == Fresh(reg, 'K', [], true)) &&
                  (!(cool && (KeyIs(t, 'B') || KeyIs(t, 'F'))) ==> o.b[h.i][h.j] == b[h.i][h.j]))
  {
    var h := First(Scan(b, y, x, RLDU, Heat));
    InScan4(b, y, x, Heat, (h.i, h.j));
    QuenchOne(reg, b, y, x, Fresh(reg, 'W', [], false), h, LookAt(b, h), 700, false, Chance(r, 100).1);
    PutTwo(b, y, x, Fresh(reg, 'W', [], false), (h.i, h.j), b[h.i][h.j]);
  }
}
