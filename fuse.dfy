// Fuse (elements/fuse.py): a solid that turns into key 'B' (an ember) next to
// any heat source, with no roll.

module FuseRule {
  import opened Kinds
  import opened Oracle
  import opened Boards
  import opened Grids
  import opened Cells

  /** `Fuse.run_interactions`: an orthogonal heat source, processed or not,
      makes the fuse's cell whatever key 'B' creates (empty if nothing is
      registered under 'B'); otherwise the fuse is processed unchanged. */
  function Interact(reg: Registry, b: Board, y: int, x: int, r: Rng): (o: Out)
    requires InB(b, y, x) && !b[y][x].Empty?
    ensures o.done && SameShape(b, o.b)
  {
    if First(Scan(b, y, x, RLDU, Heat)).HitAt? then Out(Put(b, y, x, Fresh(reg, 'B', [], false)), true, r)
    else Out(Proc(b, y, x), true, r)
  }

  method InteractM(g: Grid, p: Particle, reg: Registry, rng: Rng, ghost b: Board, ghost S: set<Particle>)
    returns (rng': Rng)
    requires g.Hosts(b, S, p)
    modifies g, g.cells, p
    ensures var o := Interact(reg, b, old(p.y), old(p.x), rng); g.Shows(o.b, S) && rng' == o.r
    ensures p.processed && g.Grew()
  {
    var h := FindM(g, p.y, p.x, RLDU, Heat, b, S);
    rng' := rng;
    if h.HitAt? {
      ReplaceM(g, p, reg, 'B', [], false, b, S);
    } else {
      MarkSelf(g, p, b, S);
    }
  }

  /** The fuse ignites with certainty exactly when some orthogonal neighbour
      is a heat source, into an unprocessed element with no tags; no random
      draw is made and no other cell changes. */
  lemma Ignites(reg: Registry, b: Board, y: int, x: int, r: Rng)
    requires InB(b, y, x) && !b[y][x].Empty?
    ensures var o := Interact(reg, b, y, x, r);
      o.r == r && Local(b, o.b, y, x, (y, x)) &&
      (AnyNear(b, y, x, Adj4, Heat) ==> o.b[y][x] == Fresh(reg, 'B', [], false)) &&
      (!AnyNear(b, y, x, Adj4, Heat) ==> Marked(b, o.b, y, x))
  {
    Scan4(b, y, x, Heat);
    MarkOnly(b, y, x);
  }
}
