// Smoke (elements/smoke.py): a gas that may vanish on its own.

module SmokeRule {
  import opened Kinds
  import opened Oracle
  import opened Boards
  import opened Grids
  import opened Cells

  /** `Smoke.run_interactions`: a 2% roll empties the smoke's cell; the smoke
      is processed either way. */
  function Interact(b: Board, y: int, x: int, r: Rng): (o: Out)
    requires InB(b, y, x) && !b[y][x].Empty?
    ensures o.done && SameShape(b, o.b)
  {
    var (gone, r1) := Chance(r, 20);
    if gone then Out(Put(b, y, x, Empty), true, r1) else Out(Proc(b, y, x), true, r1)
  }

  method InteractM(g: Grid, p: Particle, rng: Rng, ghost b: Board, ghost S: set<Particle>) returns (rng': Rng)
    requires g.Hosts(b, S, p)
    modifies g.cells, p
    ensures var o := Interact(b, old(p.y), old(p.x), rng); g.Shows(o.b, S) && rng' == o.r
    ensures p.processed && g.Grew()
  {
    var gone;
    gone, rng' := Chance(rng, 20).0, Chance(rng, 20).1;
    if gone {
      VanishM(g, p, b, S);
    } else {
      MarkSelf(g, p, b, S);
    }
  }

  /** Only the smoke's own cell changes: it is emptied on a successful roll and
      otherwise keeps the smoke, marked processed. */
  lemma Fades(b: Board, y: int, x: int, r: Rng)
    requires InB(b, y, x) && !b[y][x].Empty?
    ensures var o := Interact(b, y, x, r);
      Local(b, o.b, y, x, (y, x)) && o.r == Next(r) &&
      (o.b[y][x].Empty? <==> Chance(r, 20).0) &&
      (!Chance(r, 20).0 ==> Marked(b, o.b, y, x))
  {
    MarkOnly(b, y, x);
  }
}
