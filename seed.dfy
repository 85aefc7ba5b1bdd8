// Seed (elements/seed.py): a powder that, with water or mud below it and
// room above it, may sprout into a plant.

module SeedRule {
  import opened Kinds
  import opened Oracle
  import opened Boards
  import opened Grids
  import opened Cells

  /** `neighbor.key == 'W' or neighbor.key == 'R'` */
  predicate Moist(t: Seen) { KeyIs(t, 'W') || KeyIs(t, 'R') }

  /** Nothing above: an empty cell, or the top edge of the grid. */
  predicate Room(t: Seen) { !t.Sees? }

  /** `Seed.run_interactions`: with water or mud directly below and room
      directly above, a 0.8% roll turns the seed's cell into whatever key 'P'
      makes. The seed ends processed in every case, so it never falls. */
  function Interact(reg: Registry, b: Board, y: int, x: int, r: Rng): (o: Out)
    requires InB(b, y, x) && !b[y][x].Empty?
    ensures o.done && SameShape(b, o.b)
  {
    if Moist(Look(b, y + 1, x)) && Room(Look(b, y - 1, x)) then
      var (ok, r1) := Chance(r, 8);
      if ok then Out(Put(b, y, x, Fresh(reg, 'P', [], false)), true, r1)
      else Out(Proc(b, y, x), true, r1)
    else Out(Proc(b, y, x), true, r)
  }

  /** The two looks, below and above. A look off the grid sees `Off`: below
      the grid there is no source, and above the grid, at the top edge,
      there is room. */
  method ReadyM(g: Grid, y: int, x: int, ghost b: Board, ghost S: set<Particle>) returns (ready: bool)
    requires g.Shows(b, S)
    ensures ready == (Moist(Look(b, y + 1, x)) && Room(Look(b, y - 1, x)))
  {
    var below := g.Peek(y + 1, x, b, S);
    var above := g.Peek(y - 1, x, b, S);
    ready := Moist(below) && Room(above);
  }

  method InteractM(g: Grid, p: Particle, reg: Registry, rng: Rng, ghost b: Board, ghost S: set<Particle>)
    returns (rng': Rng)
    requires g.Hosts(b, S, p)
    modifies g, g.cells, p
    ensures var o := Interact(reg, b, old(p.y), old(p.x), rng); g.Shows(o.b, S) && rng' == o.r
    ensures p.processed && g.Grew()
  {
    var y, x := p.y, p.x;
    var ready := ReadyM(g, y, x, b, S);
    rng' := rng;
    if ready {
      var ok;
      ok, rng' := Chance(rng, 8).0, Chance(rng, 8).1;
      if ok {
        assert Interact(reg, b, y, x, rng) == Out(Put(b, y, x, Fresh(reg, 'P', [], false)), true, rng');
        ReplaceM(g, p, reg, 'P', [], false, b, S);
        return;
      }
    }
    assert Interact(reg, b, y, x, rng) == Out(Proc(b, y, x), true, rng');
    MarkSelf(g, p, b, S);
  }

  /** Only the seed's cell changes. It sprouts, into an unprocessed plant
      with no tags, exactly when water or mud is below, nothing is above and
      the roll succeeds; it draws only when the first two hold; and
      otherwise it stays where it is, processed. */
  lemma Sprouts(reg: Registry, b: Board, y: int, x: int, r: Rng)
    requires InB(b, y, x) && !b[y][x].Empty?
    ensures var o := Interact(reg, b, y, x, r);
      var ready := Moist(Look(b, y + 1, x)) && Room(Look(b, y - 1, x));
      Local(b, o.b, y, x, (y, x)) &&
      (ready && Chance(r, 8).0 ==> o.b[y][x] == Fresh(reg, 'P', [], false)) &&
      (!(ready && Chance(r, 8).0) ==> Marked(b, o.b, y, x)) &&
      (o.r == if ready then Next(r) else r)
  {
    MarkOnly(b, y, x);
  }
}
