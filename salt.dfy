// Salt (elements/salt.py): a powder that, next to unprocessed water, may
// dissolve into water itself.

module SaltRule {
  import opened Kinds
  import opened Oracle
  import opened Boards
  import opened Grids
  import opened Cells

  /** `Salt.run_interactions`: an unprocessed orthogonal water neighbour and a
      50% roll turn the salt's cell into new water made by key 'W' (left as it
      is if 'W' is not registered); the salt is then processed. Otherwise
      nothing changes and the salt falls. */
  function Interact(reg: Registry, b: Board, y: int, x: int, r: Rng): (o: Out)
    requires InB(b, y, x) && !b[y][x].Empty?
    ensures SameShape(b, o.b) && (!o.done ==> o.b == b)
  {
    if First(Scan(b, y, x, RLDU, Wet)).Miss? then Out(b, false, r)
    else
      var (ok, r1) := Chance(r, 500);
      if ok then Out(Become(reg, b, y, x, 'W', [], false), true, r1)
      else Out(b, false, r1)
  }

  method InteractM(g: Grid, p: Particle, reg: Registry, rng: Rng, ghost b: Board, ghost S: set<Particle>)
    returns (rng': Rng)
    requires g.Hosts(b, S, p) && !p.processed
    modifies g, g.cells, p
    ensures var o := Interact(reg, b, old(p.y), old(p.x), rng);
      g.Shows(o.b, S) && rng' == o.r && (p.processed <==> o.done) && (!o.done ==> Kept(p))
    ensures g.Grew()
  {
    var h := FindM(g, p.y, p.x, RLDU, Wet, b, S);
    rng' := rng;
    if h.HitAt? {
      var ok;
      ok, rng' := Chance(rng, 500).0, Chance(rng, 500).1;
      if ok {
        BecomeM(g, p, reg, 'W', [], false, b, S);
      }
    }
  }

  /** The salt reacts exactly when an unprocessed orthogonal water exists and
      the roll succeeds; only its own cell changes, the water beside it is
      left alone, and the new water is unprocessed and carries no tags. */
  lemma Dissolves(reg: Registry, b: Board, y: int, x: int, r: Rng)
    requires InB(b, y, x) && !b[y][x].Empty?
    ensures var o := Interact(reg, b, y, x, r);
      (o.done <==> AnyNear(b, y, x, Adj4, Wet) && Chance(r, 500).0) &&
      Local(b, o.b, y, x, (y, x)) &&
      (o.done && 'W' in reg ==> o.b[y][x] == Born(reg['W'], [], false)) &&
      (o.done && 'W' !in reg ==> Marked(b, o.b, y, x)) &&
      (!AnyNear(b, y, x, Adj4, Wet) ==> o.r == r)
  {
    Scan4(b, y, x, Wet);
    if 'W' !in reg {
      MarkOnly(b, y, x);
    }
  }
}
