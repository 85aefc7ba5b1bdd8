// Spore (elements/spore.py): a light powder that may vanish, or grow into
// fungus next to a surface fungus grows on.

module SporeRule {
  import opened Kinds
  import opened Oracle
  import opened Boards
  import opened Grids
  import opened Cells

  /** `GROW_CHECK`: down, right, left, up. */
  const GrowCheck: seq<(int, int)> := [(1, 0), (0, 1), (0, -1), (-1, 0)]

  /** `neighbor.can_grow_on` */
  predicate Fertile(t: Seen) { t.Sees? && CanGrowOn(t.k) }

  /** `Spore.run_interactions`: a 0.5% roll empties the spore's cell;
      otherwise, next to an orthogonal surface fungus grows on, a 1% roll
      replaces the spore by fungus (key 'f') carrying its tags. In both cases
      the spore is processed; else it is left to fall. */
  function Interact(reg: Registry, b: Board, y: int, x: int, r: Rng): (o: Out)
    requires InB(b, y, x) && !b[y][x].Empty?
    ensures SameShape(b, o.b) && (!o.done ==> o.b == b)
  {
    var (gone, r1) := Chance(r, 5);
    if gone then Out(Put(b, y, x, Empty), true, r1)
    else if First(Scan(b, y, x, GrowCheck, Fertile)).Miss? then Out(b, false, r1)
    else
      var (grow, r2) := Chance(r1, 10);
      if grow then Out(Become(reg, b, y, x, 'f', b[y][x].st.tags, false), true, r2)
      else Out(b, false, r2)
  }

  method InteractM(g: Grid, p: Particle, reg: Registry, rng: Rng, ghost b: Board, ghost S: set<Particle>)
    returns (rng': Rng)
    requires g.Hosts(b, S, p) && !p.processed
    modifies g, g.cells, p
    ensures var o := Interact(reg, b, old(p.y), old(p.x), rng);
      g.Shows(o.b, S) && rng' == o.r && (p.processed <==> o.done) && (!o.done ==> Kept(p))
    ensures g.Grew()
  {
    var gone;
    gone, rng' := Chance(rng, 5).0, Chance(rng, 5).1;
    if gone {
      VanishM(g, p, b, S);
      return;
    }
    var h := FindM(g, p.y, p.x, GrowCheck, Fertile, b, S);
    if h.HitAt? {
      var grow;
      grow, rng' := Chance(rng', 10).0, Chance(rng', 10).1;
      if grow {
        BecomeM(g, p, reg, 'f', p.tags, false, b, S);
      }
    }
  }

  lemma GrowCheckAround(b: Board, y: int, x: int)
    ensures Scan(b, y, x, GrowCheck, Fertile) != [] <==> AnyNear(b, y, x, Adj4, Fertile)
  {
    forall dy, dx | Adj4(dy, dx)
      ensures (dy, dx) in GrowCheck
    {
    }
    ScanAnyOf(b, y, x, GrowCheck, Adj4, Fertile);
  }

  /** The spore acts exactly when it vanishes or, beside ground fungus grows
      on, the growth roll succeeds; only its own cell changes, into nothing
      or into unprocessed fungus with the spore's tags. */
  lemma Grows(reg: Registry, b: Board, y: int, x: int, r: Rng)
    requires InB(b, y, x) && !b[y][x].Empty?
    ensures var o := Interact(reg, b, y, x, r);
      (o.done <==> Chance(r, 5).0 || (AnyNear(b, y, x, Adj4, Fertile) && Chance(Next(r), 10).0)) &&
      Local(b, o.b, y, x, (y, x)) &&
      (Chance(r, 5).0 ==> o.b[y][x] == Empty) &&
      (o.done && !Chance(r, 5).0 && 'f' in reg ==> o.b[y][x] == Born(reg['f'], b[y][x].st.tags, false))
  {
    GrowCheckAround(b, y, x);
    MarkOnly(b, y, x);
  }
}
