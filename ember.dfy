// Ember (elements/ember.py): a hot powder that, on chance, sets one
// orthogonal flammable neighbour on fire, and may burn out into ash.

module EmberRule {
  import opened Kinds
  import opened Oracle
  import opened Boards
  import opened Grids
  import opened Cells

  /** What an ignited neighbour becomes: made by key 'F', processed. */
  function Flame(reg: Registry): Slot { Fresh(reg, 'F', [], true) }

  /** The burn-out chance: 4% right after igniting something, 2% otherwise. */
  function BurnOut(ignited: bool): nat { if ignited then 40 else 20 }

  /** `Ember.run_interactions`: with kindling beside it, a 25% roll picks one
      and sets it to whatever key 'F' makes; then a burn-out roll may turn
      the ember's own cell into whatever key 'H' makes. The ember is
      processed in every case. */
  function Interact(reg: Registry, b: Board, y: int, x: int, r: Rng): (o: Out)
    requires InB(b, y, x) && !b[y][x].Empty?
    ensures o.done && SameShape(b, o.b)
  {
    var (h, r1) := Strike(Scan(b, y, x, RLDU, Kindling), 250, r);
    NoSelf();
    ScanOthers(b, y, x, RLDU, Kindling);
    var b1 := Land(b, h, Flame(reg));
    var (out, r2) := Chance(r1, BurnOut(h.HitAt?));
    if out then Out(Put(b1, y, x, Fresh(reg, 'H', [], false)), true, r2)
    else Out(Proc(b1, y, x), true, r2)
  }

  method InteractM(g: Grid, p: Particle, reg: Registry, rng: Rng, ghost b: Board, ghost S: set<Particle>)
    returns (rng': Rng)
    requires g.Hosts(b, S, p)
    modifies g, g.cells, p
    ensures var o := Interact(reg, b, old(p.y), old(p.x), rng); g.Shows(o.b, S) && rng' == o.r
    ensures p.processed && g.Grew()
  {
    var y, x := p.y, p.x;
    var cs := ScanM(g, y, x, RLDU, Kindling, b, S);
    var h;
    h, rng' := StrikeM(cs, 250, rng);
    NoSelf();
    ScanOthers(b, y, x, RLDU, Kindling);
    ghost var b1 := Land(b, h, Flame(reg));
    LandM(g, p, reg, h, 'F', [], true, b, S);
    var out;
    out, rng' := Chance(rng', BurnOut(h.HitAt?)).0, Chance(rng', BurnOut(h.HitAt?)).1;
    if out {
      ReplaceM(g, p, reg, 'H', [], false, b1, S);
    } else {
      MarkSelf(g, p, b1, S);
    }
  }

  /** Apart from its own cell, an ember changes exactly the cell it hits, if
      any: orthogonal kindling, which becomes processed fire. Its own cell turns
      into unprocessed ash on burn-out, at the higher chance exactly when it
      ignited something, and otherwise keeps the ember, marked processed. */
  lemma IgnitesOne(reg: Registry, b: Board, y: int, x: int, r: Rng)
    requires InB(b, y, x) && !b[y][x].Empty?
    ensures var o := Interact(reg, b, y, x, r);
      var (h, r1) := Strike(Scan(b, y, x, RLDU, Kindling), 250, r);
      Elsewhere(b, o.b, y, x, h, Flame(reg)) &&
      (h.HitAt? ==> InB(b, h.i, h.j) && Adj4(h.i - y, h.j - x) && Kindling(Look(b, h.i, h.j))) &&
      (h.HitAt? <==> AnyNear(b, y, x, Adj4, Kindling) && Chance(r, 250).0) &&
      (Chance(r1, BurnOut(h.HitAt?)).0 ==> o.b[y][x] == Fresh(reg, 'H', [], false)) &&
      (!Chance(r1, BurnOut(h.HitAt?)).0 ==> Marked(b, o.b, y, x))
  {
    var h := Strike(Scan(b, y, x, RLDU, Kindling), 250, r).0;
    Scan4(b, y, x, Kindling);
    NoSelf();
    ScanOthers(b, y, x, RLDU, Kindling);
    if h.HitAt? {
      InScan4(b, y, x, Kindling, (h.i, h.j));
    }
    LandElsewhere(b, y, x, h, Flame(reg));
    var b1 := Land(b, h, Flame(reg));
    ElsewherePut(b, b1, y, x, h, Flame(reg), Fresh(reg, 'H', [], false));
    ElsewherePut(b, b1, y, x, h, Flame(reg), WithSt(b1[y][x], b1[y][x].st.(processed := true)));
  }

  /** Some cell besides the ember's own changes exactly when kindling lies
      orthogonally beside it and the 25% roll succeeds. */
  lemma IgnitesWhen(reg: Registry, b: Board, y: int, x: int, r: Rng)
    requires InB(b, y, x) && !b[y][x].Empty?
    ensures ChangedBesides(b, Interact(reg, b, y, x, r).b, y, x) <==>
            AnyNear(b, y, x, Adj4, Kindling) && Chance(r, 250).0
  {
    IgnitesOne(reg, b, y, x, r);
    var h := Strike(Scan(b, y, x, RLDU, Kindling), 250, r).0;
    if h.HitAt? {
      assert Flame(reg).Empty? || b[h.i][h.j].st.processed != Flame(reg).st.processed;
    }
    ChangedOnHit(b, Interact(reg, b, y, x, r).b, y, x, h, Flame(reg));
  }
}
