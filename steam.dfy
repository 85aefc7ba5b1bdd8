// Steam (elements/steam.py): a gas that may condense into water, or else
// cool one unprocessed ember beside it into ash.

module SteamRule {
  import opened Kinds
  import opened Oracle
  import opened Boards
  import opened Grids
  import opened Cells

  /** An unprocessed element keyed 'B' (an ember, or whatever class the
      registry holds under 'B'). */
  predicate Glowing(t: Seen) { Unprocessed(t) && KeyIs(t, 'B') }

  /** The cooled ember's replacement: ash made by key 'H', processed; empty if
      'H' is not registered. */
  function Cinder(reg: Registry): Slot
  {
    Fresh(reg, 'H', [], true)
  }

  /** `Steam.run_interactions`: a 0.5% roll turns the steam's cell into
      whatever key 'W' makes; otherwise each unprocessed orthogonal ember in
      turn gets a 5% roll and the first success is cooled. The steam ends
      processed. */
  function Interact(reg: Registry, b: Board, y: int, x: int, r: Rng): (o: Out)
    requires InB(b, y, x) && !b[y][x].Empty?
    ensures o.done && SameShape(b, o.b)
  {
    var (wet, r1) := Chance(r, 5);
    if wet then Out(Put(b, y, x, Fresh(reg, 'W', [], false)), true, r1)
    else
      var (h, r2) := FirstRoll(b, y, x, RLDU, Glowing, 50, r1);
      NoSelf();
      ScanOthers(b, y, x, RLDU, Glowing);
      Out(Proc(Land(b, h, Cinder(reg)), y, x), true, r2)
  }

  method InteractM(g: Grid, p: Particle, reg: Registry, rng: Rng, ghost b: Board, ghost S: set<Particle>)
    returns (rng': Rng)
    requires g.Hosts(b, S, p)
    modifies g, g.cells, p
    ensures var o := Interact(reg, b, old(p.y), old(p.x), rng); g.Shows(o.b, S) && rng' == o.r
    ensures p.processed && g.Grew()
  {
    var y, x := p.y, p.x;
    var wet;
    wet, rng' := Chance(rng, 5).0, Chance(rng, 5).1;
    if wet {
      ReplaceM(g, p, reg, 'W', [], false, b, S);
      return;
    }
    var h;
    h, rng' := FirstRollM(g, y, x, RLDU, Glowing, 50, rng', b, S);
    NoSelf();
    ScanOthers(b, y, x, RLDU, Glowing);
    if h.HitAt? {
      ghost var b1 := Set(b, h.i, h.j, Cinder(reg));
      Overwrite(g, reg, 'H', h.i, h.j, [], true, b, S);
      g.HostsAt(b1, S, p);
      MarkSelf(g, p, b1, S);
    } else {
      MarkSelf(g, p, b, S);
    }
  }

  /** Condensing changes only the steam's own cell, into unprocessed water. */
  lemma Condenses(reg: Registry, b: Board, y: int, x: int, r: Rng)
    requires InB(b, y, x) && !b[y][x].Empty?
    ensures var o := Interact(reg, b, y, x, r);
      Chance(r, 5).0 ==> Local(b, o.b, y, x, (y, x)) && o.b[y][x] == Fresh(reg, 'W', [], false)
  {
  }

  /** Without condensing, the steam stays, marked processed, and at most one
      other cell changes: an unprocessed orthogonal ember, which becomes
      processed ash. */
  lemma CoolsOne(reg: Registry, b: Board, y: int, x: int, r: Rng)
    requires InB(b, y, x) && !b[y][x].Empty?
    ensures var o := Interact(reg, b, y, x, r);
      !Chance(r, 5).0 ==>
        Marked(b, o.b, y, x) && OneOther(b, o.b, y, x) && Around(b, o.b, y, x, Adj4) &&
        forall i, j :: InB(b, i, j) && (i, j) != (y, x) && o.b[i][j] != b[i][j] ==>
          Glowing(Look(b, i, j)) && o.b[i][j] == Cinder(reg)
  {
    if !Chance(r, 5).0 {
      var h := FirstRoll(b, y, x, RLDU, Glowing, 50, Chance(r, 5).1).0;
      if h.HitAt? {
        InScan4(b, y, x, Glowing, (h.i, h.j));
      }
      LandMark(b, y, x, h, Cinder(reg), Adj4);
    }
  }

  /** Without an unprocessed ember beside it, steam that does not condense
      only marks itself and makes no draw beyond the condensing roll. */
  lemma NoEmber(reg: Registry, b: Board, y: int, x: int, r: Rng)
    requires InB(b, y, x) && !b[y][x].Empty?
    requires !AnyNear(b, y, x, Adj4, Glowing)
    ensures var o := Interact(reg, b, y, x, r);
      !Chance(r, 5).0 ==> o.b == Proc(b, y, x) && o.r == Next(r)
  {
    Scan4(b, y, x, Glowing);
    FirstRollNone(b, y, x, RLDU, Glowing, 50, Chance(r, 5).1);
  }

  /** Without condensing, some cell besides the steam's own changes exactly
      on a hit, and the hit ember becomes processed ash. */
  lemma CoolsOnHit(reg: Registry, b: Board, y: int, x: int, r: Rng)
    requires InB(b, y, x) && !b[y][x].Empty? && !Chance(r, 5).0
    ensures var h := FirstRoll(b, y, x, RLDU, Glowing, 50, Next(r)).0;
      var o := Interact(reg, b, y, x, r);
      (ChangedBesides(b, o.b, y, x) <==> h.HitAt?) &&
      (h.HitAt? ==> InB(b, h.i, h.j) && o.b[h.i][h.j] == Cinder(reg))
  {
    var h := FirstRoll(b, y, x, RLDU, Glowing, 50, Next(r)).0;
    NoSelf();
    ScanOthers(b, y, x, RLDU, Glowing);
    var o := Interact(reg, b, y, x, r);
    if h.HitAt? {
      InScan4(b, y, x, Glowing, (h.i, h.j));
      PutMark(b, y, x, (h.i, h.j), Cinder(reg));
      assert Cinder(reg).Empty? || b[h.i][h.j].st.processed != Cinder(reg).st.processed;
      assert o.b[h.i][h.j] != b[h.i][h.j];
    } else {
      MarkOnly(b, y, x);
    }
  }

  /** Without condensing, the unprocessed embers beside the steam, in right,
      left, down, up order, each get their own 5% draw: some cell besides the
      steam's own changes exactly when one of those draws succeeds, and the
      ember whose draw was the first success becomes processed ash. */
  lemma CoolsWhen(reg: Registry, b: Board, y: int, x: int, r: Rng)
    requires InB(b, y, x) && !b[y][x].Empty?
    ensures var cs := Scan(b, y, x, RLDU, Glowing);
      var o := Interact(reg, b, y, x, r);
      !Chance(r, 5).0 ==> FirstGets(b, o.b, cs, Next(r), 50, ChangedBesides(b, o.b, y, x), Cinder(reg))
  {
    if !Chance(r, 5).0 {
      var o := Interact(reg, b, y, x, r);
      FirstRollPicks(b, y, x, RLDU, Glowing, 50, Next(r));
      CoolsOnHit(reg, b, y, x, r);
      FirstWinnerGets(b, o.b, Scan(b, y, x, RLDU, Glowing), FirstRoll(b, y, x, RLDU, Glowing, 50, Next(r)).0,
                      Next(r), 50, ChangedBesides(b, o.b, y, x), Cinder(reg));
    }
  }
}
