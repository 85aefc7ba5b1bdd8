// Fire (elements/fire.py): a hot gas that, on chance, burns one flammable
// 8-neighbour into a product that depends on the fuel, and may burn out into
// ash or smoke.

module FireRule {
  import opened Kinds
  import opened Oracle
  import opened Boards
  import opened Grids
  import opened Cells

  /** The key a burnt fuel becomes: explosive ('D'), plant ('P') and mud ('R')
      give ash ('H'), oil
      and gasoline give smoke ('K'), gunpowder gives fire ('F'), a fuse and
      everything else gives an ember ('B'). */
  function Product(fuel: char): (c: char)
    ensures c in {'H', 'K', 'B', 'F'}
  {
    if fuel in {'D', 'P', 'R'} then 'H'
    else if fuel in {'I', 'J'} then 'K'
    else if fuel == 'U' then 'B'
    else if fuel == 'N' then 'F'
    else 'B'
  }

  /** The product of the fuel that is seen, made by key and processed. */
  function Burnt(reg: Registry, t: Seen): Slot
  {
    Fresh(reg, Product(KeyOf(t)), [], true)
  }

  /** The burn-out chance: 5% right after burning fuel, 15% otherwise. */
  function BurnOut(fueled: bool): nat { if fueled then 50 else 150 }

  /** What a burnt-out fire leaves: ash on a 40% roll, smoke otherwise. */
  function Remains(ash: bool): char { if ash then 'H' else 'K' }

  /** `Fire.run_interactions`: with kindling around it, a 45% roll picks one
      and turns it into its product; then a burn-out roll may turn the fire's
      own cell into ash or smoke (a third roll decides which). The fire is
      processed in every case. */
  function Interact(reg: Registry, b: Board, y: int, x: int, r: Rng): (o: Out)
    requires InB(b, y, x) && !b[y][x].Empty?
    ensures o.done && SameShape(b, o.b)
  {
    var (h, r1) := Strike(Scan(b, y, x, Ring8R, Kindling), 450, r);
    NoSelf();
    ScanOthers(b, y, x, Ring8R, Kindling);
    var b1 := Land(b, h, Burnt(reg, LookAt(b, h)));
    Settle(reg, b1, y, x, h.HitAt?, r1)
  }

  /** The burn-out step of `Fire.run_interactions`. */
  function Settle(reg: Registry, b: Board, y: int, x: int, fueled: bool, r: Rng): (o: Out)
    requires InB(b, y, x) && !b[y][x].Empty?
    ensures o.done && SameShape(b, o.b)
  {
    var (out, r1) := Chance(r, BurnOut(fueled));
    if out then
      var (ash, r2) := Chance(r1, 400);
      Out(Put(b, y, x, Fresh(reg, Remains(ash), [], false)), true, r2)
    else Out(Proc(b, y, x), true, r1)
  }

  method SettleM(g: Grid, p: Particle, reg: Registry, fueled: bool, rng: Rng, ghost b: Board, ghost S: set<Particle>)
    returns (rng': Rng)
    requires g.Hosts(b, S, p)
    modifies g, g.cells, p
    ensures var o := Settle(reg, b, old(p.y), old(p.x), fueled, rng); g.Shows(o.b, S) && rng' == o.r
    ensures p.processed && g.Grew()
  {
    var out;
    out, rng' := Chance(rng, BurnOut(fueled)).0, Chance(rng, BurnOut(fueled)).1;
    if out {
      var ash;
      ash, rng' := Chance(rng', 400).0, Chance(rng', 400).1;
      ReplaceM(g, p, reg, Remains(ash), [], false, b, S);
    } else {
      MarkSelf(g, p, b, S);
    }
  }

  method InteractM(g: Grid, p: Particle, reg: Registry, rng: Rng, ghost b: Board, ghost S: set<Particle>)
    returns (rng': Rng)
    requires g.Hosts(b, S, p)
    modifies g, g.cells, p
    ensures var o := Interact(reg, b, old(p.y), old(p.x), rng); g.Shows(o.b, S) && rng' == o.r
    ensures p.processed && g.Grew()
  {
    var y, x := p.y, p.x;
    var cs := ScanM(g, y, x, Ring8R, Kindling, b, S);
    var h;
    h, rng' := StrikeM(cs, 450, rng);
    NoSelf();
    ScanOthers(b, y, x, Ring8R, Kindling);
    var t := LookAtM(g, h, b, S);
    ghost var b1 := Land(b, h, Burnt(reg, t));
    LandM(g, p, reg, h, Product(KeyOf(t)), [], true, b, S);
    rng' := SettleM(g, p, reg, h.HitAt?, rng', b1, S);
  }

  /** Apart from its own cell, fire changes exactly the cell it hits, if
      any: kindling around it, which becomes the processed product of that fuel.
      Its own cell turns into unprocessed ash or smoke on burn-out, at the
      lower chance exactly when it burnt fuel, and otherwise keeps the fire,
      marked processed. */
  lemma BurnsOne(reg: Registry, b: Board, y: int, x: int, r: Rng)
    requires InB(b, y, x) && !b[y][x].Empty?
    ensures var o := Interact(reg, b, y, x, r);
      var (h, r1) := Strike(Scan(b, y, x, Ring8R, Kindling), 450, r);
      var t := LookAt(b, h);
      var out := Chance(r1, BurnOut(h.HitAt?)).0;
      Elsewhere(b, o.b, y, x, h, Burnt(reg, t)) &&
      (h.HitAt? ==> InB(b, h.i, h.j) && Adj8(h.i - y, h.j - x) && Kindling(t)) &&
      (out ==> o.b[y][x] == Fresh(reg, Remains(Chance(Next(r1), 400).0), [], false)) &&
      (!out ==> Marked(b, o.b, y, x))
  {
    var o := Interact(reg, b, y, x, r);
    var (h, r1) := Strike(Scan(b, y, x, Ring8R, Kindling), 450, r);
    NoSelf();
    ScanOthers(b, y, x, Ring8R, Kindling);
    var s := Burnt(reg, LookAt(b, h));
    if h.HitAt? {
      InScan8(b, y, x, Kindling, (h.i, h.j));
    }
    var b1 := Land(b, h, s);
    LandElsewhere(b, y, x, h, s);
    var out := Chance(r1, BurnOut(h.HitAt?)).0;
    if out {
      var u := Fresh(reg, Remains(Chance(Next(r1), 400).0), [], false);
      ElsewherePut(b, b1, y, x, h, s, u);
      assert o.b == Put(b1, y, x, u);
    } else {
      ElsewherePut(b, b1, y, x, h, s, WithSt(b1[y][x], b1[y][x].st.(processed := true)));
      assert o.b == Proc(b1, y, x);
    }
  }

  /** Fuel is burnt exactly when kindling is around and the 45% roll
      succeeds: some cell besides the fire's own changes on exactly those
      inputs. */
  lemma BurnsWhen(reg: Registry, b: Board, y: int, x: int, r: Rng)
    requires InB(b, y, x) && !b[y][x].Empty?
    ensures ChangedBesides(b, Interact(reg, b, y, x, r).b, y, x) <==>
            AnyNear(b, y, x, Adj8, Kindling) && Chance(r, 450).0
  {
    Scan8(b, y, x, Kindling);
    BurnsOne(reg, b, y, x, r);
    var h := Strike(Scan(b, y, x, Ring8R, Kindling), 450, r).0;
    var s := Burnt(reg, LookAt(b, h));
    if h.HitAt? {
      assert s.Empty? || b[h.i][h.j].st.processed != s.st.processed;
    }
    ChangedOnHit(b, Interact(reg, b, y, x, r).b, y, x, h, s);
  }
}
