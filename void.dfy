// Void (elements/void.py): a static solid that, on chance, deletes one of its
// unprocessed 8-neighbours other than walls and voids.

module VoidRule {
  import opened Kinds
  import opened Oracle
  import opened Boards
  import opened Grids
  import opened Cells

  /** A neighbour the void may delete: present, not processed, and neither a
      wall '#' nor a void '?'. */
  predicate Consumable(t: Seen)
  {
    Unprocessed(t) && Key(t.k) != '#' && Key(t.k) != '?'
  }

  /** `Void.update`: with a consumable neighbour, a 15% roll picks one and
      empties its cell; the void is processed either way. */
  function Update(b: Board, y: int, x: int, r: Rng): (o: Out)
    requires InB(b, y, x) && !b[y][x].Empty?
    ensures o.done && SameShape(b, o.b)
  {
    var (h, r1) := Strike(Scan(b, y, x, Ring8R, Consumable), 150, r);
    NoSelf();
    ScanOthers(b, y, x, Ring8R, Consumable);
    Out(Proc(Land(b, h, Empty), y, x), true, r1)
  }

  method UpdateM(g: Grid, p: Particle, rng: Rng, ghost b: Board, ghost S: set<Particle>) returns (rng': Rng)
    requires g.Hosts(b, S, p)
    modifies g.cells, p
    ensures var o := Update(b, old(p.y), old(p.x), rng); g.Shows(o.b, S) && rng' == o.r
    ensures p.processed && g.Grew()
  {
    var y, x := p.y, p.x;
    var cs := ScanM(g, y, x, Ring8R, Consumable, b, S);
    NoSelf();
    ScanOthers(b, y, x, Ring8R, Consumable);
    var hit := false;
    rng' := rng;
    if cs != [] {
      hit, rng' := Chance(rng, 150).0, Chance(rng, 150).1;
    }
    if hit {
      var n;
      n, rng' := Pick(rng', |cs|).0, Pick(rng', |cs|).1;
      ghost var b1 := Set(b, cs[n].0, cs[n].1, Empty);
      g.ClearCell(cs[n].0, cs[n].1, b, S);
      g.HostsAt(b1, S, p);
      MarkSelf(g, p, b1, S);
    } else {
      MarkSelf(g, p, b, S);
    }
  }

  /** The void's own cell keeps its element, only marked processed, and at
      most one other cell changes: a consumable 8-neighbour, which becomes
      empty. */
  lemma DeletesOne(b: Board, y: int, x: int, r: Rng)
    requires InB(b, y, x) && !b[y][x].Empty?
    ensures var o := Update(b, y, x, r);
      Marked(b, o.b, y, x) && OneOther(b, o.b, y, x) && Around(b, o.b, y, x, Adj8) &&
      forall i, j :: InB(b, i, j) && (i, j) != (y, x) && o.b[i][j] != b[i][j] ==>
        o.b[i][j] == Empty && Consumable(Look(b, i, j))
  {
    var cs := Scan(b, y, x, Ring8R, Consumable);
    var h := Strike(cs, 150, r).0;
    if h.HitAt? {
      InScan8(b, y, x, Consumable, (h.i, h.j));
    }
    LandMark(b, y, x, h, Empty, Adj8);
  }

  /** Some neighbour is deleted exactly when a consumable 8-neighbour exists
      and the 15% roll succeeds. */
  lemma DeletesWhen(b: Board, y: int, x: int, r: Rng)
    requires InB(b, y, x) && !b[y][x].Empty?
    ensures var o := Update(b, y, x, r);
      o.b != Proc(b, y, x) <==> AnyNear(b, y, x, Adj8, Consumable) && Chance(r, 150).0
  {
    var h := Strike(Scan(b, y, x, Ring8R, Consumable), 150, r).0;
    Scan8(b, y, x, Consumable);
    if h.HitAt? {
      InScan8(b, y, x, Consumable, (h.i, h.j));
      LandSeen(b, y, x, h, Empty);
    }
  }
}
