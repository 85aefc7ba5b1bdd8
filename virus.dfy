// Virus (elements/virus.py): a solid that, on chance, puts a new virus into
// one empty orthogonal cell.

module VirusRule {
  import opened Kinds
  import opened Oracle
  import opened Boards
  import opened Grids
  import opened Cells

  /** The offspring: `Virus(gy, gx)` with no tags, marked processed. */
  function Offspring(): Slot
  {
    Born(Virus, [], true)
  }

  /** `Virus.run_interactions`: with an empty orthogonal cell, a 2% roll
      picks one for a new virus; the virus is processed either way. */
  function Interact(b: Board, y: int, x: int, r: Rng): (o: Out)
    requires InB(b, y, x) && !b[y][x].Empty?
    ensures o.done && SameShape(b, o.b)
  {
    var (h, r1) := Strike(Scan(b, y, x, RLDU, Hole), 20, r);
    NoSelf();
    ScanOthers(b, y, x, RLDU, Hole);
    Out(Proc(Land(b, h, Offspring()), y, x), true, r1)
  }

  method InteractM(g: Grid, p: Particle, rng: Rng, ghost b: Board, ghost S: set<Particle>) returns (rng': Rng)
    requires g.Hosts(b, S, p)
    modifies g, g.cells, p
    ensures var o := Interact(b, old(p.y), old(p.x), rng); g.Shows(o.b, S) && rng' == o.r
    ensures p.processed && g.Grew()
  {
    var y, x := p.y, p.x;
    var cs := ScanM(g, y, x, RLDU, Hole, b, S);
    NoSelf();
    ScanOthers(b, y, x, RLDU, Hole);
    var hit := false;
    rng' := rng;
    if cs != [] {
      hit, rng' := Chance(rng, 20).0, Chance(rng, 20).1;
    }
    if hit {
      var n;
      n, rng' := Pick(rng', |cs|).0, Pick(rng', |cs|).1;
      ghost var b1 := Set(b, cs[n].0, cs[n].1, Offspring());
      SpawnKind(g, Virus, cs[n].0, cs[n].1, [], true, b, S);
      g.HostsAt(b1, S, p);
      MarkSelf(g, p, b1, S);
    } else {
      MarkSelf(g, p, b, S);
    }
  }

  /** The virus stays in its cell, only marked processed, and at most one
      other cell changes: an empty orthogonal cell, which receives a
      processed, tag-free virus. */
  lemma SpreadsOne(b: Board, y: int, x: int, r: Rng)
    requires InB(b, y, x) && !b[y][x].Empty?
    ensures var o := Interact(b, y, x, r);
      Marked(b, o.b, y, x) && OneOther(b, o.b, y, x) && Around(b, o.b, y, x, Adj4) &&
      forall i, j :: InB(b, i, j) && (i, j) != (y, x) && o.b[i][j] != b[i][j] ==>
        b[i][j] == Empty && o.b[i][j] == Offspring()
  {
    var cs := Scan(b, y, x, RLDU, Hole);
    var h := Strike(cs, 20, r).0;
    if h.HitAt? {
      InScan4(b, y, x, Hole, (h.i, h.j));
    }
    LandMark(b, y, x, h, Offspring(), Adj4);
  }

  /** A new virus appears exactly when some orthogonal cell is empty and the
      2% roll succeeds. */
  lemma SpreadsWhen(b: Board, y: int, x: int, r: Rng)
    requires InB(b, y, x) && !b[y][x].Empty?
    ensures var o := Interact(b, y, x, r);
      o.b != Proc(b, y, x) <==> AnyNear(b, y, x, Adj4, Hole) && Chance(r, 20).0
  {
    var h := Strike(Scan(b, y, x, RLDU, Hole), 20, r).0;
    Scan4(b, y, x, Hole);
    if h.HitAt? {
      InScan4(b, y, x, Hole, (h.i, h.j));
      LandSeen(b, y, x, h, Offspring());
    }
  }
}
