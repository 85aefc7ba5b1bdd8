// Plant (elements/plant.py): a solid that, with water or mud below it, may
// grow a new plant into an empty cell above or beside it.

module PlantRule {
  import opened Kinds
  import opened Oracle
  import opened Boards
  import opened Grids
  import opened Cells

  /** `GROW_DIRECTIONS`: up, left, right. */
  const GrowDirs: seq<(int, int)> := [(-1, 0), (0, -1), (0, 1)]

  /** `neighbor.key == 'W' or neighbor.key == 'R'` */
  predicate Moist(t: Seen) { KeyIs(t, 'W') || KeyIs(t, 'R') }

  /** The new growth: `self.__class__(gy, gx)`, a plant with no tags, marked
      processed. */
  function Shoot(): Slot
  {
    Born(Plant, [], true)
  }

  /** The cells growth may go to: up, left and right, never down. */
  predicate Upward(dy: int, dx: int) { Adj4(dy, dx) && dy <= 0 }

  lemma InGrow(b: Board, y: int, x: int, c: (int, int))
    requires c in Scan(b, y, x, GrowDirs, Hole)
    ensures InB(b, c.0, c.1) && Hole(Look(b, c.0, c.1)) && Upward(c.0 - y, c.1 - x) && c != (y, x)
  {
    ScanAt(b, y, x, GrowDirs, Hole, c);
  }

  /** `Plant.run_interactions`: with water or mud directly below, a 0.3% roll
      (taken only if some of up, left, right is empty) grows a shoot into one
      of those empty cells, chosen at random; the plant is processed in every
      case. */
  function Interact(b: Board, y: int, x: int, r: Rng): (o: Out)
    requires InB(b, y, x) && !b[y][x].Empty?
    ensures o.done && SameShape(b, o.b)
  {
    if !Moist(Look(b, y + 1, x)) then Out(Proc(b, y, x), true, r)
    else
      var (h, r1) := Strike(Scan(b, y, x, GrowDirs, Hole), 3, r);
      ScanOthers(b, y, x, GrowDirs, Hole);
      Out(Proc(Land(b, h, Shoot()), y, x), true, r1)
  }

  /** The look below: off the grid there is no source. */
  method SourceM(g: Grid, y: int, x: int, ghost b: Board, ghost S: set<Particle>) returns (source: bool)
    requires g.Shows(b, S)
    ensures source == Moist(Look(b, y + 1, x))
  {
    var below := g.Peek(y + 1, x, b, S);
    source := Moist(below);
  }

  method InteractM(g: Grid, p: Particle, rng: Rng, ghost b: Board, ghost S: set<Particle>) returns (rng': Rng)
    requires g.Hosts(b, S, p)
    modifies g, g.cells, p
    ensures var o := Interact(b, old(p.y), old(p.x), rng); g.Shows(o.b, S) && rng' == o.r
    ensures p.processed && g.Grew()
  {
    var y, x := p.y, p.x;
    var source := SourceM(g, y, x, b, S);
    rng' := rng;
    if !source {
      InteractDry(b, y, x, rng);
      MarkSelf(g, p, b, S);
      return;
    }
    var cs := ScanM(g, y, x, GrowDirs, Hole, b, S);
    var h;
    h, rng' := StrikeM(cs, 3, rng);
    ScanOthers(b, y, x, GrowDirs, Hole);
    InteractWet(b, y, x, rng);
    if h.HitAt? {
      ghost var b1 := Set(b, h.i, h.j, Shoot());
      SpawnKind(g, Plant, h.i, h.j, [], true, b, S);
      g.HostsAt(b1, S, p);
      MarkSelf(g, p, b1, S);
    } else {
      MarkSelf(g, p, b, S);
    }
  }

  /** Without water or mud below, the plant is only marked. */
  lemma InteractDry(b: Board, y: int, x: int, r: Rng)
    requires InB(b, y, x) && !b[y][x].Empty? && !Moist(Look(b, y + 1, x))
    ensures Interact(b, y, x, r) == Out(Proc(b, y, x), true, r)
  {
  }

  /** With water or mud below, the roll over the empty cells decides. */
  lemma InteractWet(b: Board, y: int, x: int, r: Rng)
    requires InB(b, y, x) && !b[y][x].Empty? && Moist(Look(b, y + 1, x))
    ensures var (h, r1) := Strike(Scan(b, y, x, GrowDirs, Hole), 3, r);
      Interact(b, y, x, r) == Out(Proc(Land(b, h, Shoot()), y, x), true, r1)
  {
  }

  /** The plant stays, marked processed, and at most one other cell changes:
      an empty cell above, left or right of it, which receives a processed
      plant with no tags; without water or mud below nothing else changes
      and nothing is drawn. */
  lemma GrowsOne(b: Board, y: int, x: int, r: Rng)
    requires InB(b, y, x) && !b[y][x].Empty?
    ensures var o := Interact(b, y, x, r);
      Marked(b, o.b, y, x) && OneOther(b, o.b, y, x) && Around(b, o.b, y, x, Upward) &&
      (forall i, j :: InB(b, i, j) && (i, j) != (y, x) && o.b[i][j] != b[i][j] ==>
        b[i][j] == Empty && o.b[i][j] == Shoot()) &&
      (!Moist(Look(b, y + 1, x)) ==> o.b == Proc(b, y, x) && o.r == r)
  {
    if Moist(Look(b, y + 1, x)) {
      var h := Strike(Scan(b, y, x, GrowDirs, Hole), 3, r).0;
      if h.HitAt? {
        InGrow(b, y, x, (h.i, h.j));
      }
      LandMark(b, y, x, h, Shoot(), Upward);
    } else {
      MarkOnly(b, y, x);
      LocalOne(b, Proc(b, y, x), y, x, (y, x));
    }
  }

  /** Some cell besides the plant's own changes exactly when water or mud
      lies directly below, some cell above, left or right is empty, and the
      0.3% roll succeeds. */
  lemma GrowsWhen(b: Board, y: int, x: int, r: Rng)
    requires InB(b, y, x) && !b[y][x].Empty?
    ensures ChangedBesides(b, Interact(b, y, x, r).b, y, x) <==>
            Moist(Look(b, y + 1, x)) && AnyNear(b, y, x, Upward, Hole) && Chance(r, 3).0
  {
    ScanAnyOf(b, y, x, GrowDirs, Upward, Hole);
    if Moist(Look(b, y + 1, x)) {
      GrowsMoist(b, y, x, r);
    } else {
      MarkOnly(b, y, x);
    }
  }

  /** With water or mud below, some cell besides the plant's own changes
      exactly when the roll over the empty cells hits. */
  lemma GrowsMoist(b: Board, y: int, x: int, r: Rng)
    requires InB(b, y, x) && !b[y][x].Empty? && Moist(Look(b, y + 1, x))
    ensures ChangedBesides(b, Interact(b, y, x, r).b, y, x) <==>
            Strike(Scan(b, y, x, GrowDirs, Hole), 3, r).0.HitAt?
  {
    var o := Interact(b, y, x, r);
    var h := Strike(Scan(b, y, x, GrowDirs, Hole), 3, r).0;
    GrowsOne(b, y, x, r);
    if h.HitAt? {
      InGrow(b, y, x, (h.i, h.j));
      PutMark(b, y, x, (h.i, h.j), Shoot());
      assert o.b[h.i][h.j] != b[h.i][h.j];
    } else {
      MarkOnly(b, y, x);
    }
  }
}
