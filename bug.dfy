// Bug (elements/mod/new_elements_a.py): a creature that next to water may
// breed into an empty orthogonal cell, and on chance walks into one.
//
// The four directions live in a single list shared by every bug
// (`MOVE_DIRECTIONS`, also bound as `REPRODUCE_CHECKS`), which each walk
// shuffles in place; the model gives that list its own object.

module BugRule {
  import opened Kinds
  import opened Oracle
  import opened Boards
  import opened Grids
  import opened Cells

  /** `move_chance`, in thousandths. */
  const MoveOdds := 300

  /** `reproduce_chance`, in thousandths. */
  const BreedOdds := 1

  /** The class-level direction list shared by all bugs. */
  class Directions {
    var dirs: seq<(int, int)>

    /** The list as the class defines it: up, down, left, right. */
    constructor ()
      ensures dirs == UDLR
    {
      dirs := UDLR;
    }
  }

  /** The list holds the four orthogonal directions, each once. */
  predicate Orth(dirs: seq<(int, int)>) { multiset(dirs) == multiset(UDLR) }

  /** The offspring: `Bug(gy, gx)`, made by class rather than by key, with a
      copy of the parent's tags, left unprocessed. */
  function Offspring(tags: seq<string>): Slot
  {
    Born(Bug, tags, false)
  }

  /** The breeding step: with an unprocessed neighbour keyed 'W' in the
      directions, and an empty cell among them, a 0.1% roll and a random
      choice give the cell for the offspring; no draw is made otherwise. */
  function Breed(b: Board, y: int, x: int, dirs: seq<(int, int)>, r: Rng): (res: (Hit, Rng))
    ensures res.0.HitAt? ==> Scan(b, y, x, dirs, Wet) != [] && (res.0.i, res.0.j) in Scan(b, y, x, dirs, Hole)
    ensures Scan(b, y, x, dirs, Wet) == [] ==> res == (Miss, r)
  {
    if Scan(b, y, x, dirs, Wet) == [] then (Miss, r)
    else Strike(Scan(b, y, x, dirs, Hole), BreedOdds, r)
  }

  /** A scan for empty cells never collects the bug's own cell. */
  lemma HoleOthers(b: Board, y: int, x: int, offs: seq<(int, int)>)
    requires InB(b, y, x) && !b[y][x].Empty?
    ensures (y, x) !in Scan(b, y, x, offs, Hole)
    ensures forall c :: c in Scan(b, y, x, offs, Hole) ==> InB(b, c.0, c.1) && b[c.0][c.1].Empty?
  {
    ScanSound(b, y, x, offs, Hole);
  }

  /** The board after breeding. */
  function Bred(b: Board, y: int, x: int, dirs: seq<(int, int)>, r: Rng): (b1: Board)
    requires InB(b, y, x) && !b[y][x].Empty?
    ensures SameShape(b, b1) && b1[y][x] == b[y][x]
  {
    var h := Breed(b, y, x, dirs, r).0;
    HoleOthers(b, y, x, dirs);
    Land(b, h, Offspring(b[y][x].st.tags))
  }

  /** The walk over the list d, on board b: `_move_to` into the first
      empty cell in the order of d, if any; processed either way. */
  function Walk(b: Board, y: int, x: int, d: seq<(int, int)>): (b': Board)
    requires InB(b, y, x) && !b[y][x].Empty?
    ensures SameShape(b, b')
  {
    var m := First(Scan(b, y, x, d, Hole));
    if m.HitAt? then MoveB(b, y, x, m.i, m.j) else Proc(b, y, x)
  }

  /** `Bug.update` for an unprocessed bug at (y, x), with the shared list
      `dirs`: the breeding step, then a 30% roll; on success the list is
      shuffled and the bug walks into the first empty cell in the new order,
      if any (a gas or liquid there does not let it in).  The bug is
      processed on every path.  Returns the outcome and the list after. */
  function Update(b: Board, y: int, x: int, dirs: seq<(int, int)>, r: Rng): (res: (Out, seq<(int, int)>))
    requires InB(b, y, x) && !b[y][x].Empty?
    ensures res.0.done && SameShape(b, res.0.b) && |res.1| == |dirs|
  {
    Roam(Bred(b, y, x, dirs, r), y, x, dirs, Breed(b, y, x, dirs, r).1)
  }

  /** What follows the breeding step: the 30% roll, then on success the
      shuffle and the walk; the bug is processed either way. */
  function Roam(b1: Board, y: int, x: int, dirs: seq<(int, int)>, r: Rng): (res: (Out, seq<(int, int)>))
    requires InB(b1, y, x) && !b1[y][x].Empty?
    ensures res.0.done && SameShape(b1, res.0.b) && |res.1| == |dirs|
  {
    var (go, r2) := Chance(r, MoveOdds);
    if !go then (Out(Proc(b1, y, x), true, r2), dirs)
    else
      var (d2, r3) := Shuffle(dirs, r2);
      (Out(Walk(b1, y, x, d2), true, r3), d2)
  }

  method UpdateM(g: Grid, p: Particle, md: Directions, rng: Rng, ghost b: Board, ghost S: set<Particle>)
    returns (rng': Rng)
    requires g.Hosts(b, S, p) && !p.processed
    modifies g, g.cells, p, md
    ensures var res := Update(b, old(p.y), old(p.x), old(md.dirs), rng);
      g.Shows(res.0.b, S) && rng' == res.0.r && md.dirs == res.1
    ensures p.processed && g.Grew()
  {
    ghost var b1 := Bred(b, p.y, p.x, md.dirs, rng);
    rng' := BredM(g, p, md.dirs, rng, b, S);
    rng' := RoamM(g, p, md, rng', b1, S);
  }

  /** The breeding step on the grid: the offspring, if any, is written. */
  method BredM(g: Grid, p: Particle, dirs: seq<(int, int)>, rng: Rng, ghost b: Board, ghost S: set<Particle>)
    returns (rng': Rng)
    requires g.Hosts(b, S, p)
    modifies g, g.cells
    ensures g.Hosts(Bred(b, p.y, p.x, dirs, rng), S, p) && rng' == Breed(b, p.y, p.x, dirs, rng).1
    ensures g.Grew() && unchanged(old(g.Repr))
  {
    var h;
    h, rng' := BreedM(g, p.y, p.x, dirs, rng, b, S);
    HoleOthers(b, p.y, p.x, dirs);
    LandKindM(g, p, h, Bug, p.tags, false, b, S);
  }

  /** `Roam` on the grid. */
  method RoamM(g: Grid, p: Particle, md: Directions, rng: Rng, ghost b1: Board, ghost S: set<Particle>)
    returns (rng': Rng)
    requires g.Hosts(b1, S, p)
    modifies g.cells, p, md
    ensures var res := Roam(b1, old(p.y), old(p.x), old(md.dirs), rng);
      g.Shows(res.0.b, S) && rng' == res.0.r && md.dirs == res.1
    ensures p.processed && g.Grew()
  {
    var y, x := p.y, p.x;
    var go;
    go, rng' := Chance(rng, MoveOdds).0, Chance(rng, MoveOdds).1;
    if !go {
      MarkSelf(g, p, b1, S);
      return;
    }
    rng' := WalkM(g, p, md, rng', b1, S);
  }

  /** The two neighbour loops of the breeding step and its draws. */
  method BreedM(g: Grid, y: int, x: int, dirs: seq<(int, int)>, rng: Rng, ghost b: Board, ghost S: set<Particle>)
    returns (h: Hit, rng': Rng)
    requires g.Shows(b, S)
    ensures (h, rng') == Breed(b, y, x, dirs, rng)
  {
    var ws := ScanM(g, y, x, dirs, Wet, b, S);
    h, rng' := Miss, rng;
    if ws != [] {
      var es := ScanM(g, y, x, dirs, Hole, b, S);
      h, rng' := StrikeM(es, BreedOdds, rng);
    }
  }

  /** After a successful move roll: the shuffle of the shared list, then
      `_move_to` into the first empty cell. */
  method WalkM(g: Grid, p: Particle, md: Directions, rng: Rng, ghost b: Board, ghost S: set<Particle>)
    returns (rng': Rng)
    requires g.Hosts(b, S, p)
    modifies g.cells, p, md
    ensures var (d2, r3) := Shuffle(old(md.dirs), rng);
      g.Shows(Walk(b, old(p.y), old(p.x), d2), S) && rng' == r3 && md.dirs == d2
    ensures p.processed && g.Grew()
  {
    var y, x := p.y, p.x;
    var d2;
    d2, rng' := ShuffleM(md.dirs, rng);
    md.dirs := d2;
    var m := FindM(g, y, x, d2, Hole, b, S);
    if m.HitAt? {
      HoleOthers(b, y, x, d2);
      var ok := g.MoveTo(p, m.i, m.j, b, S);
    } else {
      MarkSelf(g, p, b, S);
    }
  }

  // --- Properties ---

  /** The list of directions only ever holds the same four directions. */
  lemma KeepsDirections(b: Board, y: int, x: int, dirs: seq<(int, int)>, r: Rng)
    requires InB(b, y, x) && !b[y][x].Empty? && Orth(dirs)
    ensures Orth(Update(b, y, x, dirs, r).1)
  {
    var r2 := Chance(Breed(b, y, x, dirs, r).1, MoveOdds).1;
    ShufflePerm(dirs, r2);
  }

  /** Over a list holding the four directions, a scan finds something
      exactly when some orthogonal cell qualifies, and what it finds shares
      a side with the bug. */
  /** Every direction of a reordering of the four is orthogonal. */
  lemma OrthAdj(dirs: seq<(int, int)>, d: (int, int))
    requires Orth(dirs) && d in dirs
    ensures Adj4(d.0, d.1)
  {
    assert d in multiset(dirs);
    Near4(d);
  }

  lemma ScanOrth(b: Board, y: int, x: int, dirs: seq<(int, int)>, ok: Seen -> bool)
    requires Orth(dirs)
    ensures Scan(b, y, x, dirs, ok) != [] <==> AnyNear(b, y, x, Adj4, ok)
    ensures forall c :: c in Scan(b, y, x, dirs, ok) ==> Adj4(c.0 - y, c.1 - x)
  {
    forall d | d in dirs
      ensures Adj4(d.0, d.1)
    {
      assert d in multiset(dirs);
      Near4(d);
    }
    forall dy, dx | Adj4(dy, dx)
      ensures (dy, dx) in dirs
    {
      Has4(dy, dx);
      assert (dy, dx) in multiset(UDLR);
    }
    ScanAnyOf(b, y, x, dirs, Adj4, ok);
    ScanSound(b, y, x, dirs, ok);
  }

  /** A bug breeds exactly when an unprocessed water (key 'W', not a bug,
      whose key is 'w') and an empty cell share a side with it and the roll
      succeeds; without water there is no draw at all. */
  lemma BreedsWhen(b: Board, y: int, x: int, dirs: seq<(int, int)>, r: Rng)
    requires Orth(dirs)
    ensures Breed(b, y, x, dirs, r).0.HitAt? <==>
      AnyNear(b, y, x, Adj4, Wet) && AnyNear(b, y, x, Adj4, Hole) && Chance(r, BreedOdds).0
    ensures !AnyNear(b, y, x, Adj4, Wet) ==> Breed(b, y, x, dirs, r) == (Miss, r)
    ensures forall t :: Wet(t) ==> t.k == Water
  {
    ScanOrth(b, y, x, dirs, Wet);
    ScanOrth(b, y, x, dirs, Hole);
  }

  /** Breeding changes at most one cell besides the bug's, an empty one,
      which receives the offspring; over the four directions it shares a
      side with the bug. */
  lemma BredEmpty(b: Board, y: int, x: int, dirs: seq<(int, int)>, r: Rng)
    requires InB(b, y, x) && !b[y][x].Empty?
    ensures var b1 := Bred(b, y, x, dirs, r);
      (forall i, j :: InB(b, i, j) && (i, j) != (y, x) && b1[i][j] != b[i][j] ==>
        b[i][j] == Empty && b1[i][j] == Offspring(b[y][x].st.tags)) &&
      (Orth(dirs) ==> Around(b, b1, y, x, Adj4))
  {
    BredChanges(b, y, x, dirs, r);
    if Orth(dirs) {
      BredBeside(b, y, x, dirs, r);
    }
  }

  /** Breeding only writes the offspring into an empty cell. */
  lemma BredChanges(b: Board, y: int, x: int, dirs: seq<(int, int)>, r: Rng)
    requires InB(b, y, x) && !b[y][x].Empty?
    ensures var b1 := Bred(b, y, x, dirs, r);
      forall i, j :: InB(b, i, j) && (i, j) != (y, x) && b1[i][j] != b[i][j] ==>
        b[i][j] == Empty && b1[i][j] == Offspring(b[y][x].st.tags)
  {
    var h := Breed(b, y, x, dirs, r).0;
    if h.HitAt? {
      HoleOthers(b, y, x, dirs);
      assert (h.i, h.j) in Scan(b, y, x, dirs, Hole);
    }
    LandHole(b, Bred(b, y, x, dirs, r), y, x, h, Offspring(b[y][x].st.tags));
  }

  /** Over the four directions the offspring lands beside the parent. */
  lemma BredBeside(b: Board, y: int, x: int, dirs: seq<(int, int)>, r: Rng)
    requires InB(b, y, x) && !b[y][x].Empty? && Orth(dirs)
    ensures Around(b, Bred(b, y, x, dirs, r), y, x, Adj4)
  {
    var h := Breed(b, y, x, dirs, r).0;
    if h.HitAt? {
      assert (h.i, h.j) in Scan(b, y, x, dirs, Hole);
      ScanAt(b, y, x, dirs, Hole, (h.i, h.j));
      OrthAdj(dirs, (h.i - y, h.j - x));
    }
    LandNear(b, Bred(b, y, x, dirs, r), y, x, h, Offspring(b[y][x].st.tags), Adj4);
  }

  /** Landing s on an empty cell changes that cell alone, into s. */
  lemma LandHole(b: Board, b1: Board, y: int, x: int, h: Hit, s: Slot)
    requires InB(b, y, x) && b1 == Land(b, h, s)
    requires h.HitAt? ==> InB(b, h.i, h.j) && (h.i, h.j) != (y, x) && b[h.i][h.j].Empty?
    ensures forall i, j :: InB(b, i, j) && (i, j) != (y, x) && b1[i][j] != b[i][j] ==> b[i][j] == Empty && b1[i][j] == s
  {
    LandElsewhere(b, y, x, h, s);
  }

  /** Landing on a cell near (y, x) changes nothing farther away. */
  lemma LandNear(b: Board, b1: Board, y: int, x: int, h: Hit, s: Slot, near: (int, int) -> bool)
    requires InB(b, y, x) && b1 == Land(b, h, s)
    requires h.HitAt? ==> InB(b, h.i, h.j) && (h.i, h.j) != (y, x) && near(h.i - y, h.j - x)
    ensures Around(b, b1, y, x, near)
  {
    LandElsewhere(b, y, x, h, s);
  }

  /** A walk leaves the bug's cell empty or only marks the bug processed;
      any other cell it changes was empty and receives the bug, marked
      processed; over the four directions that cell shares a side with the
      bug's. */
  lemma WalkEmpty(b: Board, y: int, x: int, d: seq<(int, int)>)
    requires InB(b, y, x) && !b[y][x].Empty?
    ensures var b' := Walk(b, y, x, d); var s := b[y][x];
      (b'[y][x] == Empty || Marked(b, b', y, x)) &&
      (forall i, j :: InB(b, i, j) && (i, j) != (y, x) && b'[i][j] != b[i][j] ==>
        b[i][j] == Empty && b'[i][j] == WithSt(s, s.st.(processed := true))) &&
      (Orth(d) ==> Around(b, b', y, x, Adj4))
  {
    var m := First(Scan(b, y, x, d, Hole));
    if m.HitAt? {
      HoleOthers(b, y, x, d);
      assert Local(b, Walk(b, y, x, d), y, x, (m.i, m.j));
      if Orth(d) {
        ScanOrth(b, y, x, d, Hole);
        LocalAround(b, Walk(b, y, x, d), y, x, (m.i, m.j), Adj4);
      }
    } else {
      MarkOnly(b, y, x);
      LocalAround(b, Walk(b, y, x, d), y, x, (y, x), Adj4);
    }
  }

  /** Over the four directions, the bug walks off exactly when some
      orthogonal cell is empty. */
  lemma WalkWhen(b: Board, y: int, x: int, d: seq<(int, int)>)
    requires InB(b, y, x) && !b[y][x].Empty? && Orth(d)
    ensures Walk(b, y, x, d)[y][x].Empty? <==> AnyNear(b, y, x, Adj4, Hole)
  {
    WalkLeaves(b, y, x, d);
    ScanOrth(b, y, x, d, Hole);
  }

  /** The walk leaves the bug's cell empty exactly when some cell of the
      list is empty. */
  lemma WalkLeaves(b: Board, y: int, x: int, d: seq<(int, int)>)
    requires InB(b, y, x) && !b[y][x].Empty?
    ensures Walk(b, y, x, d)[y][x].Empty? <==> Scan(b, y, x, d, Hole) != []
  {
    var cs := Scan(b, y, x, d, Hole);
    if cs != [] {
      ScanAt(b, y, x, d, Hole, cs[0]);
      assert Walk(b, y, x, d) == MoveB(b, y, x, cs[0].0, cs[0].1);
    }
  }

  /** Every cell the update changes besides the bug's own was empty: the
      bug walks only into empty cells, never into a gas or liquid, and the
      offspring only appears in one; what appears there is the offspring,
      unprocessed and with the parent's tags, or the bug itself, marked
      processed.  The bug's own cell is left empty or keeps the bug, only
      marked processed; over the four directions every change shares a
      side with the bug. */
  lemma EntersEmpty(b: Board, y: int, x: int, dirs: seq<(int, int)>, r: Rng)
    requires InB(b, y, x) && !b[y][x].Empty?
    ensures Entered(b, Update(b, y, x, dirs, r).0.b, y, x, dirs)
  {
    var b1 := Bred(b, y, x, dirs, r);
    var r2 := Chance(Breed(b, y, x, dirs, r).1, MoveOdds).1;
    var d2 := Shuffle(dirs, r2).0;
    var o := Update(b, y, x, dirs, r).0;
    BredEmpty(b, y, x, dirs, r);
    if Chance(Breed(b, y, x, dirs, r).1, MoveOdds).0 {
      assert o.b == Walk(b1, y, x, d2);
      WalkEmpty(b1, y, x, d2);
      ShufflePerm(dirs, r2);
      BredThenWalked(b, b1, o.b, y, x, dirs);
    } else {
      assert o.b == Proc(b1, y, x);
      MarkOnly(b1, y, x);
      LocalAround(b1, o.b, y, x, (y, x), Adj4);
      BredThenWalked(b, b1, o.b, y, x, dirs);
    }
  }

  /** What EntersEmpty states of the board b' the update leaves: the bug's
      cell is empty or only marks the bug processed, every other changed
      cell was empty and holds the offspring or the processed bug, and over
      the four directions it lies beside the bug. */
  ghost predicate Entered(b: Board, b': Board, y: int, x: int, dirs: seq<(int, int)>)
    requires InB(b, y, x) && !b[y][x].Empty? && SameShape(b, b')
  {
    var s := b[y][x];
    (b'[y][x] == Empty || Marked(b, b', y, x)) &&
    (forall i, j :: InB(b, i, j) && (i, j) != (y, x) && b'[i][j] != b[i][j] ==>
      b[i][j] == Empty &&
      (b'[i][j] == Offspring(s.st.tags) || b'[i][j] == WithSt(s, s.st.(processed := true)))) &&
    (Orth(dirs) ==> Around(b, b', y, x, Adj4))
  }

  /** The breeding step followed by a walk or a mark gives `Entered`. */
  lemma BredThenWalked(b: Board, b1: Board, b2: Board, y: int, x: int, dirs: seq<(int, int)>)
    requires InB(b, y, x) && !b[y][x].Empty? && SameShape(b, b1) && SameShape(b1, b2) && b1[y][x] == b[y][x]
    requires forall i, j :: InB(b, i, j) && (i, j) != (y, x) && b1[i][j] != b[i][j] ==>
      b[i][j] == Empty && b1[i][j] == Offspring(b[y][x].st.tags)
    requires Orth(dirs) ==> Around(b, b1, y, x, Adj4)
    requires var s := b1[y][x];
      (b2[y][x] == Empty || Marked(b1, b2, y, x)) &&
      (forall i, j :: InB(b1, i, j) && (i, j) != (y, x) && b2[i][j] != b1[i][j] ==>
        b1[i][j] == Empty && b2[i][j] == WithSt(s, s.st.(processed := true))) &&
      (Orth(dirs) ==> Around(b1, b2, y, x, Adj4))
    ensures Entered(b, b2, y, x, dirs)
  {
  }

  /** The bug walks exactly when the move roll succeeds and, after the
      breeding step, some orthogonal cell is empty. */
  lemma WalksWhen(b: Board, y: int, x: int, dirs: seq<(int, int)>, r: Rng)
    requires InB(b, y, x) && !b[y][x].Empty? && Orth(dirs)
    ensures var o := Update(b, y, x, dirs, r).0; var r1 := Breed(b, y, x, dirs, r).1;
      o.b[y][x].Empty? <==> Chance(r1, MoveOdds).0 && AnyNear(Bred(b, y, x, dirs, r), y, x, Adj4, Hole)
  {
    var b1 := Bred(b, y, x, dirs, r);
    var r2 := Chance(Breed(b, y, x, dirs, r).1, MoveOdds).1;
    var d2 := Shuffle(dirs, r2).0;
    ShufflePerm(dirs, r2);
    WalkWhen(b1, y, x, d2);
  }
}
