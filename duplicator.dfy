// Duplicator (elements/mod/duplicator/duplicator.py): a static solid that, on
// chance, copies the element resting on it into an empty cell below or
// beside it.  The copy is made from the key of the element above, through
// the registry, with that element's tags; nothing else of its state is
// copied.

module DuplicatorRule {
  import opened Kinds
  import opened Oracle
  import opened Boards
  import opened Grids
  import opened Cells

  /** `duplicate_chance`, in thousandths. */
  const DupOdds := 200

  /** `DUPLICATE_DIRECTIONS`: down, left, right. */
  const DupDirs: seq<(int, int)> := [(1, 0), (0, -1), (0, 1)]

  /** An element the duplicator copies: present and not a duplicator. */
  predicate Original(t: Seen) { t.Sees? && Key(t.k) != '*' }

  /** The copy of the element seen above, when its key is registered: a
      new, unprocessed element of the class the registry holds for that key,
      carrying the original's tags. */
  function Copy(reg: Registry, a: Seen): Slot
    requires a.Sees? && Key(a.k) in reg
  {
    Born(reg[Key(a.k)], a.st.tags, false)
  }

  /** The cells below, left and right that may receive the copy. */
  predicate Beside(dy: int, dx: int) { Adj4(dy, dx) && dy >= 0 }

  lemma InDup(b: Board, y: int, x: int, c: (int, int))
    requires c in Scan(b, y, x, DupDirs, Hole)
    ensures InB(b, c.0, c.1) && Hole(Look(b, c.0, c.1)) && Beside(c.0 - y, c.1 - x) && c != (y, x)
  {
    ScanAt(b, y, x, DupDirs, Hole, c);
  }

  /** `Duplicator.update` for an unprocessed duplicator at (y, x): with an
      original element right above, a 20% roll is drawn; on success, when
      some of down, left and right is empty, one of them is chosen at random
      and, if the registry knows the original's key, receives the copy.  The
      duplicator is processed on every path. */
  function Update(reg: Registry, b: Board, y: int, x: int, r: Rng): (o: Out)
    requires InB(b, y, x) && !b[y][x].Empty?
    ensures o.done && SameShape(b, o.b)
  {
    var a := Look(b, y - 1, x);
    if !Original(a) then Out(Proc(b, y, x), true, r)
    else
      var (go, r1) := Chance(r, DupOdds);
      var cs := Scan(b, y, x, DupDirs, Hole);
      if !go || cs == [] then Out(Proc(b, y, x), true, r1)
      else
        var (n, r2) := Pick(r1, |cs|);
        if Key(a.k) !in reg then Out(Proc(b, y, x), true, r2)
        else Out(Proc(Set(b, cs[n].0, cs[n].1, Copy(reg, a)), y, x), true, r2)
  }

  /** The look above: off the grid there is nothing to copy. */
  method OriginalM(g: Grid, y: int, x: int, ghost b: Board, ghost S: set<Particle>) returns (a: Seen)
    requires g.Shows(b, S)
    ensures a == Look(b, y - 1, x)
  {
    a := g.Peek(y - 1, x, b, S);
  }

  method UpdateM(g: Grid, p: Particle, reg: Registry, rng: Rng, ghost b: Board, ghost S: set<Particle>)
    returns (rng': Rng)
    requires g.Hosts(b, S, p)
    modifies g, g.cells, p
    ensures var o := Update(reg, b, old(p.y), old(p.x), rng); g.Shows(o.b, S) && rng' == o.r
    ensures p.processed && g.Grew()
  {
    var y, x := p.y, p.x;
    var a := OriginalM(g, y, x, b, S);
    rng' := rng;
    if !Original(a) {
      assert Update(reg, b, y, x, rng) == Out(Proc(b, y, x), true, rng');
      MarkSelf(g, p, b, S);
      return;
    }
    var go;
    go, rng' := Chance(rng, DupOdds).0, Chance(rng, DupOdds).1;
    var cs := ScanM(g, y, x, DupDirs, Hole, b, S);
    if !go || cs == [] {
      assert Update(reg, b, y, x, rng) == Out(Proc(b, y, x), true, rng');
      MarkSelf(g, p, b, S);
      return;
    }
    rng' := ChooseM(g, p, reg, a, cs, rng, b, S);
  }

  /** After a successful roll with some target cell empty: the random
      choice among the targets, then the copy if the key is registered. */
  method ChooseM(g: Grid, p: Particle, reg: Registry, a: Seen, cs: seq<(int, int)>, rng: Rng,
                 ghost b: Board, ghost S: set<Particle>) returns (rng': Rng)
    requires g.Hosts(b, S, p) && a == Look(b, p.y - 1, p.x) && Original(a)
    requires Chance(rng, DupOdds).0 && cs == Scan(b, p.y, p.x, DupDirs, Hole) && cs != []
    modifies g, g.cells, p
    ensures var o := Update(reg, b, old(p.y), old(p.x), rng); g.Shows(o.b, S) && rng' == o.r
    ensures p.processed && g.Grew()
  {
    var y, x := p.y, p.x;
    var n;
    n, rng' := Pick(Chance(rng, DupOdds).1, |cs|).0, Pick(Chance(rng, DupOdds).1, |cs|).1;
    if Key(a.k) !in reg {
      assert Update(reg, b, y, x, rng) == Out(Proc(b, y, x), true, rng');
      MarkSelf(g, p, b, S);
      return;
    }
    InDup(b, y, x, cs[n]);
    assert Update(reg, b, y, x, rng) == Out(Proc(Set(b, cs[n].0, cs[n].1, Copy(reg, a)), y, x), true, rng');
    CopyM(g, p, reg, a, cs[n].0, cs[n].1, b, S);
  }

  /** `grid.create_element` and `set_element` of the copy; then the
      duplicator is marked processed. */
  method CopyM(g: Grid, p: Particle, reg: Registry, a: Seen, i: int, j: int, ghost b: Board, ghost S: set<Particle>)
    requires g.Hosts(b, S, p) && a.Sees? && Key(a.k) in reg && (i, j) != (p.y, p.x)
    modifies g, g.cells, p
    ensures g.Shows(Proc(Set(b, i, j, Copy(reg, a)), old(p.y), old(p.x)), S) && p.processed
    ensures g.Grew()
  {
    LandM(g, p, reg, HitAt(i, j), Key(a.k), a.st.tags, false, b, S);
    MarkSelf(g, p, Set(b, i, j, Copy(reg, a)), S);
  }

  // --- Properties ---

  /** The duplicator stays, marked processed, and at most one other cell
      changes: an empty cell below, left or right of it, which receives an
      unprocessed element of the registry's class for the original's key,
      with the original's tags.  The original itself is never changed. */
  lemma CopiesOne(reg: Registry, b: Board, y: int, x: int, r: Rng)
    requires InB(b, y, x) && !b[y][x].Empty?
    ensures var o := Update(reg, b, y, x, r); var a := Look(b, y - 1, x);
      Marked(b, o.b, y, x) && OneOther(b, o.b, y, x) && Around(b, o.b, y, x, Beside) &&
      (forall i, j :: InB(b, i, j) && (i, j) != (y, x) && o.b[i][j] != b[i][j] ==>
        b[i][j] == Empty && a.Sees? && Key(a.k) in reg && o.b[i][j] == Born(reg[Key(a.k)], a.st.tags, false)) &&
      (InB(b, y - 1, x) ==> o.b[y - 1][x] == b[y - 1][x])
  {
    var a := Look(b, y - 1, x);
    var o := Update(reg, b, y, x, r);
    var cs := Scan(b, y, x, DupDirs, Hole);
    if Original(a) && Chance(r, DupOdds).0 && cs != [] && Key(a.k) in reg {
      var n := Pick(Chance(r, DupOdds).1, |cs|).0;
      InDup(b, y, x, cs[n]);
      PutMark(b, y, x, cs[n], Copy(reg, a));
      LocalOne(b, o.b, y, x, cs[n]);
      LocalAround(b, o.b, y, x, cs[n], Beside);
    } else {
      MarkOnly(b, y, x);
      LocalOne(b, o.b, y, x, (y, x));
      LocalAround(b, o.b, y, x, (y, x), Beside);
    }
  }

  /** A copy is made exactly when an original sits right above, the roll
      succeeds, some of down, left and right is empty and the original's key
      is registered; without an original no roll is drawn. */
  lemma CopiesWhen(reg: Registry, b: Board, y: int, x: int, r: Rng)
    requires InB(b, y, x) && !b[y][x].Empty?
    ensures var o := Update(reg, b, y, x, r); var a := Look(b, y - 1, x);
      (o.b != Proc(b, y, x) <==>
        Original(a) && Chance(r, DupOdds).0 && AnyNear(b, y, x, Beside, Hole) && Key(a.k) in reg) &&
      (!Original(a) ==> o.r == r)
  {
    var a := Look(b, y - 1, x);
    var cs := Scan(b, y, x, DupDirs, Hole);
    DupDirsBeside(b, y, x);
    if Original(a) && Chance(r, DupOdds).0 && cs != [] && Key(a.k) in reg {
      var n := Pick(Chance(r, DupOdds).1, |cs|).0;
      InDup(b, y, x, cs[n]);
      LandSeen(b, y, x, HitAt(cs[n].0, cs[n].1), Copy(reg, a));
    }
  }

  lemma DupDirsBeside(b: Board, y: int, x: int)
    ensures Scan(b, y, x, DupDirs, Hole) != [] <==> AnyNear(b, y, x, Beside, Hole)
  {
    forall dy, dx | Beside(dy, dx)
      ensures (dy, dx) in DupDirs
    {
    }
    ScanAnyOf(b, y, x, DupDirs, Beside, Hole);
  }

  /** A duplicator never copies another duplicator resting on it. */
  lemma NoChain(reg: Registry, b: Board, y: int, x: int, r: Rng)
    requires InB(b, y, x) && !b[y][x].Empty? && KeyIs(Look(b, y - 1, x), '*')
    ensures var o := Update(reg, b, y, x, r); o.b == Proc(b, y, x) && o.r == r
  {
  }
}
