// Goo (elements/mod/new_elements_a.py): a slow liquid that, on chance,
// tags one movable orthogonal neighbour as stuck to it.  The tag is only a
// marker: nothing in the game reads it, so the neighbour moves as before.

module GooRule {
  import opened Kinds
  import opened Oracle
  import opened Boards
  import opened Grids
  import opened Cells

  /** `stick_chance`, in thousandths. */
  const StickOdds := 400

  /** The tag a stuck neighbour receives. */
  const StuckTag := "stuck_to_goo"

  /** A neighbour goo can stick to: present, not static, not goo, and not
      processed. */
  predicate Stickable(t: Seen)
  {
    Unprocessed(t) && !t.st.isStatic && Key(t.k) != '~'
  }

  /** `Goo.run_interactions`: a 40% roll is drawn; on success, one of the
      stickable orthogonal neighbours, if any, is chosen at random and gets
      the tag appended.  The goo is never processed here: it flows next. */
  function Interact(b: Board, y: int, x: int, r: Rng): (o: Out)
    requires InB(b, y, x) && !b[y][x].Empty?
    ensures SameShape(b, o.b) && !o.done && o.b[y][x] == b[y][x]
  {
    var (go, r1) := Chance(r, StickOdds);
    var cs := Scan(b, y, x, UDLR, Stickable);
    if !go || cs == [] then Out(b, false, r1)
    else
      var (n, r2) := Pick(r1, |cs|);
      InScan4(b, y, x, Stickable, cs[n]);
      Out(Put(b, cs[n].0, cs[n].1, Tagged(b[cs[n].0][cs[n].1], StuckTag)), false, r2)
  }

  method InteractM(g: Grid, p: Particle, rng: Rng, ghost b: Board, ghost S: set<Particle>) returns (rng': Rng)
    requires g.Hosts(b, S, p) && !p.processed
    modifies g.cells, g.Repr
    ensures var o := Interact(b, old(p.y), old(p.x), rng);
      g.Shows(o.b, S) && rng' == o.r && !p.processed && Kept(p)
    ensures g.Grew()
  {
    var y, x := p.y, p.x;
    var go;
    go, rng' := Chance(rng, StickOdds).0, Chance(rng, StickOdds).1;
    if go {
      var cs := ScanM(g, y, x, UDLR, Stickable, b, S);
      if cs != [] {
        var n;
        n, rng' := Pick(rng', |cs|).0, Pick(rng', |cs|).1;
        InScan4(b, y, x, Stickable, cs[n]);
        var i, j := cs[n].0, cs[n].1;
        g.MatchAt(b, S, i, j);
        assert Interact(b, y, x, rng) == Out(Put(b, i, j, Tagged(b[i][j], StuckTag)), false, rng');
        TagM(g, p, i, j, StuckTag, b, S);
      }
    }
  }

  // --- Properties ---

  /** At most one cell changes: a stickable orthogonal neighbour, which
      keeps its kind and every field except its tags, to which the tag is
      appended, so that it stays unprocessed and still moves this frame. */
  lemma SticksOne(b: Board, y: int, x: int, r: Rng)
    requires InB(b, y, x) && !b[y][x].Empty?
    ensures var o := Interact(b, y, x, r);
      forall i, j :: InB(b, i, j) && o.b[i][j] != b[i][j] ==>
        Adj4(i - y, j - x) && Stickable(Look(b, i, j)) &&
        (forall k, l :: InB(b, k, l) && o.b[k][l] != b[k][l] ==> k == i && l == j) &&
        KindOf(o.b[i][j]) == KindOf(b[i][j]) && !o.b[i][j].Empty? &&
        o.b[i][j].st == b[i][j].st.(tags := b[i][j].st.tags + [StuckTag]) && !o.b[i][j].st.processed
  {
    var cs := Scan(b, y, x, UDLR, Stickable);
    if Chance(r, StickOdds).0 && cs != [] {
      var c := cs[Pick(Chance(r, StickOdds).1, |cs|).0];
      InScan4(b, y, x, Stickable, c);
    }
  }

  /** A neighbour is tagged exactly when the roll succeeds and some
      orthogonal neighbour is stickable; the roll is drawn either way. */
  lemma SticksWhen(b: Board, y: int, x: int, r: Rng)
    requires InB(b, y, x) && !b[y][x].Empty?
    ensures var o := Interact(b, y, x, r);
      (o.b != b <==> Chance(r, StickOdds).0 && AnyNear(b, y, x, Adj4, Stickable)) &&
      o.r.pos > r.pos
  {
    Scan4(b, y, x, Stickable);
    var cs := Scan(b, y, x, UDLR, Stickable);
    if Chance(r, StickOdds).0 && cs != [] {
      var c := cs[Pick(Chance(r, StickOdds).1, |cs|).0];
      InScan4(b, y, x, Stickable, c);
      var o := Interact(b, y, x, r);
      assert o.b[c.0][c.1] != b[c.0][c.1];
    }
  }

  /** The tag is appended even when the neighbour already carries it. */
  lemma TagRepeats(s: Slot)
    requires !s.Empty? && s.st.tags == [StuckTag]
    ensures Tagged(s, StuckTag).st.tags == [StuckTag, StuckTag]
  {
  }
}
