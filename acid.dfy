// Acid (elements/acid.py): a liquid that, on chance, dissolves one of its
// unprocessed dissolvable 8-neighbours, and may be used up in doing so.

module AcidRule {
  import opened Kinds
  import opened Oracle
  import opened Boards
  import opened Grids
  import opened Cells

  /** A neighbour acid may dissolve: present, not processed, and
      `dissolvable_by_acid`. */
  predicate Corrodible(t: Seen) { Unprocessed(t) && Dissolvable(t.k) }

  /** `Acid.run_interactions`: with a dissolvable neighbour, a 15% roll picks
      one and empties its cell; only then a 5% roll empties the acid's own
      cell, which ends its update. Otherwise the acid is left to flow. */
  function Interact(b: Board, y: int, x: int, r: Rng): (o: Out)
    requires InB(b, y, x) && !b[y][x].Empty?
    ensures SameShape(b, o.b) && (!o.done ==> o.b[y][x] == b[y][x])
  {
    var (h, r1) := Strike(Scan(b, y, x, Ring8R, Corrodible), 150, r);
    NoSelf();
    ScanOthers(b, y, x, Ring8R, Corrodible);
    if h.Miss? then Out(b, false, r1)
    else
      var b1 := Land(b, h, Empty);
      var (used, r2) := Chance(r1, 50);
      if used then Out(Put(b1, y, x, Empty), true, r2) else Out(b1, false, r2)
  }

  method InteractM(g: Grid, p: Particle, rng: Rng, ghost b: Board, ghost S: set<Particle>) returns (rng': Rng)
    requires g.Hosts(b, S, p) && !p.processed
    modifies g.cells, p
    ensures var o := Interact(b, old(p.y), old(p.x), rng);
      g.Shows(o.b, S) && rng' == o.r && (p.processed <==> o.done) && (!o.done ==> Kept(p))
    ensures g.Grew()
  {
    var y, x := p.y, p.x;
    var cs := ScanM(g, y, x, Ring8R, Corrodible, b, S);
    var h;
    h, rng' := StrikeM(cs, 150, rng);
    NoSelf();
    ScanOthers(b, y, x, Ring8R, Corrodible);
    if h.HitAt? {
      ghost var b1 := Land(b, h, Empty);
      WipeM(g, p, h, b, S);
      var used;
      used, rng' := Chance(rng', 50).0, Chance(rng', 50).1;
      if used {
        VanishM(g, p, b1, S);
      }
    }
  }

  /** Apart from its own cell, acid changes exactly the cell it hits, if
      any: an unprocessed dissolvable 8-neighbour, which becomes empty. Its own cell
      is unchanged unless it is used up, and it can only be used up after
      dissolving something. */
  lemma DissolvesOne(b: Board, y: int, x: int, r: Rng)
    requires InB(b, y, x) && !b[y][x].Empty?
    ensures var o := Interact(b, y, x, r);
      var h := Strike(Scan(b, y, x, Ring8R, Corrodible), 150, r).0;
      Elsewhere(b, o.b, y, x, h, Empty) &&
      (h.HitAt? ==> InB(b, h.i, h.j) && Adj8(h.i - y, h.j - x) && Corrodible(Look(b, h.i, h.j))) &&
      (o.done ==> h.HitAt? && o.b[y][x] == Empty)
  {
    var o := Interact(b, y, x, r);
    var h := Strike(Scan(b, y, x, Ring8R, Corrodible), 150, r).0;
    NoSelf();
    ScanOthers(b, y, x, Ring8R, Corrodible);
    var b1 := Land(b, h, Empty);
    LandElsewhere(b, y, x, h, Empty);
    ElsewherePut(b, b1, y, x, h, Empty, Empty);
    assert o.b == b1 || o.b == Put(b1, y, x, Empty);
    if h.HitAt? {
      InScan8(b, y, x, Corrodible, (h.i, h.j));
    }
  }

  /** Something is dissolved exactly when a dissolvable 8-neighbour exists
      and the 15% roll succeeds: the board changes on exactly those inputs. */
  lemma DissolvesWhen(b: Board, y: int, x: int, r: Rng)
    requires InB(b, y, x) && !b[y][x].Empty?
    ensures Interact(b, y, x, r).b != b <==> AnyNear(b, y, x, Adj8, Corrodible) && Chance(r, 150).0
  {
    Scan8(b, y, x, Corrodible);
    DissolvesOne(b, y, x, r);
    var h := Strike(Scan(b, y, x, Ring8R, Corrodible), 150, r).0;
    if h.HitAt? {
      assert Interact(b, y, x, r).b[h.i][h.j] != b[h.i][h.j];
    }
  }
}
