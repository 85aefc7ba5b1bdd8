// Cryo powder (elements/cryo_powder.py): a powder that, on chance, freezes
// one unprocessed freezable 8-neighbour into ice, and may be used up in
// doing so.

module CryoRule {
  import opened Kinds
  import opened Oracle
  import opened Boards
  import opened Grids
  import opened Cells

  /** A neighbour cryo powder may freeze: present, `can_freeze`, not ice
      (key 'C') and not processed. */
  predicate Freezable(t: Seen) { t.Sees? && CanFreeze(t.k) && Key(t.k) != 'C' && !t.st.processed }

  /** The ice a frozen neighbour becomes: made by key 'C', carrying the
      neighbour's tags, marked processed. */
  function Frozen(reg: Registry, t: Seen): Slot
  {
    Fresh(reg, 'C', TagsOf(t), true)
  }

  /** `CryoPowder.run_interactions`: with a freezable neighbour, a 35% roll
      picks one; if key 'C' makes an element, the neighbour becomes that ice
      and a 5% roll may then empty the powder's own cell, ending its update.
      Otherwise the powder is left to fall. */
  function Interact(reg: Registry, b: Board, y: int, x: int, r: Rng): (o: Out)
    requires InB(b, y, x) && !b[y][x].Empty?
    ensures SameShape(b, o.b) && (!o.done ==> o.b[y][x] == b[y][x])
  {
    var (h, r1) := Strike(Scan(b, y, x, Ring8R, Freezable), 350, r);
    NoSelf();
    ScanOthers(b, y, x, Ring8R, Freezable);
    if h.Miss? || 'C' !in reg then Out(b, false, r1)
    else
      var b1 := Land(b, h, Frozen(reg, Look(b, h.i, h.j)));
      var (used, r2) := Chance(r1, 50);
      if used then Out(Put(b1, y, x, Empty), true, r2) else Out(b1, false, r2)
  }

  method InteractM(g: Grid, p: Particle, reg: Registry, rng: Rng, ghost b: Board, ghost S: set<Particle>)
    returns (rng': Rng)
    requires g.Hosts(b, S, p) && !p.processed
    modifies g, g.cells, p
    ensures var o := Interact(reg, b, old(p.y), old(p.x), rng);
      g.Shows(o.b, S) && rng' == o.r && (p.processed <==> o.done) && (!o.done ==> Kept(p))
    ensures g.Grew()
  {
    var y, x := p.y, p.x;
    ghost var o := Interact(reg, b, y, x, rng);
    var cs := ScanM(g, y, x, Ring8R, Freezable, b, S);
    var h;
    h, rng' := StrikeM(cs, 350, rng);
    NoSelf();
    ScanOthers(b, y, x, Ring8R, Freezable);
    if h.HitAt? && 'C' in reg {
      var t := g.Peek(h.i, h.j, b, S);
      ghost var b1 := Land(b, h, Frozen(reg, t));
      LandM(g, p, reg, h, 'C', TagsOf(t), true, b, S);
      var used;
      used, rng' := Chance(rng', 50).0, Chance(rng', 50).1;
      if used {
        assert o == Out(Put(b1, y, x, Empty), true, rng');
        VanishM(g, p, b1, S);
      } else {
        assert o == Out(b1, false, rng');
      }
    } else {
      assert o == Out(b, false, rng');
    }
  }

  /** Apart from its own cell, the powder changes exactly the cell it hits,
      if any and if key 'C' is registered: a freezable 8-neighbour, which becomes processed ice carrying that
      neighbour's tags. Its own cell is unchanged unless it is used up, and
      it can only be used up after freezing something. */
  lemma FreezesOne(reg: Registry, b: Board, y: int, x: int, r: Rng)
    requires InB(b, y, x) && !b[y][x].Empty?
    ensures var o := Interact(reg, b, y, x, r);
      var h := Strike(Scan(b, y, x, Ring8R, Freezable), 350, r).0;
      (h.HitAt? ==> InB(b, h.i, h.j) && Adj8(h.i - y, h.j - x) && Freezable(Look(b, h.i, h.j)) &&
                    ('C' in reg ==> Elsewhere(b, o.b, y, x, h, Frozen(reg, Look(b, h.i, h.j))))) &&
      (h.Miss? || 'C' !in reg ==> o.b == b && !o.done) &&
      (o.done ==> h.HitAt? && 'C' in reg && o.b[y][x] == Empty)
  {
    var o := Interact(reg, b, y, x, r);
    var h := Strike(Scan(b, y, x, Ring8R, Freezable), 350, r).0;
    if h.HitAt? {
      InScan8(b, y, x, Freezable, (h.i, h.j));
      if 'C' in reg {
        var s := Frozen(reg, Look(b, h.i, h.j));
        var b1 := Land(b, h, s);
        LandElsewhere(b, y, x, h, s);
        ElsewherePut(b, b1, y, x, h, s, Empty);
        assert o.b == b1 || o.b == Put(b1, y, x, Empty);
      }
    }
  }

  /** The board changes exactly when key 'C' is registered, a freezable
      8-neighbour exists and the 35% roll succeeds. */
  lemma FreezesWhen(reg: Registry, b: Board, y: int, x: int, r: Rng)
    requires InB(b, y, x) && !b[y][x].Empty?
    ensures Interact(reg, b, y, x, r).b != b <==>
            'C' in reg && AnyNear(b, y, x, Adj8, Freezable) && Chance(r, 350).0
  {
    Scan8(b, y, x, Freezable);
    FreezesOne(reg, b, y, x, r);
    var h := Strike(Scan(b, y, x, Ring8R, Freezable), 350, r).0;
    if h.HitAt? && 'C' in reg {
      assert Interact(reg, b, y, x, r).b[h.i][h.j].st.processed != b[h.i][h.j].st.processed;
    }
  }
}
