// Gunpowder (elements/gunpowder.py): a powder that, beside any heat source,
// may explode into fire and set its orthogonal neighbours alight.

module GunpowderRule {
  import opened Kinds
  import opened Oracle
  import opened Boards
  import opened Grids
  import opened Cells

  /** An orthogonal cell the explosion sets alight: empty, or holding an
      unprocessed flammable element that is not fire. */
  predicate Catches(t: Seen)
  {
    t.Vacant? || (t.Sees? && IsFlammable(t.k) && Key(t.k) != 'F' && !t.st.processed)
  }

  /** What key 'F' makes, processed (empty when 'F' is not registered). */
  function Blaze(reg: Registry): Slot { Fresh(reg, 'F', [], true) }

  /** `Gunpowder.run_interactions`: beside a heat source in any of the eight
      directions, a 90% roll turns the gunpowder's cell into fire and then
      every catching orthogonal cell into fire too. Otherwise the gunpowder
      is only marked processed. Either way it is processed, so it does not
      fall in the same frame. */
  function Interact(reg: Registry, b: Board, y: int, x: int, r: Rng): (o: Out)
    requires InB(b, y, x) && !b[y][x].Empty?
    ensures o.done && SameShape(b, o.b)
  {
    if Scan(b, y, x, Ring8R, Heat) == [] then Out(Proc(b, y, x), true, r)
    else
      var (boom, r1) := Chance(r, 900);
      if !boom then Out(Proc(b, y, x), true, r1)
      else Out(SetAll(Put(b, y, x, Blaze(reg)), Scan(b, y, x, RLDU, Catches), Blaze(reg)), true, r1)
  }

  method InteractM(g: Grid, p: Particle, reg: Registry, rng: Rng, ghost b: Board, ghost S: set<Particle>)
    returns (rng': Rng)
    requires g.Hosts(b, S, p)
    modifies g, g.cells, p
    ensures var o := Interact(reg, b, old(p.y), old(p.x), rng); g.Shows(o.b, S) && rng' == o.r
    ensures p.processed && g.Grew()
  {
    var y, x := p.y, p.x;
    var h := FindM(g, y, x, Ring8R, Heat, b, S);
    rng' := rng;
    var boom := false;
    if h.HitAt? {
      boom, rng' := Chance(rng, 900).0, Chance(rng, 900).1;
    }
    if !boom {
      MarkSelf(g, p, b, S);
      return;
    }
    var cs := ScanM(g, y, x, RLDU, Catches, b, S);
    ReplaceM(g, p, reg, 'F', [], true, b, S);
    SetAllM(g, reg, cs, 'F', [], true, Put(b, y, x, Blaze(reg)), S);
  }

  /** With a heat source in any of the eight directions and a successful
      roll, the gunpowder's cell becomes fire and every other cell becomes
      fire exactly when it shares a side with the gunpowder and catches;
      every other cell keeps its contents. Without that, only the
      gunpowder is marked processed. */
  lemma Explodes(reg: Registry, b: Board, y: int, x: int, r: Rng)
    requires InB(b, y, x) && !b[y][x].Empty?
    ensures var o := Interact(reg, b, y, x, r);
      var boom := AnyNear(b, y, x, Adj8, Heat) && Chance(r, 900).0;
      (!boom ==> o.b == Proc(b, y, x)) &&
      (boom ==> o.b[y][x] == Blaze(reg) &&
                forall i, j :: InB(b, i, j) && (i, j) != (y, x) ==>
                  o.b[i][j] == if Adj4(i - y, j - x) && Catches(Look(b, i, j)) then Blaze(reg) else b[i][j]) &&
      (!AnyNear(b, y, x, Adj8, Heat) ==> o.r == r)
  {
    Scan8(b, y, x, Heat);
    var o := Interact(reg, b, y, x, r);
    if AnyNear(b, y, x, Adj8, Heat) && Chance(r, 900).0 {
      var cs := Scan(b, y, x, RLDU, Catches);
      var b1 := Put(b, y, x, Blaze(reg));
      assert o.b == SetAll(b1, cs, Blaze(reg));
      NoSelf();
      ScanOthers(b, y, x, RLDU, Catches);
      SetAllAt(b1, cs, Blaze(reg), y, x);
      forall i, j | InB(b, i, j) && (i, j) != (y, x)
        ensures o.b[i][j] == if Adj4(i - y, j - x) && Catches(Look(b, i, j)) then Blaze(reg) else b[i][j]
      {
        SetAllAt(b1, cs, Blaze(reg), i, j);
        InScan4Iff(b, y, x, Catches, i, j);
      }
    }
  }
}
