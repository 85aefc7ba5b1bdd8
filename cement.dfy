// Cement powder (elements/cement_powder.py): a powder that, touching
// unprocessed water, may set into stone and use the water up.

module CementRule {
  import opened Kinds
  import opened Oracle
  import opened Boards
  import opened Grids
  import opened Cells

  /** `CementPowder.run_interactions`: with an unprocessed orthogonal water
      (the first in right, left, down, up order), an 80% roll turns the
      cement's cell into whatever key 'O' makes (stone, or nothing) and empties
      that water's cell; the cement is then processed. Otherwise it is left to
      fall. */
  function Interact(reg: Registry, b: Board, y: int, x: int, r: Rng): (o: Out)
    requires InB(b, y, x) && !b[y][x].Empty?
    ensures SameShape(b, o.b) && (!o.done ==> o.b == b)
  {
    var h := First(Scan(b, y, x, RLDU, Wet));
    if h.Miss? then Out(b, false, r)
    else
      var (ok, r1) := Chance(r, 800);
      if ok then Out(Set(Put(b, y, x, Fresh(reg, 'O', [], false)), h.i, h.j, Empty), true, r1)
      else Out(b, false, r1)
  }

  method InteractM(g: Grid, p: Particle, reg: Registry, rng: Rng, ghost b: Board, ghost S: set<Particle>)
    returns (rng': Rng)
    requires g.Hosts(b, S, p) && !p.processed
    modifies g, g.cells, p
    ensures var o := Interact(reg, b, old(p.y), old(p.x), rng);
      g.Shows(o.b, S) && rng' == o.r && (p.processed <==> o.done) && (!o.done ==> Kept(p))
    ensures g.Grew()
  {
    var y, x := p.y, p.x;
    var h := FindM(g, y, x, RLDU, Wet, b, S);
    rng' := rng;
    if h.HitAt? {
      var ok;
      ok, rng' := Chance(rng, 800).0, Chance(rng, 800).1;
      if ok {
        InScan4(b, y, x, Wet, (h.i, h.j));
        ghost var b1 := Put(b, y, x, Fresh(reg, 'O', [], false));
        ReplaceM(g, p, reg, 'O', [], false, b, S);
        // the source looks again before removing the water; the cell has not
        // changed, so the look always finds it
        var t := g.Peek(h.i, h.j, b1, S);
        if KeyIs(t, 'W') {
          g.ClearCell(h.i, h.j, b1, S);
        } else {
          assert false;
        }
      }
    }
  }

  /** The cement sets exactly when an unprocessed orthogonal water exists and
      the roll succeeds; then its own cell holds unprocessed stone with no
      tags (nothing if 'O' is unregistered), the first such water in right,
      left, down, up order is emptied, and no other cell changes. */
  lemma Sets(reg: Registry, b: Board, y: int, x: int, r: Rng)
    requires InB(b, y, x) && !b[y][x].Empty?
    ensures var o := Interact(reg, b, y, x, r);
      var h := First(Scan(b, y, x, RLDU, Wet));
      (o.done <==> AnyNear(b, y, x, Adj4, Wet) && Chance(r, 800).0) &&
      (o.done ==> h.HitAt? && InB(b, h.i, h.j) && Adj4(h.i - y, h.j - x) && Wet(Look(b, h.i, h.j)) &&
                  o.b[y][x] == Fresh(reg, 'O', [], false) && o.b[h.i][h.j] == Empty &&
                  Local(b, o.b, y, x, (h.i, h.j))) &&
      (!AnyNear(b, y, x, Adj4, Wet) ==> o.r == r)
  {
    Scan4(b, y, x, Wet);
    var h := First(Scan(b, y, x, RLDU, Wet));
    if h.HitAt? {
      InScan4(b, y, x, Wet, (h.i, h.j));
      PutTwo(b, y, x, Fresh(reg, 'O', [], false), (h.i, h.j), Empty);
    }
  }
}
