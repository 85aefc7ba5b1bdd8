// AntiGravityPowder (elements/antigravity_powder.py): a powder that falls
// upward.  It has no reactions of its own; it rises one row, straight up if
// it can, else diagonally past a clear side cell, displacing lighter gases
// and, by a reversed rule, denser antigravity powder.

module AntiGravityRule {
  import opened Kinds
  import opened Oracle
  import opened Boards
  import opened Grids
  import opened Cells
  import opened Movement

  /** `AntiGravityPowder.update` for an unprocessed powder at (y, x): the
      upward fall, then the processed flag if it did not move. */
  function Update(b: Board, y: int, x: int, r: Rng): (o: Out)
    requires InB(b, y, x) && !b[y][x].Empty?
    ensures o.done && SameShape(b, o.b)
  {
    var f := Fall(b, y, x, Rising, r);
    if f.done then f else Out(Proc(b, y, x), true, f.r)
  }

  method UpdateM(g: Grid, p: Particle, rng: Rng, ghost b: Board, ghost S: set<Particle>) returns (rng': Rng)
    requires g.Hosts(b, S, p) && !p.processed
    modifies g.cells, g.Repr
    ensures var o := Update(b, old(p.y), old(p.x), rng); g.Shows(o.b, S) && rng' == o.r
    ensures p.processed && g.Grew()
  {
    rng' := FallM(g, p, Rising, rng, b, S);
    if !p.processed {
      MarkSelf(g, p, b, S);
    }
  }

  // --- Properties ---

  /** What the powder may enter by a swap: a gas it strictly outweighs, or
      an antigravity powder strictly denser than itself; nothing else. */
  lemma ReversedRule(d: int, t: Seen)
    requires t.Sees?
    ensures Takes(Rising, d, t) <==>
      (IsGas(t.k) && d > t.st.density) || (!IsGas(t.k) && t.k == AntiGravity && d < t.st.density)
  {
  }

  /** The powder moves only upward: straight up if that cell is open, else
      to an upper diagonal whose same-row side cell is clear; only when no
      such move exists does it stay, marked processed, with nothing else
      changed. */
  lemma Rises(b: Board, y: int, x: int, r: Rng)
    requires InB(b, y, x) && !b[y][x].Empty?
    ensures var o := Update(b, y, x, r); var d := b[y][x].st.density;
      var can := Opens(b, y - 1, x, Rising, d) || StepsTo(b, y, x, -1, Rising, Go(b, y, x, y - 1, x - 1)) ||
                 StepsTo(b, y, x, 1, Rising, Go(b, y, x, y - 1, x + 1));
      (Opens(b, y - 1, x, Rising, d) ==> StepsTo(b, y, x, 0, Rising, o.b)) &&
      (can ==> StepsTo(b, y, x, 0, Rising, o.b) || StepsTo(b, y, x, -1, Rising, o.b) ||
               StepsTo(b, y, x, 1, Rising, o.b)) &&
      (!can ==> o.b == Proc(b, y, x))
  {
    FallSpec(b, y, x, Rising, r);
  }

  /** Every cell the update changes lies in the powder's row or the row
      right above it, within one column. */
  lemma NeverDown(b: Board, y: int, x: int, r: Rng)
    requires InB(b, y, x) && !b[y][x].Empty?
    ensures var o := Update(b, y, x, r);
      forall i, j :: InB(b, i, j) && o.b[i][j] != b[i][j] ==> (i == y || i == y - 1) && x - 1 <= j <= x + 1
  {
    FallSpec(b, y, x, Rising, r);
  }
}
