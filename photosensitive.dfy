// Photosensitive powder (elements/photosensitive_powder.py): a powder that
// hardens into a static solid while a lamp lights it, and turns back into a
// falling powder when the light is gone.

module PhotosensitiveRule {
  import opened Kinds
  import opened Oracle
  import opened Boards
  import opened Grids
  import opened Cells
  import opened Movement

  /** `solidification_range`, and the densities (times ten) of the two forms. */
  const Range := 6
  const SolidDensity := 1000
  const PowderDensity := 45

  /** Cell (i, j) holds a light source whose light reaches (y, x): the
      squared distance is within both the source's radius and the range. */
  predicate Lights(b: Board, y: int, x: int, i: int, j: int)
  {
    var t := Look(b, i, j);
    var d2 := (x - j) * (x - j) + (y - i) * (y - i);
    t.Sees? && EmitsLight(t.k) && d2 <= LightRadius(t.k) * LightRadius(t.k) && d2 <= Range * Range
  }

  /** `check_light`: some cell of the square window of half-width `Range`
      around (y, x), clipped to the grid, lights it. */
  predicate Lit(b: Board, y: int, x: int)
  {
    exists i, j :: y - Range <= i <= y + Range && x - Range <= j <= x + Range && Lights(b, y, x, i, j)
  }

  /** The hardened form: static, not a powder, dense like a wall. */
  function Harden(st: St): St
  {
    st.(solidified := true, isPowder := false, isStatic := true, density := SolidDensity)
  }

  /** The powder form again. */
  function Soften(st: St): St
  {
    st.(solidified := false, isPowder := true, isStatic := false, density := PowderDensity)
  }

  /** `PhotosensitivePowder.update`: lit, it hardens (if not already) and is
      processed in place; unlit, it softens (if hardened) and, unless static,
      falls as powder grains do; it is processed either way. */
  function Update(b: Board, y: int, x: int, r: Rng): (o: Out)
    requires InB(b, y, x) && !b[y][x].Empty?
    ensures o.done && SameShape(b, o.b)
  {
    var st := b[y][x].st;
    if Lit(b, y, x) then
      var st1 := if st.solidified then st else Harden(st);
      Out(Put(b, y, x, WithSt(b[y][x], st1.(processed := true))), true, r)
    else
      var st1 := if st.solidified then Soften(st) else st;
      var b1 := Put(b, y, x, WithSt(b[y][x], st1));
      if st1.isStatic then Out(Proc(b1, y, x), true, r)
      else
        var o := Fall(b1, y, x, Grains, r);
        if o.done then o else Out(Proc(b1, y, x), true, o.r)
  }

  /** A light source never reaches beyond the window. */
  lemma Within(a: int, c: int)
    requires a * a + c * c <= Range * Range
    ensures -Range <= a <= Range
  {
    assert c * c >= 0;
  }

  /** The clipped window loses nothing: the element is lit exactly when some
      cell anywhere on the board lights it. */
  lemma LitAnywhere(b: Board, y: int, x: int)
    ensures Lit(b, y, x) <==> exists i, j :: Lights(b, y, x, i, j)
  {
    if i, j :| Lights(b, y, x, i, j) {
      Within(y - i, x - j);
      Within(x - j, y - i);
      assert y - Range <= i <= y + Range && x - Range <= j <= x + Range;
    }
  }

  /** `check_light` over the grid: the window's rows and columns in order,
      stopping at the first light source that reaches the element. */
  method CheckLightM(g: Grid, y: int, x: int, ghost b: Board, ghost S: set<Particle>) returns (lit: bool)
    requires g.Shows(b, S)
    ensures lit == Lit(b, y, x)
  {
    var r0 := if y - Range < 0 then 0 else y - Range;
    var r1 := if g.height < y + Range + 1 then g.height else y + Range + 1;
    var c0 := if x - Range < 0 then 0 else x - Range;
    var c1 := if g.width < x + Range + 1 then g.width else x + Range + 1;
    var i := r0;
    while i < r1
      invariant g.Shows(b, S)
      invariant r0 <= i || r1 <= r0
      invariant forall k, l :: y - Range <= k < i && x - Range <= l <= x + Range ==> !Lights(b, y, x, k, l)
      decreases r1 - i
    {
      var j := c0;
      while j < c1
        invariant g.Shows(b, S)
        invariant c0 <= j || c1 <= c0
        invariant forall l :: x - Range <= l < j ==> !Lights(b, y, x, i, l)
        decreases c1 - j
      {
        var t := g.Peek(i, j, b, S);
        var d2 := (x - j) * (x - j) + (y - i) * (y - i);
        if t.Sees? && EmitsLight(t.k) && d2 <= LightRadius(t.k) * LightRadius(t.k) && d2 <= Range * Range {
          assert Lights(b, y, x, i, j);
          return true;
        }
        j := j + 1;
      }
      i := i + 1;
    }
    return false;
  }

  method UpdateM(g: Grid, p: Particle, rng: Rng, ghost b: Board, ghost S: set<Particle>) returns (rng': Rng)
    requires g.Hosts(b, S, p) && !p.processed
    modifies g.cells, g.Repr
    ensures var o := Update(b, old(p.y), old(p.x), rng); g.Shows(o.b, S) && rng' == o.r
    ensures p.processed && g.Grew()
  {
    var y, x := p.y, p.x;
    rng' := rng;
    var lit := CheckLightM(g, y, x, b, S);
    var st := p.State();
    if lit {
      var st1 := if st.solidified then st else Harden(st);
      RestateM(g, p, st1.(processed := true), b, S);
      return;
    }
    var st1 := if st.solidified then Soften(st) else st;
    RestateM(g, p, st1, b, S);
    ghost var b1 := Put(b, y, x, Old(p, st1));
    if st1.isStatic {
      MarkSelf(g, p, b1, S);
      return;
    }
    rng' := FallM(g, p, Grains, rng, b1, S);
    if !p.processed {
      MarkSelf(g, p, b1, S);
    }
  }

  /** Lit, the element stays in its cell, hardened and processed: static,
      not a powder, with the wall-like density (a hardened one keeps its
      state), and nothing else changes. Unlit, a hardened element is a
      light powder again, and then it falls as powder grains do or stays
      processed in its cell. */
  lemma Hardens(b: Board, y: int, x: int, r: Rng)
    requires InB(b, y, x) && !b[y][x].Empty?
    ensures var o := Update(b, y, x, r);
      var st := b[y][x].st;
      (Lit(b, y, x) ==>
         Local(b, o.b, y, x, (y, x)) && o.b[y][x] == WithSt(b[y][x], o.b[y][x].st) &&
         var st' := o.b[y][x].st;
         st'.solidified && st'.processed && st'.tags == st.tags &&
         (st.solidified ==> st' == st.(processed := true)) &&
         (!st.solidified ==> st'.isStatic && !st'.isPowder && st'.density == SolidDensity)) &&
      (!Lit(b, y, x) ==>
         var st1 := if st.solidified then Soften(st) else st;
         var b1 := Put(b, y, x, WithSt(b[y][x], st1));
         !st1.solidified && st1.tags == st.tags &&
         (st.solidified ==> st1.isPowder && !st1.isStatic && st1.density == PowderDensity) &&
         (o.b == Proc(b1, y, x) ||
          (!st1.isStatic && (StepsTo(b1, y, x, 0, Grains, o.b) || StepsTo(b1, y, x, -1, Grains, o.b) ||
                             StepsTo(b1, y, x, 1, Grains, o.b)))))
  {
    var st := b[y][x].st;
    if !Lit(b, y, x) {
      var st1 := if st.solidified then Soften(st) else st;
      var b1 := Put(b, y, x, WithSt(b[y][x], st1));
      if !st1.isStatic {
        FallSpec(b1, y, x, Grains, r);
      }
    }
  }
}
