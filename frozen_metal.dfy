// FrozenMetal (elements/mod/new_elements_a.py): a static solid that slowly
// thaws into metal carrying its tags.

module FrozenMetalRule {
  import opened Kinds
  import opened Oracle
  import opened Boards
  import opened Grids
  import opened Cells

  /** `melt_chance`, in thousandths. */
  const ThawOdds := 5

  /** `FrozenMetal.run_interactions`: a 0.5% roll turns the cell into metal
      made by key 'M' with the element's tags (it stays if 'M' is not
      registered); the element is processed on every path. */
  function Interact(reg: Registry, b: Board, y: int, x: int, r: Rng): (o: Out)
    requires InB(b, y, x) && !b[y][x].Empty?
    ensures o.done && SameShape(b, o.b)
  {
    var (thaw, r1) := Chance(r, ThawOdds);
    if thaw then Out(Become(reg, b, y, x, 'M', b[y][x].st.tags, false), true, r1)
    else Out(Proc(b, y, x), true, r1)
  }

  method InteractM(g: Grid, p: Particle, reg: Registry, rng: Rng, ghost b: Board, ghost S: set<Particle>)
    returns (rng': Rng)
    requires g.Hosts(b, S, p)
    modifies g, g.cells, p
    ensures var o := Interact(reg, b, old(p.y), old(p.x), rng); g.Shows(o.b, S) && rng' == o.r
    ensures p.processed && g.Grew()
  {
    var thaw;
    thaw, rng' := Chance(rng, ThawOdds).0, Chance(rng, ThawOdds).1;
    if thaw {
      BecomeM(g, p, reg, 'M', p.tags, false, b, S);
    } else {
      MarkSelf(g, p, b, S);
    }
  }

  // --- Properties ---

  /** Exactly one roll is drawn; only the element's own cell changes: it
      becomes an unprocessed metal with the same tags when the roll succeeds
      and 'M' is registered, and is otherwise only marked processed. */
  lemma Thaws(reg: Registry, b: Board, y: int, x: int, r: Rng)
    requires InB(b, y, x) && !b[y][x].Empty?
    ensures var o := Interact(reg, b, y, x, r);
      o.r == Next(r) && Local(b, o.b, y, x, (y, x)) &&
      (Chance(r, ThawOdds).0 && 'M' in reg ==> o.b[y][x] == Born(reg['M'], b[y][x].st.tags, false)) &&
      (!(Chance(r, ThawOdds).0 && 'M' in reg) ==> Marked(b, o.b, y, x))
  {
    MarkOnly(b, y, x);
  }
}
