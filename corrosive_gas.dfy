// CorrosiveGas (elements/mod/new_elements_a.py): a gas that, when its
// movement leaves it unprocessed, may dissipate, or else may corrode one
// orthogonal neighbour that acid could dissolve.

module CorrosiveGasRule {
  import opened Kinds
  import opened Oracle
  import opened Boards
  import opened Grids
  import opened Cells
  import AcidRule

  /** `dissipate_chance`, in thousandths. */
  const FadeOdds := 10

  /** `corrode_chance`, in thousandths. */
  const CorrodeOdds := 50

  /** `CorrosiveGas.run_interactions`: a 1% roll empties the gas's own cell
      and ends its update.  Otherwise a 5% roll is drawn; on success, one of
      the unprocessed, acid-dissolvable orthogonal neighbours, if any, is
      chosen at random and emptied, and the gas itself is left unprocessed. */
  function Interact(b: Board, y: int, x: int, r: Rng): (o: Out)
    requires InB(b, y, x) && !b[y][x].Empty?
    ensures SameShape(b, o.b) && (!o.done ==> o.b[y][x] == b[y][x])
  {
    var (fade, r1) := Chance(r, FadeOdds);
    if fade then Out(Put(b, y, x, Empty), true, r1)
    else
      var (go, r2) := Chance(r1, CorrodeOdds);
      var cs := Scan(b, y, x, UDLR, AcidRule.Corrodible);
      if !go || cs == [] then Out(b, false, r2)
      else
        var (n, r3) := Pick(r2, |cs|);
        NoSelf();
        ScanOthers(b, y, x, UDLR, AcidRule.Corrodible);
        Out(Set(b, cs[n].0, cs[n].1, Empty), false, r3)
  }

  /** The corroded cell, if the roll succeeds and there is a candidate. */
  function Target(b: Board, y: int, x: int, r: Rng): (h: Hit)
  {
    var r1 := Chance(r, FadeOdds).1;
    var cs := Scan(b, y, x, UDLR, AcidRule.Corrodible);
    if Chance(r1, CorrodeOdds).0 && cs != [] then
      var n := Pick(Chance(r1, CorrodeOdds).1, |cs|).0;
      HitAt(cs[n].0, cs[n].1)
    else Miss
  }

  method InteractM(g: Grid, p: Particle, rng: Rng, ghost b: Board, ghost S: set<Particle>) returns (rng': Rng)
    requires g.Hosts(b, S, p) && !p.processed
    modifies g.cells, p
    ensures var o := Interact(b, old(p.y), old(p.x), rng);
      g.Shows(o.b, S) && rng' == o.r && (p.processed <==> o.done) && (!o.done ==> Kept(p))
    ensures g.Grew()
  {
    var y, x := p.y, p.x;
    var fade;
    fade, rng' := Chance(rng, FadeOdds).0, Chance(rng, FadeOdds).1;
    if fade {
      VanishM(g, p, b, S);
      return;
    }
    var go;
    go, rng' := Chance(rng', CorrodeOdds).0, Chance(rng', CorrodeOdds).1;
    if go {
      var cs := ScanM(g, y, x, UDLR, AcidRule.Corrodible, b, S);
      if cs != [] {
        var n;
        n, rng' := Pick(rng', |cs|).0, Pick(rng', |cs|).1;
        NoSelf();
        ScanOthers(b, y, x, UDLR, AcidRule.Corrodible);
        assert Interact(b, y, x, rng) == Out(Land(b, HitAt(cs[n].0, cs[n].1), Empty), false, rng');
        WipeM(g, p, HitAt(cs[n].0, cs[n].1), b, S);
      }
    }
  }

  // --- Properties ---

  /** The gas either dissipates, which empties its own cell and nothing
      else, or keeps its cell and empties at most the target: an
      unprocessed, acid-dissolvable orthogonal neighbour. */
  lemma CorrodesOne(b: Board, y: int, x: int, r: Rng)
    requires InB(b, y, x) && !b[y][x].Empty?
    ensures var o := Interact(b, y, x, r); var h := Target(b, y, x, r);
      (o.done <==> Chance(r, FadeOdds).0) &&
      (o.done ==> o.b == Put(b, y, x, Empty)) &&
      (!o.done ==> Elsewhere(b, o.b, y, x, h, Empty)) &&
      (h.HitAt? ==> InB(b, h.i, h.j) && Adj4(h.i - y, h.j - x) && AcidRule.Corrodible(Look(b, h.i, h.j)))
  {
    var h := Target(b, y, x, r);
    NoSelf();
    ScanOthers(b, y, x, UDLR, AcidRule.Corrodible);
    LandElsewhere(b, y, x, h, Empty);
    if h.HitAt? {
      InScan4(b, y, x, AcidRule.Corrodible, (h.i, h.j));
    }
  }

  /** A neighbour is corroded exactly when the gas does not dissipate, the
      corrosion roll succeeds and some orthogonal neighbour is unprocessed
      and dissolvable by acid. */
  lemma CorrodesWhen(b: Board, y: int, x: int, r: Rng)
    requires InB(b, y, x) && !b[y][x].Empty?
    ensures var r1 := Chance(r, FadeOdds).1;
      Target(b, y, x, r).HitAt? <==> Chance(r1, CorrodeOdds).0 && AnyNear(b, y, x, Adj4, AcidRule.Corrodible)
    ensures var o := Interact(b, y, x, r);
      !o.done ==> (o.b != b <==> Target(b, y, x, r).HitAt?)
  {
    Scan4(b, y, x, AcidRule.Corrodible);
    var h := Target(b, y, x, r);
    if h.HitAt? {
      InScan4(b, y, x, AcidRule.Corrodible, (h.i, h.j));
      assert Land(b, h, Empty)[h.i][h.j] != b[h.i][h.j];
    }
  }
}
