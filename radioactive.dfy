// Radioactive (elements/radioactive.py): a powder that may decay into metal
// or mutate a neighbour into virus or fungus.

module RadioactiveRule {
  import opened Kinds
  import opened Oracle
  import opened Boards
  import opened Grids
  import opened Cells

  /** A neighbour radiation can mutate: unprocessed, not static, and not
      radioactive 'u' itself. */
  predicate Mutable(t: Seen)
  {
    Unprocessed(t) && !t.st.isStatic && Key(t.k) != 'u'
  }

  /** `random.choice(['V', 'f'])` */
  function Mutant(m: nat): char { if m == 0 then 'V' else 'f' }

  /** The mutation: after a 0.5% roll, one chosen mutable 8-neighbour and
      the key it turns into. The draws for the choice are taken only when
      there is a candidate. */
  function Mutation(b: Board, y: int, x: int, r: Rng): (res: (Hit, char, Rng))
    ensures res.1 == 'V' || res.1 == 'f'
  {
    var (mut, r1) := Chance(r, 5);
    var cs := Scan(b, y, x, Ring8U, Mutable);
    if !mut || cs == [] then (Miss, 'V', r1)
    else
      var (n, r2) := Pick(r1, |cs|);
      var (m, r3) := Pick(r2, 2);
      (HitAt(cs[n].0, cs[n].1), Mutant(m), r3)
  }

  /** `Radioactive.run_interactions`: a 0.1% roll decays the element, which
      is finished and whose cell becomes whatever key 'M' makes, with its tags
      (it stays, processed, when 'M' is not registered). Otherwise the
      mutation's target, if any, becomes processed virus or fungus carrying
      the target's tags (nothing when that key is not registered), and the
      element is left to fall. */
  function Interact(reg: Registry, b: Board, y: int, x: int, r: Rng): (o: Out)
    requires InB(b, y, x) && !b[y][x].Empty?
    ensures SameShape(b, o.b)
  {
    var (decay, r1) := Chance(r, 1);
    if decay then
      if 'M' in reg then Out(Put(b, y, x, Born(reg['M'], b[y][x].st.tags, false)), true, r1)
      else Out(Proc(b, y, x), true, r1)
    else
      var (h, key, r2) := Mutation(b, y, x, r1);
      if key in reg then Out(Land(b, h, Born(reg[key], TagsOf(LookAt(b, h)), true)), false, r2)
      else Out(b, false, r2)
  }

  method MutationM(g: Grid, y: int, x: int, rng: Rng, ghost b: Board, ghost S: set<Particle>)
    returns (h: Hit, key: char, rng': Rng)
    requires g.Shows(b, S)
    ensures (h, key, rng') == Mutation(b, y, x, rng)
    ensures h.HitAt? ==> (h.i, h.j) != (y, x)
  {
    var mut;
    mut, rng' := Chance(rng, 5).0, Chance(rng, 5).1;
    h, key := Miss, 'V';
    if !mut {
      return;
    }
    var cs := ScanM(g, y, x, Ring8U, Mutable, b, S);
    NoSelf();
    ScanOthers(b, y, x, Ring8U, Mutable);
    if cs == [] {
      return;
    }
    var n, m;
    n, rng' := Pick(rng', |cs|).0, Pick(rng', |cs|).1;
    m, rng' := Pick(rng', 2).0, Pick(rng', 2).1;
    h, key := HitAt(cs[n].0, cs[n].1), Mutant(m);
  }

  method InteractM(g: Grid, p: Particle, reg: Registry, rng: Rng, ghost b: Board, ghost S: set<Particle>)
    returns (rng': Rng)
    requires g.Hosts(b, S, p) && !p.processed
    modifies g, g.cells, p
    ensures var o := Interact(reg, b, old(p.y), old(p.x), rng);
      g.Shows(o.b, S) && rng' == o.r && (p.processed <==> o.done) && (!o.done ==> Kept(p))
    ensures g.Grew()
  {
    var y, x := p.y, p.x;
    var decay;
    decay, rng' := Chance(rng, 1).0, Chance(rng, 1).1;
    if decay {
      if 'M' in reg {
        ReplaceM(g, p, reg, 'M', p.tags, false, b, S);
      } else {
        MarkSelf(g, p, b, S);
      }
      return;
    }
    var h, key;
    h, key, rng' := MutationM(g, y, x, rng', b, S);
    if key in reg {
      var t := LookAtM(g, h, b, S);
      LandM(g, p, reg, h, key, TagsOf(t), true, b, S);
    }
  }

  /** On decay the element is finished, only its own cell changes, and that
      cell holds new unprocessed metal with its tags (or the element itself,
      processed, when 'M' is not registered): nothing is mutated. Without
      decay the element's cell is unchanged, so it falls next, and at most
      one other cell changes: a mutable 8-neighbour that becomes processed
      virus or fungus carrying that neighbour's tags. */
  lemma DecaysOrMutates(reg: Registry, b: Board, y: int, x: int, r: Rng)
    requires InB(b, y, x) && !b[y][x].Empty?
    ensures var o := Interact(reg, b, y, x, r);
      (o.done <==> Chance(r, 1).0) &&
      (o.done ==> Local(b, o.b, y, x, (y, x)) &&
                  o.b[y][x] == if 'M' in reg then Born(reg['M'], b[y][x].st.tags, false)
                               else WithSt(b[y][x], b[y][x].st.(processed := true))) &&
      (!o.done ==> o.b[y][x] == b[y][x] && OneOther(b, o.b, y, x) && Around(b, o.b, y, x, Adj8) &&
                   forall i, j :: InB(b, i, j) && (i, j) != (y, x) && o.b[i][j] != b[i][j] ==>
                     Mutable(Look(b, i, j)) &&
                     ((('V' in reg && o.b[i][j] == Born(reg['V'], TagsOf(Look(b, i, j)), true)) ||
                       ('f' in reg && o.b[i][j] == Born(reg['f'], TagsOf(Look(b, i, j)), true)))))
  {
    var o := Interact(reg, b, y, x, r);
    if !o.done {
      var r1 := Chance(r, 1).1;
      var (h, key, r2) := Mutation(b, y, x, r1);
      var h' := if key in reg && h.HitAt? then h else Miss;
      var s := if key in reg then Born(reg[key], TagsOf(LookAt(b, h)), true) else Empty;
      if h'.HitAt? {
        InScan8(b, y, x, Mutable, (h.i, h.j));
      }
      assert o.b == Land(b, h', s);
      LandElsewhere(b, y, x, h', s);
    }
  }

  /** Without decay, a target is chosen exactly when the 0.5% roll succeeds
      and some mutable 8-neighbour exists; the board changes exactly when a
      target is chosen and its drawn key ('V' or 'f') is registered, and then
      the target holds that processed mutant carrying the target's tags. */
  lemma MutatesWhen(reg: Registry, b: Board, y: int, x: int, r: Rng)
    requires InB(b, y, x) && !b[y][x].Empty?
    ensures var m := Mutation(b, y, x, Next(r));
      var o := Interact(reg, b, y, x, r);
      !Chance(r, 1).0 ==>
        (m.0.HitAt? <==> Chance(Next(r), 5).0 && AnyNear(b, y, x, Adj8, Mutable)) &&
        (o.b != b <==> m.0.HitAt? && m.1 in reg) &&
        (m.0.HitAt? && m.1 in reg ==>
          InB(b, m.0.i, m.0.j) && o.b[m.0.i][m.0.j] == Born(reg[m.1], TagsOf(Look(b, m.0.i, m.0.j)), true))
  {
    if !Chance(r, 1).0 {
      Scan8(b, y, x, Mutable);
      var m := Mutation(b, y, x, Next(r));
      var o := Interact(reg, b, y, x, r);
      if m.0.HitAt? && m.1 in reg {
        InScan8(b, y, x, Mutable, (m.0.i, m.0.j));
        assert o.b[m.0.i][m.0.j].st.processed && !b[m.0.i][m.0.j].st.processed;
      }
    }
  }
}
