// Lava (elements/lava.py): a liquid heat source that solidifies into stone
// against water or ice and may set flammable neighbours alight.

module LavaRule {
  import opened Kinds
  import opened Oracle
  import opened Boards
  import opened Grids
  import opened Cells

  /** An unprocessed water 'W' or ice 'C', which turns lava to stone. */
  predicate Quencher(t: Seen)
  {
    Unprocessed(t) && (Key(t.k) == 'W' || Key(t.k) == 'C')
  }

  /** An unprocessed flammable element that is not a heat source. */
  predicate Tinder(t: Seen)
  {
    Unprocessed(t) && IsFlammable(t.k) && !t.st.isHeat
  }

  /** The outcome of the neighbour loop: nothing happened, or the loop broke
      at check n meeting water 'W' or ice 'C', or igniting ('F') it. */
  datatype Probe = Calm | Meets(n: nat, key: char)

  /** The neighbour checked n-th. */
  function Cell(y: int, x: int, n: nat): (c: (int, int))
    requires n < |RLDU|
    ensures Adj4(c.0 - y, c.1 - x)
  {
    (y + RLDU[n].0, x + RLDU[n].1)
  }

  /** The loop over the checks from n on: water or ice stops it at once; a
      tinder neighbour gets a 30% roll and stops it on success. */
  function Scout(b: Board, y: int, x: int, n: nat, r: Rng): (res: (Probe, Rng))
    requires n <= |RLDU|
    decreases |RLDU| - n
  {
    if n == |RLDU| then (Calm, r)
    else
      var t := Look(b, Cell(y, x, n).0, Cell(y, x, n).1);
      if Quencher(t) then (Meets(n, Key(t.k)), r)
      else if Tinder(t) then
        var (lit, r1) := Chance(r, 300);
        if lit then (Meets(n, 'F'), r1) else Scout(b, y, x, n + 1, r1)
      else Scout(b, y, x, n + 1, r)
  }

  /** `Lava.run_interactions`: water makes the lava's cell unprocessed stone
      'O' and the water processed steam 'G'; ice makes the lava stone and the
      ice unprocessed water 'W'; both finish the lava. Ignition makes the
      neighbour processed fire 'F' and leaves the lava to flow. */
  function Interact(reg: Registry, b: Board, y: int, x: int, r: Rng): (o: Out)
    requires InB(b, y, x) && !b[y][x].Empty?
    ensures SameShape(b, o.b)
  {
    var (res, r1) := Scout(b, y, x, 0, r);
    ScoutIn(b, y, x, 0, r);
    if res.Calm? then Out(b, false, r1)
    else
      var (i, j) := Cell(y, x, res.n);
      var stone := Fresh(reg, 'O', [], false);
      if res.key == 'W' then Out(Set(Put(b, y, x, stone), i, j, Fresh(reg, 'G', [], true)), true, r1)
      else if res.key == 'C' then Out(Set(Put(b, y, x, stone), i, j, Fresh(reg, 'W', [], false)), true, r1)
      else Out(Set(b, i, j, Fresh(reg, 'F', [], true)), false, r1)
  }

  /** What the loop meets lies on the board. */
  lemma {:induction false} ScoutIn(b: Board, y: int, x: int, n: nat, r: Rng)
    requires n <= |RLDU|
    ensures var res := Scout(b, y, x, n, r).0;
      res.Meets? ==> n <= res.n < |RLDU| && InB(b, Cell(y, x, res.n).0, Cell(y, x, res.n).1)
    decreases |RLDU| - n
  {
    if n < |RLDU| {
      ScoutIn(b, y, x, n + 1, r);
      ScoutIn(b, y, x, n + 1, Chance(r, 300).1);
    }
  }

  /** The loop stops at the first water or ice in check order, or at a
      tinder neighbour whose roll succeeded; every check before the one it
      stops at is neither water nor ice. */
  lemma {:induction false} ScoutFirst(b: Board, y: int, x: int, n: nat, r: Rng)
    requires n <= |RLDU|
    ensures var res := Scout(b, y, x, n, r).0;
      (res.Meets? ==>
         n <= res.n < |RLDU| &&
         var t := Look(b, Cell(y, x, res.n).0, Cell(y, x, res.n).1);
         (res.key == 'W' || res.key == 'C' ==> Quencher(t) && Key(t.k) == res.key) &&
         (res.key != 'W' && res.key != 'C' ==> res.key == 'F' && Tinder(t) && !Quencher(t)) &&
         forall m :: n <= m < res.n ==> !Quencher(Look(b, Cell(y, x, m).0, Cell(y, x, m).1))) &&
      (res.Calm? ==> forall m :: n <= m < |RLDU| ==> !Quencher(Look(b, Cell(y, x, m).0, Cell(y, x, m).1)))
    decreases |RLDU| - n
  {
    if n < |RLDU| {
      var t := Look(b, Cell(y, x, n).0, Cell(y, x, n).1);
      if !Quencher(t) {
        var r1 := if Tinder(t) then Chance(r, 300).1 else r;
        if !(Tinder(t) && Chance(r, 300).0) {
          assert Scout(b, y, x, n, r) == Scout(b, y, x, n + 1, r1);
          ScoutFirst(b, y, x, n + 1, r1);
        }
      }
    }
  }

  /** The lava's neighbour loop, over the grid. */
  method ScoutM(g: Grid, y: int, x: int, rng: Rng, ghost b: Board, ghost S: set<Particle>)
    returns (res: Probe, rng': Rng)
    requires g.Shows(b, S)
    ensures (res, rng') == Scout(b, y, x, 0, rng)
  {
    var n := 0;
    rng' := rng;
    while n < |RLDU|
      invariant g.Shows(b, S)
      invariant 0 <= n <= |RLDU|
      invariant Scout(b, y, x, 0, rng) == Scout(b, y, x, n, rng')
      decreases |RLDU| - n
    {
      var c := Cell(y, x, n);
      var t := g.Peek(c.0, c.1, b, S);
      if Quencher(t) {
        return Meets(n, Key(t.k)), rng';
      }
      if Tinder(t) {
        var lit;
        lit, rng' := Chance(rng', 300).0, Chance(rng', 300).1;
        if lit {
          return Meets(n, 'F'), rng';
        }
      }
      n := n + 1;
    }
    res := Calm;
  }

  method InteractM(g: Grid, p: Particle, reg: Registry, rng: Rng, ghost b: Board, ghost S: set<Particle>)
    returns (rng': Rng)
    requires g.Hosts(b, S, p) && !p.processed
    modifies g, g.cells, p
    ensures var o := Interact(reg, b, old(p.y), old(p.x), rng);
      g.Shows(o.b, S) && rng' == o.r && (p.processed <==> o.done) && (!o.done ==> Kept(p))
    ensures g.Grew()
  {
    var y, x := p.y, p.x;
    var res;
    res, rng' := ScoutM(g, y, x, rng, b, S);
    ScoutIn(b, y, x, 0, rng);
    if res.Calm? {
      return;
    }
    var c := Cell(y, x, res.n);
    assert c != (y, x);
    if res.key == 'W' || res.key == 'C' {
      ghost var b1 := Put(b, y, x, Fresh(reg, 'O', [], false));
      ReplaceM(g, p, reg, 'O', [], false, b, S);
      if res.key == 'W' {
        Overwrite(g, reg, 'G', c.0, c.1, [], true, b1, S);
      } else {
        Overwrite(g, reg, 'W', c.0, c.1, [], false, b1, S);
      }
    } else {
      LandM(g, p, reg, HitAt(c.0, c.1), 'F', [], true, b, S);
    }
  }

  /** At most one reaction, with the first neighbour in right, left, down,
      up order that triggers one; checks before it are neither unprocessed
      water nor unprocessed ice. Water makes stone and processed steam, ice
      makes stone and unprocessed water, and both finish the lava; an
      ignition makes processed fire and leaves the lava's cell as it was and
      unfinished. Nothing else changes, and with no reaction nothing
      changes at all. */
  lemma Reacts(reg: Registry, b: Board, y: int, x: int, r: Rng)
    requires InB(b, y, x) && !b[y][x].Empty?
    ensures var o := Interact(reg, b, y, x, r);
      var res := Scout(b, y, x, 0, r).0;
      (res.Calm? ==> !o.done && o.b == b &&
                     forall m :: 0 <= m < |RLDU| ==> !Quencher(Look(b, Cell(y, x, m).0, Cell(y, x, m).1))) &&
      (res.Meets? ==>
         res.n < |RLDU| &&
         var (i, j) := Cell(y, x, res.n);
         var t := Look(b, i, j);
         InB(b, i, j) && Adj4(i - y, j - x) && Local(b, o.b, y, x, (i, j)) &&
         (forall m :: 0 <= m < res.n ==> !Quencher(Look(b, Cell(y, x, m).0, Cell(y, x, m).1))) &&
         (o.done <==> res.key != 'F') &&
         (res.key == 'W' ==> KeyIs(t, 'W') && Unprocessed(t) &&
                             o.b[y][x] == Fresh(reg, 'O', [], false) && o.b[i][j] == Fresh(reg, 'G', [], true)) &&
         (res.key == 'C' ==> KeyIs(t, 'C') && Unprocessed(t) &&
                             o.b[y][x] == Fresh(reg, 'O', [], false) && o.b[i][j] == Fresh(reg, 'W', [], false)) &&
         (res.key == 'F' ==> Tinder(t) && !Quencher(t) &&
                             o.b[y][x] == b[y][x] && o.b[i][j] == Fresh(reg, 'F', [], true)))
  {
    var res := Scout(b, y, x, 0, r).0;
    ScoutIn(b, y, x, 0, r);
    ScoutFirst(b, y, x, 0, r);
    if res.Meets? {
      Near4(RLDU[res.n]);
      var c := Cell(y, x, res.n);
      if res.key == 'W' {
        PutTwo(b, y, x, Fresh(reg, 'O', [], false), c, Fresh(reg, 'G', [], true));
      } else if res.key == 'C' {
        PutTwo(b, y, x, Fresh(reg, 'O', [], false), c, Fresh(reg, 'W', [], false));
      }
    }
  }
}
