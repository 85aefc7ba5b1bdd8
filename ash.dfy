// Ash (elements/ash.py): a powder that, touching unprocessed water, may turn
// into mud and soak the water up.

module AshRule {
  import opened Kinds
  import opened Oracle
  import opened Boards
  import opened Grids
  import opened Cells

  /** The chance each water neighbour gets. When 'R' is not registered, a
      successful roll makes nothing and the loop goes on to the next
      neighbour, which is the same as every roll failing: the draws are still
      taken. */
  function Odds(reg: Registry): nat
  {
    if 'R' in reg then 600 else 0
  }

  /** `Ash.run_interactions`: each unprocessed orthogonal water in turn gets a
      60% roll; on the first success the ash's cell becomes mud (key 'R')
      carrying the ash's tags, the water's cell is emptied and the ash is
      processed. Otherwise the ash is left to fall. */
  function Interact(reg: Registry, b: Board, y: int, x: int, r: Rng): (o: Out)
    requires InB(b, y, x) && !b[y][x].Empty?
    ensures SameShape(b, o.b) && (!o.done ==> o.b == b)
  {
    var (h, r1) := FirstRoll(b, y, x, RLDU, Wet, Odds(reg), r);
    if h.Miss? then Out(b, false, r1)
    else Out(Set(Put(b, y, x, Fresh(reg, 'R', b[y][x].st.tags, false)), h.i, h.j, Empty), true, r1)
  }

  method InteractM(g: Grid, p: Particle, reg: Registry, rng: Rng, ghost b: Board, ghost S: set<Particle>)
    returns (rng': Rng)
    requires g.Hosts(b, S, p) && !p.processed
    modifies g, g.cells, p
    ensures var o := Interact(reg, b, old(p.y), old(p.x), rng);
      g.Shows(o.b, S) && rng' == o.r && (p.processed <==> o.done) && (!o.done ==> Kept(p))
    ensures g.Grew()
  {
    var y, x, tags := p.y, p.x, p.tags;
    var h;
    h, rng' := FirstRollM(g, y, x, RLDU, Wet, Odds(reg), rng, b, S);
    if h.HitAt? {
      ghost var b1 := Put(b, y, x, Fresh(reg, 'R', tags, false));
      ReplaceM(g, p, reg, 'R', tags, false, b, S);
      g.ClearCell(h.i, h.j, b1, S);
    }
  }

  /** Mud forms only with 'R' registered and an unprocessed orthogonal water
      beside the ash; then exactly the ash's cell and that water's cell
      change: the first becomes unprocessed mud with the ash's tags, the
      second becomes empty. Without water there is no draw at all. */
  lemma Muddies(reg: Registry, b: Board, y: int, x: int, r: Rng)
    requires InB(b, y, x) && !b[y][x].Empty?
    ensures var o := Interact(reg, b, y, x, r);
      var h := FirstRoll(b, y, x, RLDU, Wet, Odds(reg), r).0;
      (o.done ==> 'R' in reg && AnyNear(b, y, x, Adj4, Wet) && h.HitAt? &&
                  InB(b, h.i, h.j) && Adj4(h.i - y, h.j - x) && Wet(Look(b, h.i, h.j)) &&
                  o.b[y][x] == Born(reg['R'], b[y][x].st.tags, false) && o.b[h.i][h.j] == Empty &&
                  Local(b, o.b, y, x, (h.i, h.j))) &&
      (!AnyNear(b, y, x, Adj4, Wet) ==> !o.done && o.r == r)
  {
    Scan4(b, y, x, Wet);
    var h := FirstRoll(b, y, x, RLDU, Wet, Odds(reg), r).0;
    if h.HitAt? {
      InScan4(b, y, x, Wet, (h.i, h.j));
      PutTwo(b, y, x, Fresh(reg, 'R', b[y][x].st.tags, false), (h.i, h.j), Empty);
      if Odds(reg) == 0 {
        NeverWith0(b, y, x, RLDU, Wet, r);
      }
    } else if !AnyNear(b, y, x, Adj4, Wet) {
      FirstRollNone(b, y, x, RLDU, Wet, Odds(reg), r);
    }
  }

  /** With 'R' registered, the unprocessed water cells beside the ash, in
      right, left, down, up order, each get their own 60% draw: the ash
      turns to mud exactly when one of those draws succeeds, and it soaks up
      the water whose draw was the first success. */
  lemma MuddiesWhen(reg: Registry, b: Board, y: int, x: int, r: Rng)
    requires InB(b, y, x) && !b[y][x].Empty? && 'R' in reg
    ensures var cs := Scan(b, y, x, RLDU, Wet);
      var o := Interact(reg, b, y, x, r);
      (o.done <==> exists k :: 0 <= k < |cs| && Wins(r, k, 600)) &&
      forall k :: 0 <= k < |cs| && Wins(r, k, 600) && (forall m :: 0 <= m < k ==> !Wins(r, m, 600)) ==>
        InB(b, cs[k].0, cs[k].1) && o.b[cs[k].0][cs[k].1] == Empty &&
        o.b[y][x] == Born(reg['R'], b[y][x].st.tags, false)
  {
    FirstRollFirst(b, y, x, RLDU, Wet, 600, r);
    MudOnHit(reg, b, y, x, r);
  }

  /** With 'R' registered, the ash turns to mud exactly when the roll hits,
      and then the hit water's cell is emptied. */
  lemma MudOnHit(reg: Registry, b: Board, y: int, x: int, r: Rng)
    requires InB(b, y, x) && !b[y][x].Empty? && 'R' in reg
    ensures var o := Interact(reg, b, y, x, r);
      var h := FirstRoll(b, y, x, RLDU, Wet, 600, r).0;
      (o.done <==> h.HitAt?) &&
      (h.HitAt? ==> InB(b, h.i, h.j) && o.b[h.i][h.j] == Empty &&
                    o.b[y][x] == Born(reg['R'], b[y][x].st.tags, false))
  {
    assert Odds(reg) == 600;
    var h := FirstRoll(b, y, x, RLDU, Wet, 600, r).0;
    if h.HitAt? {
      InScan4(b, y, x, Wet, (h.i, h.j));
      PutTwo(b, y, x, Fresh(reg, 'R', b[y][x].st.tags, false), (h.i, h.j), Empty);
    }
  }

  /** Rolls at zero chance never succeed. */
  lemma {:induction false} NeverWith0(b: Board, y: int, x: int, offs: seq<(int, int)>, ok: Seen -> bool, r: Rng)
    ensures FirstRoll(b, y, x, offs, ok, 0, r).0.Miss?
    decreases |offs|
  {
    if offs != [] {
      NeverWith0(b, y, x, offs[1..], ok, r);
      NeverWith0(b, y, x, offs[1..], ok, Next(r));
    }
  }
}
