// Singularity (elements/singularity.py): a static solid that swallows the
// movable elements around it and pulls those farther out one step closer.

module SingularityRule {
  import opened Kinds
  import opened Oracle
  import opened Boards
  import opened Grids
  import opened Cells

  /** `pull_radius` */
  const Reach := 7

  /** The 3 by 3 square around the singularity, row by row, without its
      centre. */
  const Ring: seq<(int, int)> := [(-1, -1), (-1, 0), (-1, 1), (0, -1), (0, 1), (1, -1), (1, 0), (1, 1)]

  /** What the singularity swallows or pulls: unprocessed, not static, and
      not a singularity '@'. */
  predicate Prey(t: Seen)
  {
    Unprocessed(t) && !t.st.isStatic && Key(t.k) != '@'
  }

  function Max(a: int, b: int): int { if a < b then b else a }
  function Min(a: int, b: int): int { if a < b then a else b }

  /** The width of the board's rows. */
  function Width(b: Board): int { if |b| == 0 then 0 else |b[0]| }

  /** One step from a toward c. */
  function Toward(a: int, c: int): int
  {
    if a < c then 1 else if a > c then -1 else 0
  }

  /** Cell (i, j) lies in the square the consumption phase covers. */
  predicate Inner(y: int, x: int, i: int, j: int)
  {
    -1 <= i - y <= 1 && -1 <= j - x <= 1
  }

  // --- Consumption ---

  /** The consumption loop over the offsets offs (the rest of `Ring`): each
      prey cell, read as the loop finds it, gets its own 80% roll and is
      emptied on success. `any` says whether something was swallowed so
      far. */
  function Consume(b: Board, y: int, x: int, offs: seq<(int, int)>, any: bool, r: Rng): (res: (Board, bool, Rng))
    ensures SameShape(b, res.0)
    ensures InB(b, y, x) && (0, 0) !in offs ==> res.0[y][x] == b[y][x]
    decreases |offs|
  {
    if offs == [] then (b, any, r)
    else
      var (i, j) := (y + offs[0].0, x + offs[0].1);
      if Prey(Look(b, i, j)) then
        var (hit, r1) := Chance(r, 800);
        Consume(if hit then Set(b, i, j, Empty) else b, y, x, offs[1..], any || hit, r1)
      else Consume(b, y, x, offs[1..], any, r)
  }

  // --- Pulling ---

  /** The pull loop's body at cell (i, j): a prey outside the inner square
      and within the pull radius gets a 40% roll; on success it moves one
      step on each axis toward the singularity when that cell is inside
      and holds nothing or a singularity, overwriting it. The roll is taken
      even when the step is blocked. */
  function Tug(b: Board, y: int, x: int, i: int, j: int, r: Rng): (res: (Board, Rng))
    ensures SameShape(b, res.0)
    ensures InB(b, y, x) ==> res.0[y][x] == b[y][x]
  {
    if Inner(y, x, i, j) || (x - j) * (x - j) + (y - i) * (y - i) > Reach * Reach then (b, r)
    else if !Prey(Look(b, i, j)) then (b, r)
    else
      var (go, r1) := Chance(r, 400);
      var (ti, tj) := (i + Toward(i, y), j + Toward(j, x));
      var u := Look(b, ti, tj);
      if go && InB(b, ti, tj) && (u.Vacant? || KeyIs(u, '@')) then (MoveB(b, i, j, ti, tj), r1)
      else (b, r1)
  }

  /** The inner loop: row i from column j up to c1. */
  function Row(b: Board, y: int, x: int, i: int, j: int, c1: int, r: Rng): (res: (Board, Rng))
    ensures SameShape(b, res.0)
    ensures InB(b, y, x) ==> res.0[y][x] == b[y][x]
    decreases c1 - j
  {
    if j >= c1 then (b, r)
    else
      var (b1, r1) := Tug(b, y, x, i, j, r);
      Row(b1, y, x, i, j + 1, c1, r1)
  }

  /** The outer loop: rows i up to r1, each from column c0 up to c1. */
  function Rows(b: Board, y: int, x: int, i: int, r1: int, c0: int, c1: int, r: Rng): (res: (Board, Rng))
    ensures SameShape(b, res.0)
    ensures InB(b, y, x) ==> res.0[y][x] == b[y][x]
    decreases r1 - i
  {
    if i >= r1 then (b, r)
    else
      var (b1, rr) := Row(b, y, x, i, c0, c1, r);
      Rows(b1, y, x, i + 1, r1, c0, c1, rr)
  }

  /** The pull phase over the window of half-width `Reach`, clipped to the
      grid. */
  function Pull(b: Board, y: int, x: int, r: Rng): (res: (Board, Rng))
    ensures SameShape(b, res.0)
    ensures InB(b, y, x) ==> res.0[y][x] == b[y][x]
  {
    Rows(b, y, x, Max(0, y - Reach), Min(|b|, y + Reach + 1), Max(0, x - Reach), Min(Width(b), x + Reach + 1), r)
  }

  /** `Singularity.update`: the consumption phase, then the pull phase only
      if nothing was swallowed; the singularity stays where it is and is
      processed. */
  function Update(b: Board, y: int, x: int, r: Rng): (o: Out)
    requires InB(b, y, x) && !b[y][x].Empty?
    ensures o.done && SameShape(b, o.b) && Marked(b, o.b, y, x)
  {
    assert (0, 0) !in Ring;
    var (b1, any, r1) := Consume(b, y, x, Ring, false, r);
    var (b2, r2) := if any then (b1, r1) else Pull(b1, y, x, r1);
    Out(Proc(b2, y, x), true, r2)
  }

  // --- On the grid ---

  /** One pass of the consumption loop, at the first of the offsets offs
      left. */
  method BiteM(g: Grid, p: Particle, y: int, x: int, offs: seq<(int, int)>, any: bool, rng: Rng,
               ghost goal: (Board, bool, Rng), ghost b: Board, ghost S: set<Particle>)
    returns (any': bool, rng': Rng, ghost b': Board)
    requires g.Hosts(b, S, p) && p.y == y && p.x == x && offs != [] && offs[0] != (0, 0)
    requires goal == Consume(b, y, x, offs, any, rng)
    modifies g.cells
    ensures goal == Consume(b', y, x, offs[1..], any', rng')
    ensures g.Hosts(b', S, p)
  {
    ConsumeStep(b, y, x, offs, any, rng);
    var (i, j) := (y + offs[0].0, x + offs[0].1);
    any', rng', b' := any, rng, b;
    var t := g.Peek(i, j, b, S);
    if Prey(t) {
      var hit;
      hit, rng' := Chance(rng, 800).0, Chance(rng, 800).1;
      if hit {
        g.ClearCell(i, j, b, S);
        b' := Set(b, i, j, Empty);
        g.HostsAt(b', S, p);
        any' := true;
      }
    }
  }

  method ConsumeM(g: Grid, p: Particle, rng: Rng, ghost b: Board, ghost S: set<Particle>)
    returns (any: bool, rng': Rng, ghost b': Board)
    requires g.Hosts(b, S, p)
    modifies g.cells
    ensures (b', any, rng') == Consume(b, old(p.y), old(p.x), Ring, false, rng)
    ensures g.Hosts(b', S, p)
  {
    var y, x := p.y, p.x;
    var n := 0;
    any, rng', b' := false, rng, b;
    ghost var goal := Consume(b, y, x, Ring, false, rng);
    assert Ring[0..] == Ring;
    while n < |Ring|
      invariant 0 <= n <= |Ring|
      invariant g.Hosts(b', S, p) && p.y == y && p.x == x
      invariant goal == Consume(b', y, x, Ring[n..], any, rng')
    {
      SliceStep(Ring, n);
      RingInSquare();
      assert Ring[n] in Ring;
      any, rng', b' := BiteM(g, p, y, x, Ring[n..], any, rng', goal, b', S);
      n := n + 1;
    }
    assert Ring[n..] == [];
  }

  /** Moves particle q, found at (i, j), to (ti, tj), over whatever is
      there. */
  method Drag(g: Grid, p: Particle, i: int, j: int, ti: int, tj: int, ghost b: Board, ghost S: set<Particle>)
    requires g.Hosts(b, S, p) && g.IsValid(i, j) && (i, j) != (p.y, p.x) && (ti, tj) != (p.y, p.x)
    requires InB(b, i, j) && !b[i][j].Empty?
    modifies g.cells, g.Repr
    ensures g.Hosts(MoveB(b, i, j, ti, tj), S, p) && p.y == old(p.y) && p.x == old(p.x) && g.Grew()
  {
    g.MatchAt(b, S, i, j);
    var q := g.cells[i, j];
    assert q != p;
    g.Relocate(q, ti, tj, b, S);
    g.HostsAt(MoveB(b, i, j, ti, tj), S, p);
  }

  method TugM(g: Grid, p: Particle, i: int, j: int, rng: Rng, ghost b: Board, ghost S: set<Particle>)
    returns (rng': Rng, ghost b': Board)
    requires g.Hosts(b, S, p)
    modifies g.cells, g.Repr
    ensures (b', rng') == Tug(b, old(p.y), old(p.x), i, j, rng)
    ensures g.Hosts(b', S, p) && p.y == old(p.y) && p.x == old(p.x) && g.Grew()
  {
    var y, x := p.y, p.x;
    rng', b' := rng, b;
    if Inner(y, x, i, j) || (x - j) * (x - j) + (y - i) * (y - i) > Reach * Reach {
      return;
    }
    var t := g.Peek(i, j, b, S);
    if !Prey(t) {
      return;
    }
    var go;
    go, rng' := Chance(rng, 400).0, Chance(rng, 400).1;
    var (ti, tj) := (i + Toward(i, y), j + Toward(j, x));
    var u := g.Peek(ti, tj, b, S);
    if go && g.IsValid(ti, tj) && (u.Vacant? || KeyIs(u, '@')) {
      Drag(g, p, i, j, ti, tj, b, S);
      b' := MoveB(b, i, j, ti, tj);
    }
  }

  /** One step of the row: a tug at column j, then the rest of the row. */
  lemma RowNext(b: Board, y: int, x: int, i: int, j: int, c1: int, r: Rng, b1: Board, r1: Rng)
    requires j < c1 && (b1, r1) == Tug(b, y, x, i, j, r)
    ensures Row(b, y, x, i, j, c1, r) == Row(b1, y, x, i, j + 1, c1, r1)
  {
  }

  /** The inner pull loop over row i, from column j up to c1. */
  method RowM(g: Grid, p: Particle, i: int, j: int, c1: int, rng: Rng, ghost b: Board, ghost S: set<Particle>)
    returns (rng': Rng, ghost b': Board)
    requires g.Hosts(b, S, p)
    modifies g.cells, g.Repr
    ensures (b', rng') == Row(b, old(p.y), old(p.x), i, j, c1, rng)
    ensures g.Hosts(b', S, p) && p.y == old(p.y) && p.x == old(p.x) && g.Grew()
  {
    var y, x := p.y, p.x;
    var k := j;
    rng', b' := rng, b;
    ghost var goal := Row(b, y, x, i, j, c1, rng);
    while k < c1
      invariant g.Hosts(b', S, p) && p.y == y && p.x == x
      invariant goal == Row(b', y, x, i, k, c1, rng')
      invariant g.Grew()
      decreases c1 - k
    {
      ghost var b0, r0 := b', rng';
      rng', b' := TugM(g, p, i, k, rng', b', S);
      RowNext(b0, y, x, i, k, c1, r0, b', rng');
      k := k + 1;
    }
  }

  method PullM(g: Grid, p: Particle, rng: Rng, ghost b: Board, ghost S: set<Particle>) returns (rng': Rng)
    requires g.Hosts(b, S, p)
    modifies g.cells, g.Repr
    ensures var (b', r') := Pull(b, old(p.y), old(p.x), rng);
      g.Hosts(b', S, p) && rng' == r' && p.y == old(p.y) && p.x == old(p.x)
    ensures g.Grew()
  {
    var y, x := p.y, p.x;
    var r0, r1 := Max(0, y - Reach), Min(g.height, y + Reach + 1);
    var c0, c1 := Max(0, x - Reach), Min(g.width, x + Reach + 1);
    assert Width(b) == g.width;
    ghost var cur := b;
    rng' := rng;
    var i := r0;
    while i < r1
      invariant g.Hosts(cur, S, p) && p.y == y && p.x == x
      invariant Pull(b, y, x, rng) == Rows(cur, y, x, i, r1, c0, c1, rng')
      invariant g.Grew()
      decreases r1 - i
    {
      rng', cur := RowM(g, p, i, c0, c1, rng', cur, S);
      i := i + 1;
    }
  }

  method UpdateM(g: Grid, p: Particle, rng: Rng, ghost b: Board, ghost S: set<Particle>) returns (rng': Rng)
    requires g.Hosts(b, S, p)
    modifies g.cells, g.Repr
    ensures var o := Update(b, old(p.y), old(p.x), rng); g.Shows(o.b, S) && rng' == o.r
    ensures p.processed && g.Grew()
  {
    var any;
    ghost var b1;
    any, rng', b1 := ConsumeM(g, p, rng, b, S);
    ghost var b2 := b1;
    if !any {
      b2 := Pull(b1, p.y, p.x, rng').0;
      rng' := PullM(g, p, rng', b1, S);
    }
    MarkSelf(g, p, b2, S);
  }

  // --- Properties ---

  /** What the consumption phase from position n on changes: only cells of
      the 3 by 3 square other than the singularity's own, each of which held
      prey and is now empty. */
  ghost predicate SwallowedOnly(b: Board, b': Board, y: int, x: int)
    requires SameShape(b, b')
  {
    forall k, l :: InB(b, k, l) && b'[k][l] != b[k][l] ==>
      Inner(y, x, k, l) && (k, l) != (y, x) && Prey(Look(b, k, l)) && b'[k][l] == Empty
  }

  /** Every offset lies in the 3 by 3 square and is not its centre. */
  predicate InSquare(offs: seq<(int, int)>)
  {
    forall d :: d in offs ==> -1 <= d.0 <= 1 && -1 <= d.1 <= 1 && d != (0, 0)
  }

  /** No two positions of offs are the same offset. */
  predicate Distinct(offs: seq<(int, int)>)
  {
    forall p, q :: 0 <= p < q < |offs| ==> offs[p] != offs[q]
  }

  /** `Ring` lies in the 3 by 3 square, without its centre. */
  lemma RingInSquare()
    ensures InSquare(Ring)
  {
  }

  /** `Ring` holds each offset once. */
  lemma RingDistinct()
    ensures Distinct(Ring)
  {
  }

  /** Slicing a sequence at n and dropping the first element is slicing
      at n + 1. */
  lemma SliceStep(s: seq<(int, int)>, n: nat)
    requires n < |s|
    ensures s[n..] != [] && s[n..][0] == s[n] && s[n..][1..] == s[n + 1..]
  {
  }

  /** Dropping the first offset keeps both shapes. */
  lemma ShapeTail(offs: seq<(int, int)>)
    requires offs != []
    ensures InSquare(offs) ==> InSquare(offs[1..])
    ensures Distinct(offs) ==> Distinct(offs[1..]) && offs[0] !in offs[1..]
  {
    assert forall d :: d in offs[1..] ==> d in offs;
    if Distinct(offs) {
      forall k | 0 <= k < |offs[1..]|
        ensures offs[1..][k] != offs[0]
      {
        assert offs[1..][k] == offs[k + 1];
      }
    }
  }

  /** One step of the consumption loop: a prey cell takes a draw and is
      emptied when it succeeds; any other cell is passed over. */
  lemma ConsumeStep(b: Board, y: int, x: int, offs: seq<(int, int)>, any: bool, r: Rng)
    requires offs != []
    ensures var (i, j) := (y + offs[0].0, x + offs[0].1);
      var prey := Prey(Look(b, i, j));
      var hit := prey && Chance(r, 800).0;
      Consume(b, y, x, offs, any, r) ==
      Consume(if hit then Set(b, i, j, Empty) else b, y, x, offs[1..], any || hit, if prey then Next(r) else r)
  {
  }

  /** One step of the consumption loop keeps `SwallowedOnly`. */
  lemma SwallowStep(b: Board, b1: Board, res: Board, y: int, x: int, i: int, j: int)
    requires SameShape(b, b1) && SameShape(b1, res)
    requires b1 == b || (b1 == Set(b, i, j, Empty) && Inner(y, x, i, j) && (i, j) != (y, x) && Prey(Look(b, i, j)))
    requires SwallowedOnly(b1, res, y, x)
    ensures SwallowedOnly(b, res, y, x)
  {
    forall k, l | InB(b, k, l) && res[k][l] != b[k][l]
      ensures Inner(y, x, k, l) && (k, l) != (y, x) && Prey(Look(b, k, l)) && res[k][l] == Empty
    {
      if b1 != b && (k, l) == (i, j) {
        assert b1[k][l] == Empty;
      } else {
        assert b1[k][l] == b[k][l];
      }
    }
  }

  lemma {:induction false} SwallowsOnly(b: Board, y: int, x: int, offs: seq<(int, int)>, any: bool, r: Rng)
    requires InSquare(offs)
    ensures SwallowedOnly(b, Consume(b, y, x, offs, any, r).0, y, x)
    decreases |offs|
  {
    if offs != [] {
      var (i, j) := (y + offs[0].0, x + offs[0].1);
      assert offs[0] in offs;
      ShapeTail(offs);
      var prey := Prey(Look(b, i, j));
      var hit := prey && Chance(r, 800).0;
      var b1 := if hit then Set(b, i, j, Empty) else b;
      var r1 := if prey then Next(r) else r;
      ConsumeStep(b, y, x, offs, any, r);
      SwallowsOnly(b1, y, x, offs[1..], any || hit, r1);
      SwallowStep(b, b1, Consume(b1, y, x, offs[1..], any || hit, r1).0, y, x, i, j);
    }
  }

  /** Once prey at (i, j) is emptied, no later step refills it. */
  lemma Swallowed(b: Board, res: Board, y: int, x: int, i: int, j: int)
    requires Prey(Look(b, i, j)) && SameShape(b, res)
    requires SwallowedOnly(Set(b, i, j, Empty), res, y, x)
    ensures res != b
  {
    var b1 := Set(b, i, j, Empty);
    assert b1[i][j] == Empty;
    assert res[i][j] == Empty != b[i][j];
  }

  /** The consumption phase reports a swallow exactly when it emptied some
      cell (or one was already reported). */
  lemma {:induction false} SwallowsIff(b: Board, y: int, x: int, offs: seq<(int, int)>, any: bool, r: Rng)
    requires InSquare(offs)
    ensures var res := Consume(b, y, x, offs, any, r);
      res.1 <==> any || res.0 != b
    decreases |offs|
  {
    if offs != [] {
      var (i, j) := (y + offs[0].0, x + offs[0].1);
      ShapeTail(offs);
      ConsumeStep(b, y, x, offs, any, r);
      if Prey(Look(b, i, j)) {
        var hit := Chance(r, 800).0;
        var r1 := Next(r);
        var b1 := if hit then Set(b, i, j, Empty) else b;
        SwallowsIff(b1, y, x, offs[1..], any || hit, r1);
        var res := Consume(b1, y, x, offs[1..], any || hit, r1);
        if hit {
          SwallowsOnly(b1, y, x, offs[1..], true, r1);
          Swallowed(b, res.0, y, x, i, j);
        }
      } else {
        SwallowsIff(b, y, x, offs[1..], any, r);
      }
    }
  }

  /** Within the pull radius of the singularity. */
  predicate Near(y: int, x: int, k: int, l: int)
  {
    (k - y) * (k - y) + (l - x) * (l - x) <= Reach * Reach
  }

  /** A prey at (i, j), outside the inner square and within the pull radius,
      takes one draw; on success, when the cell one step on each axis toward
      the singularity is inside and holds nothing or a singularity, the prey
      moves there, strictly closer, still within the radius, and processed,
      so that it is not pulled again in the same update. In every other case
      the board is unchanged. */
  lemma TugStep(b: Board, y: int, x: int, i: int, j: int, r: Rng)
    ensures var (res, r') := Tug(b, y, x, i, j, r);
      var (ti, tj) := (i + Toward(i, y), j + Toward(j, x));
      var eligible := !Inner(y, x, i, j) && Near(y, x, i, j) && Prey(Look(b, i, j));
      var moves := eligible && Chance(r, 400).0 && InB(b, ti, tj) &&
                   (Look(b, ti, tj).Vacant? || KeyIs(Look(b, ti, tj), '@'));
      r' == (if eligible then Next(r) else r) &&
      (!moves ==> res == b) &&
      (moves ==>
         (ti - y) * (ti - y) + (tj - x) * (tj - x) < (i - y) * (i - y) + (j - x) * (j - x) &&
         Near(y, x, ti, tj) && res == MoveB(b, i, j, ti, tj) &&
         res[i][j] == Empty && res[ti][tj] == WithSt(b[i][j], b[i][j].st.(processed := true)))
  {
    assert (x - j) * (x - j) == (j - x) * (j - x) && (y - i) * (y - i) == (i - y) * (i - y);
    if !Inner(y, x, i, j) && (x - j) * (x - j) + (y - i) * (y - i) <= Reach * Reach
       && Prey(Look(b, i, j)) {
      var (ti, tj) := (i + Toward(i, y), j + Toward(j, x));
      AxisStep(i, y);
      AxisStep(j, x);
      assert (ti, tj) != (i, j);
      var u := Look(b, ti, tj);
      if Chance(r, 400).0 && InB(b, ti, tj) && (u.Vacant? || KeyIs(u, '@')) {
        var cleared := Put(b, i, j, Empty);
        assert MoveB(b, i, j, ti, tj) == Put(cleared, ti, tj, WithSt(b[i][j], b[i][j].st.(processed := true)));
      }
    }
  }

  /** One step toward c never moves away from c on that axis, and moves
      strictly closer unless already there. */
  lemma AxisStep(a: int, c: int)
    ensures var t := a + Toward(a, c);
      (t - c) * (t - c) <= (a - c) * (a - c) &&
      (a != c ==> (t - c) * (t - c) < (a - c) * (a - c))
  {
    var d := a - c;
    if a < c {
      assert (d + 1) * (d + 1) == d * d + 2 * d + 1;
    } else if a > c {
      assert (d - 1) * (d - 1) == d * d - 2 * d + 1;
    }
  }

  /** A pull changes only cells within the pull radius. */
  lemma TugWithin(b: Board, y: int, x: int, i: int, j: int, r: Rng)
    ensures var res := Tug(b, y, x, i, j, r).0;
      forall k, l :: InB(b, k, l) && res[k][l] != b[k][l] ==> Near(y, x, k, l)
  {
    TugStep(b, y, x, i, j, r);
  }

  lemma {:induction false} RowWithin(b: Board, y: int, x: int, i: int, j: int, c1: int, r: Rng)
    ensures var res := Row(b, y, x, i, j, c1, r).0;
      forall k, l :: InB(b, k, l) && res[k][l] != b[k][l] ==> Near(y, x, k, l)
    decreases c1 - j
  {
    if j < c1 {
      var (b1, r1) := Tug(b, y, x, i, j, r);
      TugWithin(b, y, x, i, j, r);
      RowWithin(b1, y, x, i, j + 1, c1, r1);
    }
  }

  lemma {:induction false} RowsWithin(b: Board, y: int, x: int, i: int, r1: int, c0: int, c1: int, r: Rng)
    ensures var res := Rows(b, y, x, i, r1, c0, c1, r).0;
      forall k, l :: InB(b, k, l) && res[k][l] != b[k][l] ==> Near(y, x, k, l)
    decreases r1 - i
  {
    if i < r1 {
      var (b1, rr) := Row(b, y, x, i, c0, c1, r);
      RowWithin(b, y, x, i, c0, c1, r);
      RowsWithin(b1, y, x, i + 1, r1, c0, c1, rr);
    }
  }

  /** The singularity stays in its cell, processed. When the consumption
      phase swallows something, nothing is pulled: only prey cells of the 3
      by 3 square change, to empty. Otherwise that square is left alone
      by consumption and every change is the pull phase's, within the pull
      radius. */
  lemma SwallowsOrPulls(b: Board, y: int, x: int, r: Rng)
    requires InB(b, y, x) && !b[y][x].Empty?
    ensures var o := Update(b, y, x, r);
      var c := Consume(b, y, x, Ring, false, r);
      Marked(b, o.b, y, x) &&
      (c.1 ==> c.0 != b && forall k, l :: InB(b, k, l) && (k, l) != (y, x) && o.b[k][l] != b[k][l] ==>
                 Inner(y, x, k, l) && Prey(Look(b, k, l)) && o.b[k][l] == Empty) &&
      (!c.1 ==> c.0 == b && o.b == Proc(Pull(b, y, x, c.2).0, y, x) &&
                forall k, l :: InB(b, k, l) && o.b[k][l] != b[k][l] ==> Near(y, x, k, l))
  {
    if Consume(b, y, x, Ring, false, r).1 {
      Swallowing(b, y, x, r);
    } else {
      Pulling(b, y, x, r);
    }
  }

  /** The swallowing half of `SwallowsOrPulls`. */
  lemma Swallowing(b: Board, y: int, x: int, r: Rng)
    requires InB(b, y, x) && !b[y][x].Empty? && Consume(b, y, x, Ring, false, r).1
    ensures var o := Update(b, y, x, r);
      var c := Consume(b, y, x, Ring, false, r);
      c.0 != b && forall k, l :: InB(b, k, l) && (k, l) != (y, x) && o.b[k][l] != b[k][l] ==>
                 Inner(y, x, k, l) && Prey(Look(b, k, l)) && o.b[k][l] == Empty
  {
    RingInSquare();
    var c := Consume(b, y, x, Ring, false, r);
    SwallowsOnly(b, y, x, Ring, false, r);
    SwallowsIff(b, y, x, Ring, false, r);
    SwallowingUnfold(b, y, x, r);
    ProcOnly(b, c.0, y, x);
  }

  /** When something is swallowed the pull phase is skipped. */
  lemma SwallowingUnfold(b: Board, y: int, x: int, r: Rng)
    requires InB(b, y, x) && !b[y][x].Empty? && Consume(b, y, x, Ring, false, r).1
    ensures Update(b, y, x, r).b == Proc(Consume(b, y, x, Ring, false, r).0, y, x)
  {
  }

  /** Marking the singularity processed keeps `SwallowedOnly` away from
      its own cell. */
  lemma ProcOnly(b: Board, b1: Board, y: int, x: int)
    requires InB(b, y, x) && !b[y][x].Empty? && SameShape(b, b1) && SwallowedOnly(b, b1, y, x)
    ensures forall k, l :: InB(b, k, l) && (k, l) != (y, x) && Proc(b1, y, x)[k][l] != b[k][l] ==>
              Inner(y, x, k, l) && Prey(Look(b, k, l)) && Proc(b1, y, x)[k][l] == Empty
  {
  }

  /** The pulling half of `SwallowsOrPulls`. */
  lemma Pulling(b: Board, y: int, x: int, r: Rng)
    requires InB(b, y, x) && !b[y][x].Empty? && !Consume(b, y, x, Ring, false, r).1
    ensures var o := Update(b, y, x, r);
      var c := Consume(b, y, x, Ring, false, r);
      c.0 == b && o.b == Proc(Pull(b, y, x, c.2).0, y, x) &&
      forall k, l :: InB(b, k, l) && o.b[k][l] != b[k][l] ==> Near(y, x, k, l)
  {
    var c := Consume(b, y, x, Ring, false, r);
    PullingUnfold(b, y, x, r);
    RowsWithin(b, y, x, Max(0, y - Reach), Min(|b|, y + Reach + 1), Max(0, x - Reach),
               Min(Width(b), x + Reach + 1), c.2);
    ProcNear(b, Pull(b, y, x, c.2).0, y, x);
  }

  /** When nothing is swallowed the board is pulled from as it was. */
  lemma PullingUnfold(b: Board, y: int, x: int, r: Rng)
    requires InB(b, y, x) && !b[y][x].Empty? && !Consume(b, y, x, Ring, false, r).1
    ensures var c := Consume(b, y, x, Ring, false, r);
      c.0 == b && Update(b, y, x, r).b == Proc(Pull(b, y, x, c.2).0, y, x)
  {
    RingInSquare();
    SwallowsIff(b, y, x, Ring, false, r);
  }

  /** Marking the singularity keeps every change near it. */
  lemma ProcNear(b: Board, b2: Board, y: int, x: int)
    requires InB(b, y, x) && !b[y][x].Empty? && SameShape(b, b2) && b2[y][x] == b[y][x]
    requires forall k, l :: InB(b, k, l) && b2[k][l] != b[k][l] ==> Near(y, x, k, l)
    ensures forall k, l :: InB(b, k, l) && Proc(b2, y, x)[k][l] != b[k][l] ==> Near(y, x, k, l)
  {
    assert Near(y, x, y, x);
  }

  /** Board b' is b with each cell cs[m] emptied exactly when the m-th
      draw from r succeeds at 80%, and nothing else changed. */
  ghost predicate Emptied(b: Board, b': Board, cs: seq<(int, int)>, r: Rng)
  {
    SameShape(b, b') &&
    (forall m :: 0 <= m < |cs| ==>
       InB(b, cs[m].0, cs[m].1) &&
       b'[cs[m].0][cs[m].1] == (if Wins(r, m, 800) then Empty else b[cs[m].0][cs[m].1])) &&
    (forall k, l :: InB(b, k, l) && (k, l) !in cs ==> b'[k][l] == b[k][l])
  }

  /** Some of the first |cs| draws from r succeeds at 80%. */
  ghost predicate AnyWins(cs: seq<(int, int)>, r: Rng)
  {
    exists m :: 0 <= m < |cs| && Wins(r, m, 800)
  }

  /** Taking the first draw for cell c, then the rest for the cells after
      it. */
  lemma EmptiedCons(b: Board, b1: Board, res: Board, c: (int, int), rest: seq<(int, int)>, r: Rng)
    requires InB(b, c.0, c.1) && c !in rest
    requires b1 == if Wins(r, 0, 800) then Set(b, c.0, c.1, Empty) else b
    requires Emptied(b1, res, rest, Next(r))
    ensures Emptied(b, res, [c] + rest, r)
    ensures AnyWins([c] + rest, r) <==> Wins(r, 0, 800) || AnyWins(rest, Next(r))
  {
    var cs := [c] + rest;
    forall m | 0 <= m < |cs|
      ensures InB(b, cs[m].0, cs[m].1) &&
              res[cs[m].0][cs[m].1] == (if Wins(r, m, 800) then Empty else b[cs[m].0][cs[m].1])
    {
      if m > 0 {
        assert cs[m] == rest[m - 1] && cs[m] != c;
        WinsNext(r, m - 1);
      }
    }
    WinsCons(c, rest, r);
  }

  /** The draws after the first are those of the next generator. */
  lemma WinsNext(r: Rng, k: nat)
    ensures Wins(Next(r), k, 800) == Wins(r, k + 1, 800)
  {
  }

  /** Some draw wins for [c] + rest exactly when the first does or one
      for rest does, from the next generator. */
  lemma WinsCons(c: (int, int), rest: seq<(int, int)>, r: Rng)
    ensures AnyWins([c] + rest, r) <==> Wins(r, 0, 800) || AnyWins(rest, Next(r))
  {
    if AnyWins(rest, Next(r)) {
      var m :| 0 <= m < |rest| && Wins(Next(r), m, 800);
      WinsNext(r, m);
    }
    if AnyWins([c] + rest, r) {
      var m :| 0 <= m < |[c] + rest| && Wins(r, m, 800);
      if m > 0 {
        WinsNext(r, m - 1);
      }
    }
  }

  /** Result res of consuming the cells cs from board b with draws from r:
      the cells are emptied as `Emptied` says, a swallow is reported exactly
      when one of the draws succeeds (or `any`), one draw per cell. */
  ghost predicate ConsumedOn(b: Board, res: (Board, bool, Rng), cs: seq<(int, int)>, any: bool, r: Rng)
  {
    Emptied(b, res.0, cs, r) && (res.1 <==> any || AnyWins(cs, r)) && res.2 == Rng(r.draw, r.pos + |cs|)
  }

  /** What `ConsumeExact` states about the consumption loop over offs. */
  ghost predicate ConsumedAs(b: Board, y: int, x: int, offs: seq<(int, int)>, any: bool, r: Rng)
  {
    ConsumedOn(b, Consume(b, y, x, offs, any, r), Scan(b, y, x, offs, Prey), any, r)
  }

  /** Over distinct offsets, the prey cells, in loop order, each take the
      next draw: the m-th is emptied exactly when its draw succeeds at 80%,
      every other cell is unchanged, a swallow is reported exactly when one
      of those draws succeeds (or one was already reported), and one draw
      is taken per prey cell. */
  lemma {:induction false} ConsumeExact(b: Board, y: int, x: int, offs: seq<(int, int)>, any: bool, r: Rng)
    requires Distinct(offs)
    ensures ConsumedAs(b, y, x, offs, any, r)
    decreases |offs|
  {
    if offs != [] {
      ShapeTail(offs);
      var c := (y + offs[0].0, x + offs[0].1);
      if Prey(Look(b, c.0, c.1)) {
        var hit := Chance(r, 800).0;
        var b1 := if hit then Set(b, c.0, c.1, Empty) else b;
        ConsumeExact(b1, y, x, offs[1..], any || hit, Next(r));
        PreyStep(b, y, x, offs, any, r);
      } else {
        ConsumeExact(b, y, x, offs[1..], any, r);
        SkipStep(b, y, x, offs, any, r);
      }
    }
  }

  /** The step of `ConsumeExact` at a cell without prey. */
  lemma SkipStep(b: Board, y: int, x: int, offs: seq<(int, int)>, any: bool, r: Rng)
    requires offs != [] && offs[0] !in offs[1..] && !Prey(Look(b, y + offs[0].0, x + offs[0].1))
    requires ConsumedAs(b, y, x, offs[1..], any, r)
    ensures ConsumedAs(b, y, x, offs, any, r)
  {
    SkipEqs(b, y, x, offs, any, r);
    Transfer(b, Consume(b, y, x, offs[1..], any, r), Consume(b, y, x, offs, any, r),
             Scan(b, y, x, offs[1..], Prey), Scan(b, y, x, offs, Prey), any, r);
  }

  /** At a cell without prey, the loop and the scan pass over it. */
  lemma SkipEqs(b: Board, y: int, x: int, offs: seq<(int, int)>, any: bool, r: Rng)
    requires offs != [] && offs[0] !in offs[1..] && !Prey(Look(b, y + offs[0].0, x + offs[0].1))
    ensures Consume(b, y, x, offs[1..], any, r) == Consume(b, y, x, offs, any, r)
    ensures Scan(b, y, x, offs[1..], Prey) == Scan(b, y, x, offs, Prey)
  {
    SkipConsume(b, y, x, offs, any, r);
    SkipScan(b, y, x, offs);
  }

  /** The loop passes over a cell without prey, taking no draw. */
  lemma SkipConsume(b: Board, y: int, x: int, offs: seq<(int, int)>, any: bool, r: Rng)
    requires offs != [] && !Prey(Look(b, y + offs[0].0, x + offs[0].1))
    ensures Consume(b, y, x, offs[1..], any, r) == Consume(b, y, x, offs, any, r)
  {
  }

  /** The scan passes over a cell without prey. */
  lemma SkipScan(b: Board, y: int, x: int, offs: seq<(int, int)>)
    requires offs != [] && !Prey(Look(b, y + offs[0].0, x + offs[0].1))
    ensures Scan(b, y, x, offs[1..], Prey) == Scan(b, y, x, offs, Prey)
  {
  }

  /** The step of `ConsumeExact` at a prey cell. */
  lemma PreyStep(b: Board, y: int, x: int, offs: seq<(int, int)>, any: bool, r: Rng)
    requires offs != [] && offs[0] !in offs[1..] && Prey(Look(b, y + offs[0].0, x + offs[0].1))
    requires var c := (y + offs[0].0, x + offs[0].1);
      var hit := Chance(r, 800).0;
      ConsumedAs(if hit then Set(b, c.0, c.1, Empty) else b, y, x, offs[1..], any || hit, Next(r))
    ensures ConsumedAs(b, y, x, offs, any, r)
  {
    var c := (y + offs[0].0, x + offs[0].1);
    var hit := Chance(r, 800).0;
    var b1 := if hit then Set(b, c.0, c.1, Empty) else b;
    var rest := Scan(b1, y, x, offs[1..], Prey);
    PreyEqs(b, y, x, offs, any, r);
    var res := Consume(b1, y, x, offs[1..], any || hit, Next(r));
    ConsumedCons(b, b1, res, c, rest, any, hit, r);
    Transfer(b, res, Consume(b, y, x, offs, any, r), [c] + rest, Scan(b, y, x, offs, Prey), any, r);
  }

  /** At a prey cell, the loop takes a draw and the scan lists the cell
      first; emptying it leaves the scan of the later offsets alone. */
  lemma PreyEqs(b: Board, y: int, x: int, offs: seq<(int, int)>, any: bool, r: Rng)
    requires offs != [] && offs[0] !in offs[1..] && Prey(Look(b, y + offs[0].0, x + offs[0].1))
    ensures var c := (y + offs[0].0, x + offs[0].1);
      var hit := Chance(r, 800).0;
      var b1 := if hit then Set(b, c.0, c.1, Empty) else b;
      var rest := Scan(b1, y, x, offs[1..], Prey);
      InB(b, c.0, c.1) && c !in rest && hit == Wins(r, 0, 800) &&
      Scan(b, y, x, offs, Prey) == [c] + rest &&
      Consume(b, y, x, offs, any, r) == Consume(b1, y, x, offs[1..], any || hit, Next(r))
  {
    PreyScan(b, y, x, offs, Chance(r, 800).0);
    ConsumeStep(b, y, x, offs, any, r);
  }

  /** The scan half of `PreyEqs`. */
  lemma PreyScan(b: Board, y: int, x: int, offs: seq<(int, int)>, hit: bool)
    requires offs != [] && offs[0] !in offs[1..] && Prey(Look(b, y + offs[0].0, x + offs[0].1))
    ensures var c := (y + offs[0].0, x + offs[0].1);
      var b1 := if hit then Set(b, c.0, c.1, Empty) else b;
      var rest := Scan(b1, y, x, offs[1..], Prey);
      InB(b, c.0, c.1) && c !in rest && Scan(b, y, x, offs, Prey) == [c] + rest
  {
    ScanStep(b, y, x, offs, Prey);
    ScanPastSet(b, y, x, offs);
  }

  /** `ConsumedOn` for equal arguments. */
  lemma Transfer(b: Board, res: (Board, bool, Rng), res': (Board, bool, Rng), cs: seq<(int, int)>, cs': seq<(int, int)>,
                 any: bool, r: Rng)
    requires res == res' && cs == cs' && ConsumedOn(b, res, cs, any, r)
    ensures ConsumedOn(b, res', cs', any, r)
  {
  }

  /** `ConsumedOn` for cell c followed by the cells rest, from its first
      draw and `ConsumedOn` for the rest. */
  lemma ConsumedCons(b: Board, b1: Board, res: (Board, bool, Rng), c: (int, int), rest: seq<(int, int)>,
                     any: bool, hit: bool, r: Rng)
    requires InB(b, c.0, c.1) && c !in rest && hit == Wins(r, 0, 800)
    requires b1 == if hit then Set(b, c.0, c.1, Empty) else b
    requires ConsumedOn(b1, res, rest, any || hit, Next(r))
    ensures ConsumedOn(b, res, [c] + rest, any, r)
  {
    EmptiedCons(b, b1, res.0, c, rest, r);
  }

  /** Emptying the cell at the first offset leaves the scan of the later,
      different offsets alone. */
  lemma ScanPastSet(b: Board, y: int, x: int, offs: seq<(int, int)>)
    requires offs != [] && offs[0] !in offs[1..]
    ensures Scan(Set(b, y + offs[0].0, x + offs[0].1, Empty), y, x, offs[1..], Prey) == Scan(b, y, x, offs[1..], Prey)
  {
    assert (y + offs[0].0 - y, x + offs[0].1 - x) == offs[0];
    ScanSetElsewhere(b, y, x, offs[1..], Prey, y + offs[0].0, x + offs[0].1, Empty);
  }

  /** The prey cells of the 3 by 3 square, in `Ring` order, each take one
      draw: a swallow is reported exactly when one of those 80% draws
      succeeds, and then the update changes exactly the prey whose draw
      succeeded, each to empty, besides marking the singularity processed.
      The pull phase, when it runs, starts after one draw per prey cell. */
  lemma SwallowsWhen(b: Board, y: int, x: int, r: Rng)
    requires InB(b, y, x) && !b[y][x].Empty?
    ensures var cs := Scan(b, y, x, Ring, Prey);
      var o := Update(b, y, x, r);
      var c := Consume(b, y, x, Ring, false, r);
      (c.1 <==> exists m :: 0 <= m < |cs| && Wins(r, m, 800)) &&
      c.2 == Rng(r.draw, r.pos + |cs|) &&
      (c.1 ==>
         (forall m :: 0 <= m < |cs| ==>
            InB(b, cs[m].0, cs[m].1) &&
            o.b[cs[m].0][cs[m].1] == (if Wins(r, m, 800) then Empty else b[cs[m].0][cs[m].1])) &&
         forall k, l :: InB(b, k, l) && (k, l) != (y, x) && (k, l) !in cs ==> o.b[k][l] == b[k][l])
  {
    RingDistinct();
    ConsumeExact(b, y, x, Ring, false, r);
    NoSelfRing();
    ScanOthers(b, y, x, Ring, Prey);
    ScanSound(b, y, x, Ring, Prey);
  }

  /** The singularity's own cell is not one of the offsets. */
  lemma NoSelfRing()
    ensures (0, 0) !in Ring
  {
    RingInSquare();
  }
}
