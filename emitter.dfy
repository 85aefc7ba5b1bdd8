// Emitter, PowerfulEmitter and CleanEmitter (elements/mod/emitter/emitter.py):
// solids that, on chance, create a random placeable element.  The emitter
// and the clean emitter write into one random orthogonal neighbour, and only
// when it is empty; the powerful emitter writes into any cell within five
// cells and overwrites what is there.  The placeable keys are those the
// element manager lists at the time of the call, taken here as a parameter.

module EmitterRule {
  import opened Kinds
  import opened Oracle
  import opened Boards
  import opened Grids
  import opened Cells

  /** `Emitter.EMIT_CHANCE`, in thousandths. */
  const Odds := 100

  /** `PowerfulEmitter.EMIT_CHANCE`, in thousandths. */
  const PowerOdds := 250

  /** `PowerfulEmitter.EMIT_RANGE` */
  const Range := 5

  /** `Emitter.DIRECTIONS`: up, down, left, right. */
  lemma DirsAdjacent(n: nat)
    requires n < |UDLR|
    ensures Adj4(UDLR[n].0, UDLR[n].1) && UDLR[n] != (0, 0)
  {
  }

  // --- The emitter and the clean emitter ---

  /** `run_interactions` of Emitter (with `keys` the placeable keys) and of
      CleanEmitter (with the placeable keys filtered): on a 10% roll one
      random direction is chosen; if that cell is inside and empty and a
      key is available, a random key is drawn and, if its class is
      registered, a new unprocessed element of it is written there and the
      emitter is processed.  Otherwise nothing changes and the emitter is
      left for `Solid.update` to mark. */
  function Adjacent(reg: Registry, keys: seq<char>, b: Board, y: int, x: int, r: Rng): (o: Out)
    requires InB(b, y, x) && !b[y][x].Empty?
    ensures SameShape(b, o.b) && (!o.done ==> o.b == b)
  {
    var (go, r1) := Chance(r, Odds);
    if !go then Out(b, false, r1)
    else
      var (n, r2) := Pick(r1, |UDLR|);
      var (i, j) := (y + UDLR[n].0, x + UDLR[n].1);
      if !(InB(b, i, j) && b[i][j].Empty?) || keys == [] then Out(b, false, r2)
      else
        var (m, r3) := Pick(r2, |keys|);
        if keys[m] !in reg then Out(b, false, r3)
        else
          DirsAdjacent(n);
          Out(Proc(Set(b, i, j, Born(reg[keys[m]], [], false)), y, x), true, r3)
  }

  /** `[key for key in placeable_keys if key != 'v']` */
  function CleanKeys(keys: seq<char>): (r: seq<char>)
    ensures |r| <= |keys|
  {
    if keys == [] then []
    else (if keys[0] != 'v' then [keys[0]] else []) + CleanKeys(keys[1..])
  }

  method AdjacentM(g: Grid, p: Particle, reg: Registry, keys: seq<char>, rng: Rng,
                   ghost b: Board, ghost S: set<Particle>) returns (rng': Rng)
    requires g.Hosts(b, S, p) && !p.processed
    modifies g, g.cells, p
    ensures var o := Adjacent(reg, keys, b, old(p.y), old(p.x), rng);
      g.Shows(o.b, S) && rng' == o.r && (p.processed <==> o.done) && (!o.done ==> Kept(p))
    ensures g.Grew()
  {
    var y, x := p.y, p.x;
    var go;
    go, rng' := Chance(rng, Odds).0, Chance(rng, Odds).1;
    if !go {
      assert Adjacent(reg, keys, b, y, x, rng) == Out(b, false, rng');
      return;
    }
    var n;
    n, rng' := Pick(rng', |UDLR|).0, Pick(rng', |UDLR|).1;
    var (i, j) := (y + UDLR[n].0, x + UDLR[n].1);
    var t := g.Peek(i, j, b, S);
    if !(g.IsValid(i, j) && t.Vacant?) || keys == [] {
      assert Adjacent(reg, keys, b, y, x, rng) == Out(b, false, rng');
      return;
    }
    var m;
    m, rng' := Pick(rng', |keys|).0, Pick(rng', |keys|).1;
    if keys[m] !in reg {
      assert Adjacent(reg, keys, b, y, x, rng) == Out(b, false, rng');
      return;
    }
    DirsAdjacent(n);
    ghost var b1 := Set(b, i, j, Born(reg[keys[m]], [], false));
    assert Adjacent(reg, keys, b, y, x, rng) == Out(Proc(b1, y, x), true, rng');
    EmitAtM(g, p, reg, i, j, keys[m], b, S);
  }

  /** Writes a new unprocessed element of a registered key into the cell
      (i, j) beside the emitter, then marks the emitter processed. */
  method EmitAtM(g: Grid, p: Particle, reg: Registry, i: int, j: int, key: char, ghost b: Board, ghost S: set<Particle>)
    requires g.Hosts(b, S, p) && (i, j) != (p.y, p.x) && key in reg
    modifies g, g.cells, p
    ensures InB(b, old(p.y), old(p.x)) && !b[old(p.y)][old(p.x)].Empty?
    ensures g.Shows(Proc(Set(b, i, j, Born(reg[key], [], false)), old(p.y), old(p.x)), S) && p.processed
    ensures g.Grew()
  {
    LandM(g, p, reg, HitAt(i, j), key, [], false, b, S);
    ghost var b1 := Set(b, i, j, Born(reg[key], [], false));
    MarkSelf(g, p, b1, S);
  }

  /** CleanEmitter's `run_interactions`: the filter as a loop, then the
      emitter's step over what is left. */
  method CleanM(g: Grid, p: Particle, reg: Registry, keys: seq<char>, rng: Rng,
                ghost b: Board, ghost S: set<Particle>) returns (rng': Rng)
    requires g.Hosts(b, S, p) && !p.processed
    modifies g, g.cells, p
    ensures var o := Adjacent(reg, CleanKeys(keys), b, old(p.y), old(p.x), rng);
      g.Shows(o.b, S) && rng' == o.r && (p.processed <==> o.done) && (!o.done ==> Kept(p))
    ensures g.Grew()
  {
    var clean := CleanM1(keys);
    rng' := AdjacentM(g, p, reg, clean, rng, b, S);
  }

  /** The list comprehension that drops every 'v'. */
  method CleanM1(keys: seq<char>) returns (clean: seq<char>)
    ensures clean == CleanKeys(keys)
  {
    clean := [];
    var k := |keys|;
    while k > 0
      invariant 0 <= k <= |keys|
      invariant clean == CleanKeys(keys[k..])
    {
      k := k - 1;
      assert keys[k..][1..] == keys[k + 1..];
      if keys[k] != 'v' {
        clean := [keys[k]] + clean;
      }
    }
  }

  // --- The powerful emitter ---

  /** Offset (dy, dx) lies within `Range` in Euclidean distance. */
  predicate InDisk(dy: int, dx: int)
  {
    dy * dy + dx * dx <= Range * Range
  }

  /** The powerful emitter may target (dy, dx) from its own cell. */
  predicate Aimable(b: Board, y: int, x: int, dy: int, dx: int)
  {
    InDisk(dy, dx) && InB(b, y + dy, x + dx) && (dy, dx) != (0, 0)
  }

  /** The inner loop over dx, from dx up to `Range`, for row offset dy. */
  function DiskRow(b: Board, y: int, x: int, dy: int, dx: int): (cs: seq<(int, int)>)
    decreases Range + 1 - dx
  {
    if dx > Range then []
    else (if Aimable(b, y, x, dy, dx) then [(y + dy, x + dx)] else []) + DiskRow(b, y, x, dy, dx + 1)
  }

  /** The outer loop over dy, from dy up to `Range`. */
  function DiskRows(b: Board, y: int, x: int, dy: int): (cs: seq<(int, int)>)
    decreases Range + 1 - dy
  {
    if dy > Range then [] else DiskRow(b, y, x, dy, -Range) + DiskRows(b, y, x, dy + 1)
  }

  /** `possible_targets`, in the order the loops build it. */
  function Disk(b: Board, y: int, x: int): seq<(int, int)>
  {
    DiskRows(b, y, x, -Range)
  }

  lemma {:induction false} DiskRowIff(b: Board, y: int, x: int, dy: int, dx: int, c: (int, int))
    ensures c in DiskRow(b, y, x, dy, dx) <==>
      c.0 == y + dy && dx <= c.1 - x <= Range && Aimable(b, y, x, c.0 - y, c.1 - x)
    decreases Range + 1 - dx
  {
    if dx <= Range {
      DiskRowIff(b, y, x, dy, dx + 1, c);
    }
  }

  lemma {:induction false} DiskRowsIff(b: Board, y: int, x: int, dy: int, c: (int, int))
    ensures c in DiskRows(b, y, x, dy) <==>
      dy <= c.0 - y <= Range && -Range <= c.1 - x <= Range && Aimable(b, y, x, c.0 - y, c.1 - x)
    decreases Range + 1 - dy
  {
    if dy <= Range {
      DiskRowIff(b, y, x, dy, -Range, c);
      DiskRowsIff(b, y, x, dy + 1, c);
      assert DiskRows(b, y, x, dy) == DiskRow(b, y, x, dy, -Range) + DiskRows(b, y, x, dy + 1);
    }
  }

  /** An offset in the disc lies in the bounding square. */
  lemma DiskSquare(dy: int, dx: int)
    requires InDisk(dy, dx)
    ensures -Range <= dy <= Range && -Range <= dx <= Range
  {
  }

  /** The candidate cells are exactly the cells inside the grid, other than
      the emitter's own, within distance `Range` of it. */
  lemma DiskIff(b: Board, y: int, x: int, i: int, j: int)
    ensures (i, j) in Disk(b, y, x) <==> InB(b, i, j) && (i, j) != (y, x) && InDisk(i - y, j - x)
  {
    DiskRowsIff(b, y, x, -Range, (i, j));
    if InDisk(i - y, j - x) {
      DiskSquare(i - y, j - x);
    }
  }

  /** `PowerfulEmitter.run_interactions`: on a 25% roll, one random cell of
      the disc is drawn, then a random key; if its class is registered, a
      new unprocessed element of it overwrites that cell and the emitter is
      processed. */
  function Far(reg: Registry, keys: seq<char>, b: Board, y: int, x: int, r: Rng): (o: Out)
    requires InB(b, y, x) && !b[y][x].Empty?
    ensures SameShape(b, o.b) && (!o.done ==> o.b == b)
  {
    var (go, r1) := Chance(r, PowerOdds);
    var cs := Disk(b, y, x);
    if !go || cs == [] then Out(b, false, r1)
    else
      var (n, r2) := Pick(r1, |cs|);
      if keys == [] then Out(b, false, r2)
      else
        var (m, r3) := Pick(r2, |keys|);
        if keys[m] !in reg then Out(b, false, r3)
        else
          DiskIff(b, y, x, cs[n].0, cs[n].1);
          Out(Proc(Set(b, cs[n].0, cs[n].1, Born(reg[keys[m]], [], false)), y, x), true, r3)
  }

  /** The nested loops that build `possible_targets`. */
  method DiskM(g: Grid, y: int, x: int, ghost b: Board, ghost S: set<Particle>) returns (cs: seq<(int, int)>)
    requires g.Shows(b, S)
    ensures cs == Disk(b, y, x)
  {
    cs := [];
    var dy := -Range;
    while dy <= Range
      invariant g.Shows(b, S)
      invariant -Range <= dy <= Range + 1
      invariant cs + DiskRows(b, y, x, dy) == Disk(b, y, x)
      decreases Range + 1 - dy
    {
      var row := RowM(g, y, x, dy, b, S);
      cs := cs + row;
      dy := dy + 1;
    }
  }

  /** The inner loop, for row offset dy. */
  /** One step of the inner loop: the cell at dx, if aimable, then the rest. */
  lemma RowStep(b: Board, y: int, x: int, dy: int, dx: int, row: seq<(int, int)>)
    requires dx <= Range
    ensures Aimable(b, y, x, dy, dx) ==>
      row + DiskRow(b, y, x, dy, dx) == (row + [(y + dy, x + dx)]) + DiskRow(b, y, x, dy, dx + 1)
    ensures !Aimable(b, y, x, dy, dx) ==> row + DiskRow(b, y, x, dy, dx) == row + DiskRow(b, y, x, dy, dx + 1)
  {
    var rest := DiskRow(b, y, x, dy, dx + 1);
    if Aimable(b, y, x, dy, dx) {
      var c := [(y + dy, x + dx)];
      assert DiskRow(b, y, x, dy, dx) == c + rest;
      assert (row + c) + rest == row + (c + rest);
    } else {
      assert DiskRow(b, y, x, dy, dx) == [] + rest;
      assert [] + rest == rest;
    }
  }

  method RowM(g: Grid, y: int, x: int, dy: int, ghost b: Board, ghost S: set<Particle>) returns (row: seq<(int, int)>)
    requires g.Shows(b, S)
    ensures row == DiskRow(b, y, x, dy, -Range)
  {
    row := [];
    var dx := -Range;
    while dx <= Range
      invariant g.Shows(b, S)
      invariant -Range <= dx <= Range + 1
      invariant row + DiskRow(b, y, x, dy, dx) == DiskRow(b, y, x, dy, -Range)
      decreases Range + 1 - dx
    {
      assert g.IsValid(y + dy, x + dx) == InB(b, y + dy, x + dx);
      RowStep(b, y, x, dy, dx, row);
      if InDisk(dy, dx) && g.IsValid(y + dy, x + dx) && (dy, dx) != (0, 0) {
        row := row + [(y + dy, x + dx)];
      }
      dx := dx + 1;
    }
  }

  method FarM(g: Grid, p: Particle, reg: Registry, keys: seq<char>, rng: Rng,
              ghost b: Board, ghost S: set<Particle>) returns (rng': Rng)
    requires g.Hosts(b, S, p) && !p.processed
    modifies g, g.cells, p
    ensures var o := Far(reg, keys, b, old(p.y), old(p.x), rng);
      g.Shows(o.b, S) && rng' == o.r && (p.processed <==> o.done) && (!o.done ==> Kept(p))
    ensures g.Grew()
  {
    var y, x := p.y, p.x;
    var go;
    go, rng' := Chance(rng, PowerOdds).0, Chance(rng, PowerOdds).1;
    var cs := DiskM(g, y, x, b, S);
    if !go || cs == [] {
      return;
    }
    var n;
    n, rng' := Pick(rng', |cs|).0, Pick(rng', |cs|).1;
    if keys == [] {
      return;
    }
    var m;
    m, rng' := Pick(rng', |keys|).0, Pick(rng', |keys|).1;
    if keys[m] !in reg {
      return;
    }
    DiskIff(b, y, x, cs[n].0, cs[n].1);
    EmitAtM(g, p, reg, cs[n].0, cs[n].1, keys[m], b, S);
  }

  // --- Properties ---

  /** A new element made from one of the keys: unprocessed, with no tags
      and its class's initial state. */
  ghost predicate Emitted(reg: Registry, keys: seq<char>, s: Slot)
  {
    exists c :: c in keys && c in reg && s == Born(reg[c], [], false)
  }

  /** An emission marks the emitter processed and changes exactly one other
      cell: an orthogonal neighbour that was empty and now holds a new
      unprocessed element of a registered key from the list. */
  lemma AdjacentEmits(reg: Registry, keys: seq<char>, b: Board, y: int, x: int, r: Rng)
    requires InB(b, y, x) && !b[y][x].Empty?
    ensures var o := Adjacent(reg, keys, b, y, x, r);
      o.done ==>
        Marked(b, o.b, y, x) && OneOther(b, o.b, y, x) && Around(b, o.b, y, x, Adj4) &&
        forall i, j :: InB(b, i, j) && (i, j) != (y, x) && o.b[i][j] != b[i][j] ==>
          b[i][j] == Empty && Emitted(reg, keys, o.b[i][j]) && !o.b[i][j].st.processed
  {
    var o := Adjacent(reg, keys, b, y, x, r);
    if o.done {
      var r1 := Chance(r, Odds).1;
      var (n, r2) := Pick(r1, |UDLR|);
      var (i, j) := (y + UDLR[n].0, x + UDLR[n].1);
      var (m, r3) := Pick(r2, |keys|);
      DirsAdjacent(n);
      var s := Born(reg[keys[m]], [], false);
      assert o.b == Proc(Set(b, i, j, s), y, x);
      PutMark(b, y, x, (i, j), s);
      LocalOne(b, o.b, y, x, (i, j));
      LocalAround(b, o.b, y, x, (i, j), Adj4);
      assert Emitted(reg, keys, s);
    }
  }

  /** The emitter emits exactly when the 10% roll succeeds, the direction
      drawn next leads to an empty cell inside the grid, and the key drawn
      after that is registered; that cell then holds a new element of the
      key. */
  lemma AdjacentEmitsWhen(reg: Registry, keys: seq<char>, b: Board, y: int, x: int, r: Rng)
    requires InB(b, y, x) && !b[y][x].Empty?
    ensures var o := Adjacent(reg, keys, b, y, x, r);
      var n := Pick(Next(r), |UDLR|).0;
      var (i, j) := (y + UDLR[n].0, x + UDLR[n].1);
      var r2 := Next(Next(r));
      (o.done <==> Chance(r, Odds).0 && InB(b, i, j) && b[i][j].Empty? &&
                   keys != [] && keys[Pick(r2, |keys|).0] in reg) &&
      (o.done ==> o.b[i][j] == Born(reg[keys[Pick(r2, |keys|).0]], [], false))
  {
    var o := Adjacent(reg, keys, b, y, x, r);
    if o.done {
      var n := Pick(Next(r), |UDLR|).0;
      DirsAdjacent(n);
      var (i, j) := (y + UDLR[n].0, x + UDLR[n].1);
      var s := Born(reg[keys[Pick(Next(Next(r)), |keys|).0]], [], false);
      PutMark(b, y, x, (i, j), s);
    }
  }

  /** When every orthogonal neighbour is off the grid or occupied, or no
      key is available, the emitter changes nothing. */
  lemma AdjacentBlocked(reg: Registry, keys: seq<char>, b: Board, y: int, x: int, r: Rng)
    requires InB(b, y, x) && !b[y][x].Empty?
    requires keys == [] || forall n :: 0 <= n < |UDLR| ==>
      !(InB(b, y + UDLR[n].0, x + UDLR[n].1) && b[y + UDLR[n].0][x + UDLR[n].1].Empty?)
    ensures var o := Adjacent(reg, keys, b, y, x, r); !o.done && o.b == b
  {
  }

  /** The clean filter drops exactly the 'v' keys and keeps the others in
      order. */
  lemma {:induction false} CleanKeysIff(keys: seq<char>, c: char)
    ensures c in CleanKeys(keys) <==> c in keys && c != 'v'
  {
    if keys != [] {
      CleanKeysIff(keys[1..], c);
      assert keys == [keys[0]] + keys[1..];
    }
  }

  /** No element class has the key 'v', so over keys that all name
      registered classes the filter removes nothing: in particular the
      virus 'V' stays a candidate of the clean emitter. */
  lemma {:induction false} CleanKeepsAll(reg: Registry, keys: seq<char>)
    requires Consistent(reg) && forall c :: c in keys ==> c in reg
    ensures CleanKeys(keys) == keys
    ensures 'V' in keys ==> 'V' in CleanKeys(keys)
  {
    if keys != [] {
      assert keys[0] in reg;
      assert keys[0] != 'v' by {
        assert Key(reg[keys[0]]) == keys[0];
      }
      CleanKeepsAll(reg, keys[1..]);
      assert keys == [keys[0]] + keys[1..];
    }
  }

  /** A powerful emission marks the emitter processed and changes exactly
      one other cell, within distance five, whatever it held before, into a
      new unprocessed element of a registered key from the list. */
  lemma FarEmits(reg: Registry, keys: seq<char>, b: Board, y: int, x: int, r: Rng)
    requires InB(b, y, x) && !b[y][x].Empty?
    ensures var o := Far(reg, keys, b, y, x, r); o.done ==> EmitsOne(reg, keys, b, o.b, y, x)
  {
    if Far(reg, keys, b, y, x, r).done {
      FarPicks(reg, keys, b, y, x, r);
      var cs := Disk(b, y, x);
      var (n, r2) := Pick(Chance(r, PowerOdds).1, |cs|);
      var m := Pick(r2, |keys|).0;
      DiskIff(b, y, x, cs[n].0, cs[n].1);
      var s := Born(reg[keys[m]], [], false);
      assert Emitted(reg, keys, s);
      EmitsAt(reg, keys, b, y, x, HitAt(cs[n].0, cs[n].1), s);
    }
  }

  /** Unfolds a powerful emission: the cell and the key it picked. */
  lemma FarPicks(reg: Registry, keys: seq<char>, b: Board, y: int, x: int, r: Rng)
    requires InB(b, y, x) && !b[y][x].Empty? && Far(reg, keys, b, y, x, r).done
    ensures var cs := Disk(b, y, x);
      var (n, r2) := Pick(Chance(r, PowerOdds).1, |cs|);
      var m := Pick(r2, |keys|).0;
      0 <= n < |cs| && 0 <= m < |keys| && keys[m] in reg &&
      Far(reg, keys, b, y, x, r).b == Proc(Land(b, HitAt(cs[n].0, cs[n].1), Born(reg[keys[m]], [], false)), y, x)
  {
  }

  /** Writing an emitted element at one cell of the disk has the effect FarEmits states. */
  lemma EmitsAt(reg: Registry, keys: seq<char>, b: Board, y: int, x: int, h: Hit, s: Slot)
    requires InB(b, y, x) && !b[y][x].Empty? && h.HitAt?
    requires InB(b, h.i, h.j) && (h.i, h.j) != (y, x) && InDisk(h.i - y, h.j - x)
    requires Emitted(reg, keys, s) && !s.st.processed
    ensures EmitsOne(reg, keys, b, Proc(Land(b, h, s), y, x), y, x)
  {
    LandMark(b, y, x, h, s, InDisk);
  }

  /** b' marks the emitter at (y, x) processed and differs from b in exactly
      one other cell, within distance five, which now holds a new unprocessed
      element of a registered key from the list. */
  ghost predicate EmitsOne(reg: Registry, keys: seq<char>, b: Board, b': Board, y: int, x: int)
    requires InB(b, y, x) && !b[y][x].Empty? && SameShape(b, b')
  {
    Marked(b, b', y, x) && OneOther(b, b', y, x) && Around(b, b', y, x, InDisk) &&
    forall i, j :: InB(b, i, j) && (i, j) != (y, x) && b'[i][j] != b[i][j] ==>
      Emitted(reg, keys, b'[i][j]) && !b'[i][j].st.processed
  }

  /** The powerful emitter emits exactly when the 25% roll succeeds, some
      cell of the disc exists, and the key drawn after the cell is
      registered; the drawn cell then holds a new element of the key,
      whatever it held before. */
  lemma FarEmitsWhen(reg: Registry, keys: seq<char>, b: Board, y: int, x: int, r: Rng)
    requires InB(b, y, x) && !b[y][x].Empty?
    ensures var o := Far(reg, keys, b, y, x, r);
      var cs := Disk(b, y, x);
      var r2 := Next(Next(r));
      (o.done <==> Chance(r, PowerOdds).0 && cs != [] && keys != [] && keys[Pick(r2, |keys|).0] in reg) &&
      (o.done ==> var c := cs[Pick(Next(r), |cs|).0];
                  InB(b, c.0, c.1) && o.b[c.0][c.1] == Born(reg[keys[Pick(r2, |keys|).0]], [], false))
  {
    var o := Far(reg, keys, b, y, x, r);
    if o.done {
      var cs := Disk(b, y, x);
      var (i, j) := cs[Pick(Next(r), |cs|).0];
      DiskIff(b, y, x, i, j);
      var s := Born(reg[keys[Pick(Next(Next(r)), |keys|).0]], [], false);
      PutMark(b, y, x, (i, j), s);
    }
  }
}
