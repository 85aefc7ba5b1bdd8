// What the element files have in common: making a new element by key or by
// class, writing it into a cell, an element replacing itself, and the
// neighbour scans that collect candidate cells.

module Cells {
  import opened Kinds
  import opened Oracle
  import opened Boards
  import opened Grids

  /** A new element of kind k carrying `tags`, processed or not. */
  function Born(k: Kind, tags: seq<string>, done: bool): (s: Slot)
    ensures s.New? && s.k == k && s.st.tags == tags && s.st.processed == done
  {
    New(k, Initial(k, tags).(processed := done))
  }

  /** `grid.create_element(key, ...)` with its tags set and its processed
      flag set to `done`: nothing for an unregistered key. */
  function Fresh(reg: Registry, key: char, tags: seq<string>, done: bool): (s: Slot)
    ensures s.Empty? <==> key !in reg
    ensures key in reg ==> s == Born(reg[key], tags, done)
  {
    if key in reg then Born(reg[key], tags, done) else Empty
  }

  /** An element replaces itself by a new one made by key, if the key is
      registered, and is processed either way. */
  function Become(reg: Registry, b: Board, y: int, x: int, key: char, tags: seq<string>, done: bool): Board
    requires InB(b, y, x) && !b[y][x].Empty?
  {
    if key in reg then Put(b, y, x, Fresh(reg, key, tags, done)) else Proc(b, y, x)
  }

  /** The cell a random choice landed on, if the roll before it succeeded. */
  datatype Hit = Miss | HitAt(i: int, j: int)

  /** `if cs and random.random() < permille / 1000: random.choice(cs)`: no
      draw at all without candidates. */
  function Strike(cs: seq<(int, int)>, permille: nat, r: Rng): (res: (Hit, Rng))
    ensures res.0.HitAt? ==> (res.0.i, res.0.j) in cs
    ensures res.0.HitAt? <==> cs != [] && Chance(r, permille).0
    ensures cs == [] ==> res.1 == r
  {
    if cs == [] then (Miss, r)
    else
      var (ok, r1) := Chance(r, permille);
      if !ok then (Miss, r1)
      else
        var (n, r2) := Pick(r1, |cs|);
        (HitAt(cs[n].0, cs[n].1), r2)
  }

  /** Each candidate at the offsets, in order, gets its own roll; the first
      success is the hit. */
  function FirstRoll(b: Board, y: int, x: int, offs: seq<(int, int)>, ok: Seen -> bool, permille: nat, r: Rng): (res: (Hit, Rng))
    ensures res.0.HitAt? ==> (res.0.i, res.0.j) in Scan(b, y, x, offs, ok)
    decreases |offs|
  {
    if offs == [] then (Miss, r)
    else
      var c := (y + offs[0].0, x + offs[0].1);
      if InB(b, c.0, c.1) && ok(Look(b, c.0, c.1)) then
        var (win, r1) := Chance(r, permille);
        if win then (HitAt(c.0, c.1), r1) else FirstRoll(b, y, x, offs[1..], ok, permille, r1)
      else FirstRoll(b, y, x, offs[1..], ok, permille, r)
  }

  /** The roll and then the choice of `Strike`, drawn in turn. */
  method StrikeM(cs: seq<(int, int)>, permille: nat, rng: Rng) returns (h: Hit, rng': Rng)
    ensures (h, rng') == Strike(cs, permille, rng)
  {
    h, rng' := Miss, rng;
    if cs != [] {
      var ok;
      ok, rng' := Chance(rng, permille).0, Chance(rng, permille).1;
      if ok {
        var n;
        n, rng' := Pick(rng', |cs|).0, Pick(rng', |cs|).1;
        h := HitAt(cs[n].0, cs[n].1);
      }
    }
  }

  /** With no candidate there is no hit and no draw. */
  lemma FirstRollNone(b: Board, y: int, x: int, offs: seq<(int, int)>, ok: Seen -> bool, permille: nat, r: Rng)
    requires Scan(b, y, x, offs, ok) == []
    ensures FirstRoll(b, y, x, offs, ok, permille, r) == (Miss, r)
  {
    if offs != [] {
      FirstRollNone(b, y, x, offs[1..], ok, permille, r);
    }
  }

  /** The k-th draw from r, counting from 0, succeeds at the given odds. */
  predicate Wins(r: Rng, k: nat, permille: nat)
  {
    r.draw(r.pos + k) % 1000 < permille
  }

  /** The k-th candidate of `FirstRoll` gets the k-th draw: there is a hit
      exactly when one of those draws succeeds, and the first success picks
      its candidate. */
  lemma {:induction false} FirstRollFirst(b: Board, y: int, x: int, offs: seq<(int, int)>, ok: Seen -> bool,
                                          permille: nat, r: Rng)
    ensures var cs := Scan(b, y, x, offs, ok);
      var h := FirstRoll(b, y, x, offs, ok, permille, r).0;
      (h.HitAt? <==> exists k :: 0 <= k < |cs| && Wins(r, k, permille)) &&
      forall k :: 0 <= k < |cs| && Wins(r, k, permille) && (forall m :: 0 <= m < k ==> !Wins(r, m, permille)) ==>
        h == HitAt(cs[k].0, cs[k].1)
    decreases |offs|
  {
    if offs != [] {
      var c := (y + offs[0].0, x + offs[0].1);
      var rest := Scan(b, y, x, offs[1..], ok);
      if InB(b, c.0, c.1) && ok(Look(b, c.0, c.1)) {
        var cs := [c] + rest;
        FirstRollFirst(b, y, x, offs[1..], ok, permille, Next(r));
        assert forall k: nat :: Wins(Next(r), k, permille) == Wins(r, k + 1, permille);
        if !Chance(r, permille).0 {
          assert !Wins(r, 0, permille);
          forall k | 0 <= k < |cs| && Wins(r, k, permille)
            ensures k >= 1 && Wins(Next(r), k - 1, permille)
          {
          }
          assert (exists k :: 0 <= k < |rest| && Wins(Next(r), k, permille)) ==>
                 (exists k :: 0 <= k < |cs| && Wins(r, k, permille));
        } else {
          assert Wins(r, 0, permille);
        }
      } else {
        FirstRollFirst(b, y, x, offs[1..], ok, permille, r);
      }
    }
  }

  /** Hit h is what the first winning draw among the candidates cs picks:
      there is a hit exactly when some draw wins, at the first winner. */
  ghost predicate PicksFirst(cs: seq<(int, int)>, h: Hit, r: Rng, permille: nat)
  {
    (h.HitAt? <==> exists k :: 0 <= k < |cs| && Wins(r, k, permille)) &&
    forall k :: 0 <= k < |cs| && Wins(r, k, permille) && (forall m :: 0 <= m < k ==> !Wins(r, m, permille)) ==>
      h == HitAt(cs[k].0, cs[k].1)
  }

  /** `FirstRollFirst`, packed as `PicksFirst`. */
  lemma FirstRollPicks(b: Board, y: int, x: int, offs: seq<(int, int)>, ok: Seen -> bool, permille: nat, r: Rng)
    ensures PicksFirst(Scan(b, y, x, offs, ok), FirstRoll(b, y, x, offs, ok, permille, r).0, r, permille)
  {
    FirstRollFirst(b, y, x, offs, ok, permille, r);
  }

  /** What follows for the cells of cs from a hit h that the first winning
      draw picks, when the change is exactly the write of s at the hit. */
  lemma FirstWinnerGets(b: Board, b': Board, cs: seq<(int, int)>, h: Hit, r: Rng, permille: nat,
                        changed: bool, s: Slot)
    requires PicksFirst(cs, h, r, permille)
    requires changed <==> h.HitAt?
    requires h.HitAt? ==> InB(b, h.i, h.j) && InB(b', h.i, h.j) && b'[h.i][h.j] == s
    ensures FirstGets(b, b', cs, r, permille, changed, s)
  {
  }

  /** Over the candidates cs, each with its own draw from r: `changed`
      holds exactly when some draw wins, and the candidate of the first
      winning draw holds s in b'. */
  ghost predicate FirstGets(b: Board, b': Board, cs: seq<(int, int)>, r: Rng, permille: nat, changed: bool, s: Slot)
  {
    (changed <==> exists k :: 0 <= k < |cs| && Wins(r, k, permille)) &&
    forall k :: 0 <= k < |cs| && Wins(r, k, permille) && (forall m :: 0 <= m < k ==> !Wins(r, m, permille)) ==>
      InB(b, cs[k].0, cs[k].1) && InB(b', cs[k].0, cs[k].1) && b'[cs[k].0][cs[k].1] == s
  }

  /** `b` with slot s written at the hit cell, if any. */
  function Land(b: Board, h: Hit, s: Slot): Board
  {
    if h.HitAt? then Set(b, h.i, h.j, s) else b
  }

  /** Writes a new element made by key into (i, j), only if it could be made. */
  method Spawn(g: Grid, reg: Registry, key: char, i: int, j: int, tags: seq<string>, done: bool,
               ghost b: Board, ghost S: set<Particle>) returns (made: bool)
    requires g.Shows(b, S)
    modifies g, g.cells
    ensures made == (key in reg)
    ensures g.Shows(if made then Set(b, i, j, Fresh(reg, key, tags, done)) else b, S)
    ensures g.Grew() && unchanged(old(g.Repr))
  {
    var e := g.CreateElement(reg, key, i, j, tags);
    made := e != null;
    if e != null {
      e.processed := done;
      g.Place(i, j, e, b, S);
    }
  }

  /** `set_element(i, j, create_element(key, ...))`: an unregistered key
      empties the cell. */
  method Overwrite(g: Grid, reg: Registry, key: char, i: int, j: int, tags: seq<string>, done: bool,
                   ghost b: Board, ghost S: set<Particle>)
    requires g.Shows(b, S)
    modifies g, g.cells
    ensures g.Shows(Set(b, i, j, Fresh(reg, key, tags, done)), S)
    ensures g.Grew() && unchanged(old(g.Repr))
  {
    var made := Spawn(g, reg, key, i, j, tags, done, b, S);
    if !made {
      g.ClearCell(i, j, b, S);
    }
  }

  /** Writes what key makes into the hit cell, if any, beside an element p
      that keeps its own cell. */
  method LandM(g: Grid, p: Particle, reg: Registry, h: Hit, key: char, tags: seq<string>, done: bool,
               ghost b: Board, ghost S: set<Particle>)
    requires g.Hosts(b, S, p) && (h.HitAt? ==> (h.i, h.j) != (p.y, p.x))
    modifies g, g.cells
    ensures g.Hosts(Land(b, h, Fresh(reg, key, tags, done)), S, p)
    ensures g.Grew() && unchanged(old(g.Repr))
  {
    if h.HitAt? {
      Overwrite(g, reg, key, h.i, h.j, tags, done, b, S);
    }
    g.HostsAt(Land(b, h, Fresh(reg, key, tags, done)), S, p);
  }

  /** Writes a new element of class k into the hit cell, if any, beside an
      element p that keeps its own cell. */
  method LandKindM(g: Grid, p: Particle, h: Hit, k: Kind, tags: seq<string>, done: bool,
                   ghost b: Board, ghost S: set<Particle>)
    requires g.Hosts(b, S, p) && (h.HitAt? ==> (h.i, h.j) != (p.y, p.x))
    modifies g, g.cells
    ensures g.Hosts(Land(b, h, Born(k, tags, done)), S, p)
    ensures g.Grew() && unchanged(old(g.Repr))
  {
    if h.HitAt? {
      SpawnKind(g, k, h.i, h.j, tags, done, b, S);
    }
    g.HostsAt(Land(b, h, Born(k, tags, done)), S, p);
  }

  /** Empties the hit cell, if any, beside an element p that keeps its own
      cell. */
  method WipeM(g: Grid, p: Particle, h: Hit, ghost b: Board, ghost S: set<Particle>)
    requires g.Hosts(b, S, p) && (h.HitAt? ==> (h.i, h.j) != (p.y, p.x))
    modifies g.cells
    ensures g.Hosts(Land(b, h, Empty), S, p)
    ensures g.Grew()
  {
    if h.HitAt? {
      g.ClearCell(h.i, h.j, b, S);
    }
    g.HostsAt(Land(b, h, Empty), S, p);
  }

  /** Writes a new element of class k, made by its constructor rather than by
      key, into (i, j). */
  method SpawnKind(g: Grid, k: Kind, i: int, j: int, tags: seq<string>, done: bool,
                   ghost b: Board, ghost S: set<Particle>)
    requires g.Shows(b, S)
    modifies g, g.cells
    ensures g.Shows(Set(b, i, j, Born(k, tags, done)), S)
    ensures g.Grew() && unchanged(old(g.Repr))
  {
    var e := new Particle(k, i, j, tags);
    e.processed := done;
    g.Place(i, j, e, b, S);
  }

  /** `Become` on the grid: the element is replaced when the key is
      registered, and is processed either way. */
  method BecomeM(g: Grid, p: Particle, reg: Registry, key: char, tags: seq<string>, done: bool,
                 ghost b: Board, ghost S: set<Particle>)
    requires g.Hosts(b, S, p)
    modifies g, g.cells, p
    ensures g.Shows(Become(reg, b, old(p.y), old(p.x), key, tags, done), S) && p.processed
    ensures g.Grew()
  {
    var y, x := p.y, p.x;
    var made := Spawn(g, reg, key, y, x, tags, done, b, S);
    if made {
      g.Retire(p, Put(b, y, x, Fresh(reg, key, tags, done)), S);
    } else {
      g.MarkAt(y, x, b, S);
    }
  }

  /** `set_element(y, x, create_element(key, ...))` at the element's own
      cell, after which the element is processed. */
  method ReplaceM(g: Grid, p: Particle, reg: Registry, key: char, tags: seq<string>, done: bool,
                  ghost b: Board, ghost S: set<Particle>)
    requires g.Hosts(b, S, p)
    modifies g, g.cells, p
    ensures g.Shows(Put(b, old(p.y), old(p.x), Fresh(reg, key, tags, done)), S) && p.processed
    ensures g.Grew()
  {
    var y, x := p.y, p.x;
    Overwrite(g, reg, key, y, x, tags, done, b, S);
    g.Retire(p, Put(b, y, x, Fresh(reg, key, tags, done)), S);
  }

  /** `set_element(y, x, None)` at the element's own cell, after which the
      element is processed. */
  method VanishM(g: Grid, p: Particle, ghost b: Board, ghost S: set<Particle>)
    requires g.Hosts(b, S, p)
    modifies g.cells, p
    ensures g.Shows(Put(b, old(p.y), old(p.x), Empty), S) && p.processed
    ensures g.Grew()
  {
    var y, x := p.y, p.x;
    g.ClearCell(y, x, b, S);
    g.Retire(p, Put(b, y, x, Empty), S);
  }

  /** Writes the fields of an element on the grid in place; a processed
      element stays processed. */
  method RestateM(g: Grid, p: Particle, st: St, ghost b: Board, ghost S: set<Particle>)
    requires g.Hosts(b, S, p) && (p.processed ==> st.processed)
    modifies p
    ensures p.y == old(p.y) && p.x == old(p.x) && p.State() == st
    ensures g.Hosts(Put(b, old(p.y), old(p.x), Old(p, st)), S, p) && g.Grew()
  {
    g.Restate(p.y, p.x, st, b, S);
  }

  /** The element in slot s with one more tag at the end of its tags. */
  function Tagged(s: Slot, tag: string): (r: Slot)
    requires !s.Empty?
    ensures !r.Empty? && KindOf(r) == KindOf(s) && r.st.tags == s.st.tags + [tag]
    ensures r.st == s.st.(tags := s.st.tags + [tag])
  {
    WithSt(s, s.st.(tags := s.st.tags + [tag]))
  }

  /** `neighbor.tags.append(tag)` for an element in cell (i, j) other than
      p: nothing else of it changes, its processed flag included. */
  method TagM(g: Grid, p: Particle, i: int, j: int, tag: string, ghost b: Board, ghost S: set<Particle>)
    requires g.Hosts(b, S, p) && InB(b, i, j) && !b[i][j].Empty? && (i, j) != (p.y, p.x)
    modifies g.cells[i, j]
    ensures g.Hosts(Put(b, i, j, Tagged(b[i][j], tag)), S, p)
    ensures g.Grew() && Kept(p)
  {
    g.MatchAt(b, S, i, j);
    var q := g.cells[i, j];
    assert q != p;
    g.Restate(i, j, q.State().(tags := q.tags + [tag]), b, S);
    g.HostsAt(Put(b, i, j, Tagged(b[i][j], tag)), S, p);
  }

  /** `self.processed = True` for a particle on the grid. */
  method MarkSelf(g: Grid, p: Particle, ghost b: Board, ghost S: set<Particle>)
    requires g.Hosts(b, S, p)
    modifies p
    ensures p.y == old(p.y) && p.x == old(p.x)
    ensures g.Shows(Proc(b, old(p.y), old(p.x)), S) && p.processed && g.Grew()
  {
    g.MarkAt(p.y, p.x, b, S);
  }

  /** The neighbour loop that collects the cells at the given offsets whose
      content satisfies `ok`. */
  method ScanM(g: Grid, y: int, x: int, offs: seq<(int, int)>, ok: Seen -> bool,
               ghost b: Board, ghost S: set<Particle>) returns (cs: seq<(int, int)>)
    requires g.Shows(b, S)
    ensures cs == Scan(b, y, x, offs, ok)
  {
    cs := [];
    var k := 0;
    while k < |offs|
      invariant 0 <= k <= |offs|
      invariant cs == Scan(b, y, x, offs[..k], ok)
    {
      var add := ScanOne(g, y, x, offs[k], ok, b, S);
      ScanSnoc(b, y, x, offs[..k], offs[k], ok);
      assert offs[..k + 1] == offs[..k] + [offs[k]];
      cs := cs + add;
      k := k + 1;
    }
    assert offs[..|offs|] == offs;
  }
  /** The body of the neighbour loop for one offset. */
  method ScanOne(g: Grid, y: int, x: int, d: (int, int), ok: Seen -> bool,
                 ghost b: Board, ghost S: set<Particle>) returns (add: seq<(int, int)>)
    requires g.Shows(b, S)
    ensures add == if InB(b, y + d.0, x + d.1) && ok(Look(b, y + d.0, x + d.1)) then [(y + d.0, x + d.1)] else []
  {
    add := [];
    if g.IsValid(y + d.0, x + d.1) {
      var t := g.Peek(y + d.0, x + d.1, b, S);
      if ok(t) {
        add := [(y + d.0, x + d.1)];
      }
    }
  }


  /** The first cell a scan collects, if any. */
  function First(cs: seq<(int, int)>): (h: Hit)
    ensures h.HitAt? <==> cs != []
    ensures h.HitAt? ==> (h.i, h.j) == cs[0]
  {
    if cs == [] then Miss else HitAt(cs[0].0, cs[0].1)
  }

  /** The neighbour loop that stops at the first cell whose content
      satisfies `ok`. */
  method FindM(g: Grid, y: int, x: int, offs: seq<(int, int)>, ok: Seen -> bool,
               ghost b: Board, ghost S: set<Particle>) returns (h: Hit)
    requires g.Shows(b, S)
    ensures h == First(Scan(b, y, x, offs, ok))
  {
    h := Miss;
    var k := 0;
    while k < |offs| && h.Miss?
      invariant g.Shows(b, S)
      invariant 0 <= k <= |offs|
      invariant h.Miss? ==> Scan(b, y, x, offs[..k], ok) == []
      invariant h.HitAt? ==> h == First(Scan(b, y, x, offs[..k], ok))
    {
      var c := (y + offs[k].0, x + offs[k].1);
      ScanSnoc(b, y, x, offs[..k], offs[k], ok);
      assert offs[..k + 1] == offs[..k] + [offs[k]];
      if g.IsValid(c.0, c.1) {
        var t := g.Peek(c.0, c.1, b, S);
        if ok(t) {
          h := HitAt(c.0, c.1);
        }
      }
      k := k + 1;
    }
    ScanSplit(b, y, x, offs, k, ok);
  }

  /** The neighbour loop in which every candidate gets its own roll and the
      first success ends the loop. */
  method FirstRollM(g: Grid, y: int, x: int, offs: seq<(int, int)>, ok: Seen -> bool, permille: nat, rng: Rng,
                    ghost b: Board, ghost S: set<Particle>) returns (h: Hit, rng': Rng)
    requires g.Shows(b, S)
    ensures (h, rng') == FirstRoll(b, y, x, offs, ok, permille, rng)
  {
    h, rng' := Miss, rng;
    var k := 0;
    while k < |offs| && h.Miss?
      invariant g.Shows(b, S)
      invariant 0 <= k <= |offs|
      invariant h.Miss? ==> FirstRoll(b, y, x, offs, ok, permille, rng) == FirstRoll(b, y, x, offs[k..], ok, permille, rng')
      invariant h.HitAt? ==> (h, rng') == FirstRoll(b, y, x, offs, ok, permille, rng)
    {
      var c := (y + offs[k].0, x + offs[k].1);
      assert offs[k..][1..] == offs[k + 1..];
      if g.IsValid(c.0, c.1) {
        var t := g.Peek(c.0, c.1, b, S);
        if ok(t) {
          var win;
          win, rng' := Chance(rng', permille).0, Chance(rng', permille).1;
          if win {
            h := HitAt(c.0, c.1);
          }
        }
      }
      k := k + 1;
    }
    if h.Miss? {
      assert offs[k..] == [];
    }
  }

  /** `b` with s written into every cell of cs, in order. */
  function SetAll(b: Board, cs: seq<(int, int)>, s: Slot): (r: Board)
    ensures SameShape(b, r)
    decreases |cs|
  {
    if cs == [] then b else Set(SetAll(b, cs[..|cs| - 1], s), cs[|cs| - 1].0, cs[|cs| - 1].1, s)
  }

  lemma {:induction false} SetAllAt(b: Board, cs: seq<(int, int)>, s: Slot, i: int, j: int)
    requires InB(b, i, j)
    ensures SetAll(b, cs, s)[i][j] == if (i, j) in cs then s else b[i][j]
    decreases |cs|
  {
    if cs != [] {
      var front := cs[..|cs| - 1];
      SetAllAt(b, front, s, i, j);
      assert cs == front + [cs[|cs| - 1]];
    }
  }

  /** The loop that writes s into every cell of cs, one after another. */
  method SetAllM(g: Grid, reg: Registry, cs: seq<(int, int)>, key: char, tags: seq<string>, done: bool,
                 ghost b: Board, ghost S: set<Particle>)
    requires g.Shows(b, S)
    modifies g, g.cells
    ensures g.Shows(SetAll(b, cs, Fresh(reg, key, tags, done)), S)
    ensures g.Grew() && unchanged(old(g.Repr))
  {
    ghost var s := Fresh(reg, key, tags, done);
    var k := 0;
    while k < |cs|
      invariant 0 <= k <= |cs|
      invariant g.Shows(SetAll(b, cs[..k], s), S)
      invariant g.Grew() && unchanged(old(g.Repr))
    {
      assert cs[..k + 1][..k] == cs[..k];
      Overwrite(g, reg, key, cs[k].0, cs[k].1, tags, done, SetAll(b, cs[..k], s), S);
      k := k + 1;
    }
    assert cs[..|cs|] == cs;
  }

  // --- Cooling a heat source: water guards the write, ice does not ---

  /** The cooling roll for a heat source t: `emberOdds` for an ember ('B'),
      10% for fire ('F'). */
  function CoolOdds(t: Seen, emberOdds: nat): nat
  {
    if KeyIs(t, 'B') then emberOdds else 100
  }

  /** The cooling of the heat source t at the hit cell: an ember ('B') becomes
      ash ('H') on a roll at `emberOdds`, fire ('F') becomes smoke ('K') on a
      10% roll, and anything else (lava) is left alone without a roll. The
      product is processed. Water (`guarded`) writes the product only when
      its key is registered; ice writes whatever `create_element` gave, so an
      unregistered product empties the heat source's cell. */
  function Quench(reg: Registry, b: Board, h: Hit, t: Seen, emberOdds: nat, guarded: bool, r: Rng): (res: (Board, Rng))
  {
    if KeyIs(t, 'B') then
      var (ok, r1) := Chance(r, emberOdds);
      (if ok && (!guarded || 'H' in reg) then Land(b, h, Fresh(reg, 'H', [], true)) else b, r1)
    else if KeyIs(t, 'F') then
      var (ok, r1) := Chance(r, 100);
      (if ok && (!guarded || 'K' in reg) then Land(b, h, Fresh(reg, 'K', [], true)) else b, r1)
    else (b, r)
  }

  method QuenchM(g: Grid, reg: Registry, h: Hit, t: Seen, emberOdds: nat, guarded: bool, rng: Rng,
                 ghost b: Board, ghost S: set<Particle>) returns (rng': Rng)
    requires g.Shows(b, S)
    modifies g, g.cells
    ensures g.Shows(Quench(reg, b, h, t, emberOdds, guarded, rng).0, S) &&
            rng' == Quench(reg, b, h, t, emberOdds, guarded, rng).1
    ensures g.Grew() && unchanged(old(g.Repr))
  {
    rng' := rng;
    var key := ' ';
    var ok := false;
    if KeyIs(t, 'B') {
      ok, rng' := Chance(rng, emberOdds).0, Chance(rng, emberOdds).1;
      key := 'H';
    } else if KeyIs(t, 'F') {
      ok, rng' := Chance(rng, 100).0, Chance(rng, 100).1;
      key := 'K';
    }
    if ok && (!guarded || key in reg) && h.HitAt? {
      Overwrite(g, reg, key, h.i, h.j, [], true, b, S);
    }
  }

  /** An element at (y, x) replaced by s, then the heat source t at the hit
      cell c quenched: only those two cells change. On its roll an ember
      becomes what key 'H' makes and fire what key 'K' makes, processed
      (when `guarded`, only for a registered key); in every other case the
      heat source's cell is as it was. Only an ember or fire takes a draw. */
  lemma QuenchOne(reg: Registry, b: Board, y: int, x: int, s: Slot, h: Hit, t: Seen, emberOdds: nat, guarded: bool, r: Rng)
    requires InB(b, y, x) && h.HitAt? && InB(b, h.i, h.j) && (h.i, h.j) != (y, x)
    ensures var (b', r') := Quench(reg, Put(b, y, x, s), h, t, emberOdds, guarded, r);
      var ok := Chance(r, CoolOdds(t, emberOdds)).0;
      var ember := KeyIs(t, 'B') && (!guarded || 'H' in reg);
      var fire := KeyIs(t, 'F') && (!guarded || 'K' in reg);
      b'[y][x] == s && Local(b, b', y, x, (h.i, h.j)) &&
      (ember && ok ==> b'[h.i][h.j] == Fresh(reg, 'H', [], true)) &&
      (fire && ok ==> b'[h.i][h.j] == Fresh(reg, 'K', [], true)) &&
      (!(ember || fire) || !ok ==> b'[h.i][h.j] == b[h.i][h.j]) &&
      r' == (if KeyIs(t, 'B') || KeyIs(t, 'F') then Next(r) else r)
  {
    var b1 := Put(b, y, x, s);
    PutTwo(b, y, x, s, (h.i, h.j), Fresh(reg, 'H', [], true));
    PutTwo(b, y, x, s, (h.i, h.j), Fresh(reg, 'K', [], true));
    PutTwo(b, y, x, s, (h.i, h.j), b[h.i][h.j]);
  }

  // --- What the element files test a neighbour for ---

  /** The tags of what is seen; nothing and off-grid carry none. */
  function TagsOf(t: Seen): seq<string>
  {
    if t.Sees? then t.st.tags else []
  }

  /** The key of what is seen; a blank for nothing and for off-grid. */
  function KeyOf(t: Seen): char
  {
    if t.Sees? then Key(t.k) else ' '
  }

  /** What is at the hit cell; nothing for a miss. */
  function LookAt(b: Board, h: Hit): Seen
  {
    if h.HitAt? then Look(b, h.i, h.j) else Off
  }

  method LookAtM(g: Grid, h: Hit, ghost b: Board, ghost S: set<Particle>) returns (t: Seen)
    requires g.Shows(b, S)
    ensures t == LookAt(b, h)
  {
    t := Off;
    if h.HitAt? {
      t := g.Peek(h.i, h.j, b, S);
    }
  }

  /** Something is there and it is not processed yet. */
  predicate Unprocessed(t: Seen) { t.Sees? && !t.st.processed }

  /** `neighbor.is_heat_source` */
  predicate Heat(t: Seen) { t.Sees? && t.st.isHeat }

  /** An empty cell inside the grid. */
  predicate Hole(t: Seen) { t.Vacant? }

  /** The neighbour's key. */
  predicate KeyIs(t: Seen, c: char) { t.Sees? && Key(t.k) == c }

  /** A neighbour fire or an ember may ignite: flammable, not processed, and
      not already fire ('F') or an ember ('B'). */
  predicate Kindling(t: Seen)
  {
    t.Sees? && IsFlammable(t.k) && !t.st.processed && Key(t.k) != 'F' && Key(t.k) != 'B'
  }

  /** An unprocessed element keyed 'W' (water). */
  predicate Wet(t: Seen) { Unprocessed(t) && KeyIs(t, 'W') }

  // --- How an element's update may change the board ---

  /** The two boards have the same rows of the same lengths. */
  predicate SameShape(b: Board, b': Board)
  {
    |b'| == |b| && forall i :: 0 <= i < |b| ==> |b'[i]| == |b[i]|
  }

  /** Slot s' holds the same element as s, in whatever state. */
  predicate Keeps(s: Slot, s': Slot)
  {
    !s'.Empty? && s' == WithSt(s, s'.st)
  }

  /** The element in (y, x) is still there with the same state, only
      marked processed. */
  predicate Marked(b: Board, b': Board, y: int, x: int)
    requires InB(b, y, x) && InB(b', y, x) && !b[y][x].Empty?
  {
    b'[y][x] == WithSt(b[y][x], b[y][x].st.(processed := true))
  }

  /** Apart from cell (y, x), the boards differ in at most one cell. */
  predicate OneOther(b: Board, b': Board, y: int, x: int)
  {
    SameShape(b, b') &&
    forall i, j, k, l ::
      0 <= i < |b| && 0 <= j < |b[i]| && 0 <= k < |b| && 0 <= l < |b[k]| &&
      (i, j) != (y, x) && (k, l) != (y, x) && b'[i][j] != b[i][j] && b'[k][l] != b[k][l]
      ==> i == k && j == l
  }

  /** Apart from cell (y, x), every cell that differs lies at an offset from
      (y, x) that `near` admits. */
  predicate Around(b: Board, b': Board, y: int, x: int, near: (int, int) -> bool)
  {
    SameShape(b, b') &&
    forall i, j :: 0 <= i < |b| && 0 <= j < |b[i]| && (i, j) != (y, x) && b'[i][j] != b[i][j] ==>
      near(i - y, j - x)
  }

  /** Every cell other than (y, x) and c is the same in both boards. */
  predicate Local(b: Board, b': Board, y: int, x: int, c: (int, int))
  {
    SameShape(b, b') &&
    forall i, j :: 0 <= i < |b| && 0 <= j < |b[i]| && (i, j) != (y, x) && (i, j) != c ==>
      b'[i][j] == b[i][j]
  }

  lemma LocalOne(b: Board, b': Board, y: int, x: int, c: (int, int))
    requires Local(b, b', y, x, c)
    ensures OneOther(b, b', y, x)
  {
  }

  lemma LocalAround(b: Board, b': Board, y: int, x: int, c: (int, int), near: (int, int) -> bool)
    requires Local(b, b', y, x, c) && (c == (y, x) || near(c.0 - y, c.1 - x))
    ensures Around(b, b', y, x, near)
  {
  }

  /** Marking the element at (y, x) processed changes nothing else. */
  lemma MarkOnly(b: Board, y: int, x: int)
    requires InB(b, y, x) && !b[y][x].Empty?
    ensures Local(b, Proc(b, y, x), y, x, (y, x)) && Marked(b, Proc(b, y, x), y, x)
  {
  }

  /** Rewriting one other cell c and then marking the element at (y, x). */
  lemma PutMark(b: Board, y: int, x: int, c: (int, int), s: Slot)
    requires InB(b, y, x) && !b[y][x].Empty? && InB(b, c.0, c.1) && c != (y, x)
    ensures var b' := Proc(Set(b, c.0, c.1, s), y, x);
      Local(b, b', y, x, c) && Marked(b, b', y, x) && b'[c.0][c.1] == s
  {
  }

  /** Writing the element's own cell and one other cell c. */
  lemma PutTwo(b: Board, y: int, x: int, s: Slot, c: (int, int), t: Slot)
    requires InB(b, y, x) && InB(b, c.0, c.1) && c != (y, x)
    ensures var b' := Set(Put(b, y, x, s), c.0, c.1, t);
      Local(b, b', y, x, c) && b'[y][x] == s && b'[c.0][c.1] == t
  {
  }

  /** Writing at most the hit cell and marking the element at (y, x). */
  lemma LandMark(b: Board, y: int, x: int, h: Hit, s: Slot, near: (int, int) -> bool)
    requires InB(b, y, x) && !b[y][x].Empty?
    requires h.HitAt? ==> InB(b, h.i, h.j) && (h.i, h.j) != (y, x) && near(h.i - y, h.j - x)
    ensures var b' := Proc(Land(b, h, s), y, x);
      Marked(b, b', y, x) && OneOther(b, b', y, x) && Around(b, b', y, x, near) &&
      forall i, j :: 0 <= i < |b| && 0 <= j < |b[i]| && (i, j) != (y, x) && b'[i][j] != b[i][j] ==>
        h == HitAt(i, j) && b'[i][j] == s
  {
    if h.HitAt? {
      PutMark(b, y, x, (h.i, h.j), s);
      LocalOne(b, Proc(Land(b, h, s), y, x), y, x, (h.i, h.j));
      LocalAround(b, Proc(Land(b, h, s), y, x), y, x, (h.i, h.j), near);
    } else {
      MarkOnly(b, y, x);
      LocalOne(b, Proc(b, y, x), y, x, (y, x));
      LocalAround(b, Proc(b, y, x), y, x, (y, x), near);
    }
  }

  /** Apart from cell (y, x), the hit cell, if any, holds s and every other
      cell is as it was. */
  predicate Elsewhere(b: Board, b': Board, y: int, x: int, h: Hit, s: Slot)
  {
    SameShape(b, b') &&
    forall i, j :: 0 <= i < |b| && 0 <= j < |b[i]| && (i, j) != (y, x) ==>
      b'[i][j] == if h == HitAt(i, j) then s else b[i][j]
  }

  /** Some cell other than (y, x) differs between the two boards. */
  ghost predicate ChangedBesides(b: Board, b': Board, y: int, x: int)
  {
    SameShape(b, b') &&
    exists i, j :: 0 <= i < |b| && 0 <= j < |b[i]| && (i, j) != (y, x) && b'[i][j] != b[i][j]
  }

  /** When the hit cell really gets something new, a board that changed
      only there beside (y, x) changed beside (y, x) exactly on a hit. */
  lemma ChangedOnHit(b: Board, b': Board, y: int, x: int, h: Hit, s: Slot)
    requires Elsewhere(b, b', y, x, h, s)
    requires h.HitAt? ==> InB(b, h.i, h.j) && (h.i, h.j) != (y, x) && b[h.i][h.j] != s
    ensures ChangedBesides(b, b', y, x) <==> h.HitAt?
  {
    if h.HitAt? {
      assert b'[h.i][h.j] != b[h.i][h.j];
    }
  }

  /** Landing on a cell other than (y, x) leaves (y, x) alone. */
  lemma LandElsewhere(b: Board, y: int, x: int, h: Hit, s: Slot)
    requires InB(b, y, x) && (h.HitAt? ==> (h.i, h.j) != (y, x))
    ensures Elsewhere(b, Land(b, h, s), y, x, h, s) && Land(b, h, s)[y][x] == b[y][x]
  {
  }

  /** Writing cell (y, x) afterwards keeps `Elsewhere`. */
  lemma ElsewherePut(b: Board, b': Board, y: int, x: int, h: Hit, s: Slot, t: Slot)
    requires Elsewhere(b, b', y, x, h, s) && InB(b', y, x)
    ensures Elsewhere(b, Put(b', y, x, t), y, x, h, s)
  {
  }

  /** A hit that writes something new is visible on the board. */
  lemma LandSeen(b: Board, y: int, x: int, h: Hit, s: Slot)
    requires InB(b, y, x) && !b[y][x].Empty?
    requires h.HitAt? && InB(b, h.i, h.j) && (h.i, h.j) != (y, x) && b[h.i][h.j] != s
    ensures Proc(Land(b, h, s), y, x) != Proc(b, y, x)
  {
    assert Proc(Land(b, h, s), y, x)[h.i][h.j] != Proc(b, y, x)[h.i][h.j];
  }
}
