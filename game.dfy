// The game object: the frame scheduler that updates every particle at most
// once per tick, the resize copy, painting with the cursor square, and the
// bookkeeping of cursor, cursor size, selection and scroll offset that the
// keyboard handler updates.  Drawing and the screen layout are not modelled:
// the game width the layout derives from the screen width is a parameter.

module Game {
  import opened Kinds
  import opened Oracle
  import opened Boards
  import opened Grids
  import opened ElementManager
  import Archetypes
  import BugRule

  /** `DEFAULT_CURSOR_SIZE` */
  const DefaultCursorSize: int := 1

  /** No item appears twice. */
  predicate NoDup<T(==)>(s: seq<T>)
  {
    forall m, n :: 0 <= m < n < |s| ==> s[m] != s[n]
  }

  // --- The frame scheduler ---

  /** Rows are visited top-down only when key 'a' is registered and the
      current wall-clock second is even. */
  predicate TopDown(reg: Registry, evenSecond: bool)
  {
    'a' in reg && evenSecond
  }

  /** The rows of a tick in visiting order: `range(h)` top-down, otherwise
      `range(h - 1, -1, -1)`. */
  function RowOrder(h: nat, topDown: bool): (r: seq<int>)
    ensures |r| == h
  {
    seq(h, k => if topDown then k else h - 1 - k)
  }

  /** `list(range(n))` */
  function Range(n: nat): (r: seq<int>)
    ensures |r| == n
  {
    seq(n, k => k)
  }

  /** The cells of row y, visited in column order xs. */
  function RowVisits(y: int, xs: seq<int>): (v: seq<(int, int)>)
    ensures |v| == |xs| && forall k :: 0 <= k < |xs| ==> v[k] == (y, xs[k])
  {
    seq(|xs|, k requires 0 <= k < |xs| => (y, xs[k]))
  }

  /** The cells a tick visits: the rows in the given order, each in its own
      column order. */
  function Sweep(order: seq<int>, cols: seq<seq<int>>): seq<(int, int)>
    requires |order| == |cols|
  {
    if order == [] then []
    else Sweep(order[..|order| - 1], cols[..|cols| - 1]) + RowVisits(order[|order| - 1], cols[|cols| - 1])
  }

  // --- Selection and scrolling ---

  /** `_get_list_max_height`: the screen rows left for the element list. */
  function ListHeight(height: int): (lh: int)
    ensures lh >= 1 && lh >= height - 16
  {
    if height - 16 > 1 then height - 16 else 1
  }

  /** The largest scroll offset of a list of `total` items shown `lh` at a
      time. */
  function MaxOffset(total: int, lh: int): (m: int)
    ensures m >= 0 && m >= total - lh
  {
    if total - lh > 0 then total - lh else 0
  }

  /** `_adjust_scroll_for_selection` on a non-empty list. */
  function Scrolled(sel: int, off: int, total: int, lh: int): (o: int)
    requires lh >= 1
    ensures 0 <= o <= MaxOffset(total, lh)
    ensures 0 <= sel < total ==> o <= sel < o + lh
  {
    var o1 := if sel < off then sel else if sel >= off + lh then sel - lh + 1 else off;
    if o1 > MaxOffset(total, lh) then MaxOffset(total, lh) else if o1 < 0 then 0 else o1
  }

  /** The '+' key: the next item, wrapping to the first. */
  function NextIndex(sel: int, total: int): (s: int)
    requires total > 0
    ensures 0 <= s < total
  {
    (sel + 1) % total
  }

  /** The '-' key: the previous item, wrapping to the last. */
  function PrevIndex(sel: int, total: int): (s: int)
    requires total > 0
    ensures 0 <= s < total
  {
    (sel - 1 + total) % total
  }

  /** PageDown: half a list height further, at most the last offset. */
  function PageDown(off: int, lh: int, total: int): (o: int)
    requires lh >= 1
    ensures o <= MaxOffset(total, lh) && (0 <= off ==> 0 <= o) && (off <= MaxOffset(total, lh) ==> off <= o)
    ensures o == off + lh / 2 || o == MaxOffset(total, lh)
  {
    var o := off + lh / 2;
    if o < MaxOffset(total, lh) then o else MaxOffset(total, lh)
  }

  /** PageUp: half a list height back, at least 0. */
  function PageUp(off: int, lh: int): (o: int)
    requires lh >= 1
    ensures 0 <= o <= off || (o == 0 && off < 0)
    ensures o == off - lh / 2 || o == 0
  {
    var o := off - lh / 2;
    if o > 0 then o else 0
  }

  function Min(a: int, b: int): int
  {
    if a < b then a else b
  }

  /** `min(max(0, v), n - 1)` */
  function Clamp(v: int, n: int): (c: int)
    requires n >= 1
    ensures 0 <= c < n
    ensures 0 <= v < n ==> c == v
  {
    if v < 0 then 0 else if v > n - 1 then n - 1 else v
  }

  // --- The cursor square ---

  /** What the cursor action writes into each in-grid cell of the square:
      nothing (delete), or a new element made by key with a copy of the
      current tags (place). */
  datatype Brush = Rub | Paint(key: char, tags: seq<string>)

  /** The slot one application of the brush leaves; a key that is not
      registered makes no element, so its cell is emptied. */
  function BrushSlot(reg: Registry, br: Brush): (s: Slot)
    ensures br.Paint? && br.key in reg ==> s == New(reg[br.key], Initial(reg[br.key], br.tags))
    ensures !(br.Paint? && br.key in reg) ==> s == Empty
  {
    match br
    case Rub => Empty
    case Paint(key, tags) => if key in reg then New(reg[key], Initial(reg[key], tags)) else Empty
  }

  /** The size-by-size square whose top-left corner is (y0, x0). */
  predicate InSquare(i: int, j: int, y0: int, x0: int, size: int)
  {
    y0 <= i < y0 + size && x0 <= j < x0 + size
  }

  /** Top-left corner of the square around cursor coordinate c. */
  function Corner(c: int, size: int): int
  {
    c - (size - 1) / 2
  }

  /** The board with slot s written into every cell of the square. */
  function Stamp(b: Board, y0: int, x0: int, size: int, s: Slot): (r: Board)
    ensures |r| == |b| && forall i :: 0 <= i < |b| ==> |r[i]| == |b[i]|
  {
    seq(|b|, i requires 0 <= i < |b| =>
      seq(|b[i]|, j requires 0 <= j < |b[i]| => if InSquare(i, j, y0, x0, size) then s else b[i][j]))
  }

  // --- Resize ---

  /** An element re-created by its key, with its tags copied and every other
      field as a new element has it; nothing when the key is not
      registered. */
  function Recreated(reg: Registry, s: Slot): (r: Slot)
  {
    if s.Empty? || Key(KindOf(s)) !in reg then Empty
    else New(reg[Key(KindOf(s))], Initial(reg[Key(KindOf(s))], s.st.tags))
  }

  /** The new h-by-w grid of `resize`: the cells of the first `rows` rows
      and `cols` columns of the old board re-created, all others empty. */
  function Resized(reg: Registry, b: Board, rows: int, cols: int, h: nat, w: nat): (r: Board)
    ensures Shaped(r, h, w)
  {
    seq(h, i requires 0 <= i < h =>
      seq(w, j requires 0 <= j < w => if i < rows && j < cols && InB(b, i, j) then Recreated(reg, b[i][j]) else Empty))
  }

  // --- Properties ---

  /** `range(n)` holds each of 0..n-1 once and nothing else. */
  lemma {:induction false} RangeCount(n: nat, j: int)
    ensures multiset(Range(n))[j] == if 0 <= j < n then 1 else 0
  {
    if n > 0 {
      assert Range(n) == Range(n - 1) + [n - 1];
      RangeCount(n - 1, j);
    }
  }

  /** A row's visits hold cell (y, j) as often as its column order holds j. */
  lemma {:induction false} RowVisitsCount(y: int, xs: seq<int>, i: int, j: int)
    ensures multiset(RowVisits(y, xs))[(i, j)] == if i == y then multiset(xs)[j] else 0
  {
    if xs != [] {
      var n := |xs| - 1;
      assert RowVisits(y, xs) == RowVisits(y, xs[..n]) + [(y, xs[n])];
      assert xs == xs[..n] + [xs[n]];
      RowVisitsCount(y, xs[..n], i, j);
    }
  }

  /** Visiting distinct rows, each in an order with the same multiset of
      columns M, visits cell (i, j) M[j] times when row i is among them and
      never otherwise. */
  lemma {:induction false} SweepCount(order: seq<int>, cols: seq<seq<int>>, M: multiset<int>, i: int, j: int)
    requires |order| == |cols| && NoDup(order)
    requires forall r :: 0 <= r < |cols| ==> multiset(cols[r]) == M
    ensures multiset(Sweep(order, cols))[(i, j)] == if i in order then M[j] else 0
  {
    if order != [] {
      var n := |order| - 1;
      assert order == order[..n] + [order[n]];
      assert NoDup(order[..n]);
      SweepCount(order[..n], cols[..n], M, i, j);
      RowVisitsCount(order[n], cols[n], i, j);
    }
  }

  /** Either row order lists every row of the grid exactly once. */
  lemma RowOrderCovers(h: nat, topDown: bool, i: int)
    ensures NoDup(RowOrder(h, topDown))
    ensures i in RowOrder(h, topDown) <==> 0 <= i < h
  {
    var r := RowOrder(h, topDown);
    if 0 <= i < h {
      assert r[if topDown then i else h - 1 - i] == i;
    }
  }

  /** A tick visits every cell of an h-by-w grid exactly once and nothing
      outside it, whichever row order and column shuffles it uses. */
  lemma SweepOnce(h: nat, w: nat, topDown: bool, cols: seq<seq<int>>, i: int, j: int)
    requires |cols| == h && forall r :: 0 <= r < h ==> multiset(cols[r]) == multiset(Range(w))
    ensures multiset(Sweep(RowOrder(h, topDown), cols))[(i, j)] == if 0 <= i < h && 0 <= j < w then 1 else 0
  {
    RowOrderCovers(h, topDown, i);
    SweepCount(RowOrder(h, topDown), cols, multiset(Range(w)), i, j);
    RangeCount(w, j);
  }

  /** A sum of two indices below t, taken modulo t. */
  lemma ModOnce(x: int, t: int)
    requires 0 <= x < 2 * t
    ensures x % t == if x < t then x else x - t
  {
    if x < t {
      assert x == 0 * t + x;
    } else {
      assert x == 1 * t + (x - t);
    }
  }

  /** '-' undoes '+' and '+' undoes '-'. */
  lemma NextPrev(sel: int, total: int)
    requires 0 <= sel < total
    ensures PrevIndex(NextIndex(sel, total), total) == sel
    ensures NextIndex(PrevIndex(sel, total), total) == sel
  {
    ModOnce(sel + 1, total);
    ModOnce(sel - 1 + total, total);
    var n, p := NextIndex(sel, total), PrevIndex(sel, total);
    ModOnce(n - 1 + total, total);
    ModOnce(p + 1, total);
  }

  /** A selection already in view, at an offset in range, leaves the list
      where it is. */
  lemma ScrollSteady(sel: int, off: int, total: int, lh: int)
    requires lh >= 1 && 0 <= off <= MaxOffset(total, lh) && off <= sel < off + lh
    ensures Scrolled(sel, off, total, lh) == off
  {
  }

  /** The square holds the cursor, with (size - 1) / 2 cells before it and
      size / 2 after it in each direction: an even-sized square reaches one
      cell further down and right than up and left. */
  lemma CursorCentred(c: int, size: int)
    requires size >= 1
    ensures Corner(c, size) <= c < Corner(c, size) + size
    ensures c - Corner(c, size) == (size - 1) / 2 && Corner(c, size) + size - 1 - c == size / 2
  {
  }

  /** Applying the same brush twice at the same place is applying it once. */
  lemma StampTwice(b: Board, y0: int, x0: int, size: int, s: Slot)
    ensures Stamp(Stamp(b, y0, x0, size, s), y0, x0, size, s) == Stamp(b, y0, x0, size, s)
  {
    var once := Stamp(b, y0, x0, size, s);
    var twice := Stamp(once, y0, x0, size, s);
    assert forall i :: 0 <= i < |b| ==> twice[i] == once[i];
  }

  /** Re-creating an element keeps its key and its tags and gives every
      other field the value a new element of the registered kind has.  The
      kind is the registry's for that key, which for a key two kinds share
      need not be the old kind. */
  lemma RecreatedKeeps(reg: Registry, s: Slot)
    requires Consistent(reg) && !s.Empty? && Key(KindOf(s)) in reg
    ensures var r := Recreated(reg, s);
      r.New? && Key(r.k) == Key(KindOf(s)) && r.st == Initial(r.k, s.st.tags)
  {
  }

  /** An ember re-created under a registry whose 'B' is the bomb becomes a
      bomb. */
  lemma EmberBecomesBomb(reg: Registry, p: Particle, st: St)
    requires 'B' in reg && reg['B'] == Bomb && p.kind == Ember
    ensures Recreated(reg, Old(p, st)) == New(Bomb, Initial(Bomb, st.tags))
  {
  }

  /** Re-creating what was re-created changes nothing. */
  lemma RecreatedTwice(reg: Registry, s: Slot)
    requires Consistent(reg)
    ensures Recreated(reg, Recreated(reg, s)) == Recreated(reg, s)
  {
    if !s.Empty? && Key(KindOf(s)) in reg {
      RecreatedKeeps(reg, s);
    }
  }

  /** Resizing a grid up and back down to its own size gives the same
      board as resizing it to its own size directly: nothing of the old
      grid is lost on the way. */
  lemma {:induction false} GrowShrink(reg: Registry, b: Board, h: nat, w: nat, H: nat, W: nat)
    requires Consistent(reg) && Shaped(b, h, w) && h <= H && w <= W
    ensures Resized(reg, Resized(reg, b, h, w, H, W), H, W, h, w) == Resized(reg, b, h, w, h, w)
  {
    var big := Resized(reg, b, h, w, H, W);
    var back := Resized(reg, big, H, W, h, w);
    var direct := Resized(reg, b, h, w, h, w);
    forall i, j | 0 <= i < h && 0 <= j < w
      ensures back[i][j] == direct[i][j]
    {
      RecreatedTwice(reg, b[i][j]);
    }
    assert forall i :: 0 <= i < h ==> back[i] == direct[i];
  }

  /** A key press as `getch` reports it. */
  datatype Press = Char(c: char) | KeyUp | KeyDown | KeyLeft | KeyRight | KeyDelete | KeyPageDown | KeyPageUp | KeyOther

  /** The keys that move or resize the cursor. */
  predicate Moves(key: Press)
  {
    key in {KeyUp, KeyDown, KeyLeft, KeyRight, Char('k'), Char('j'), Char('h'), Char('l'), Char('['), Char(']')}
  }

  class Game {
    /** screen size */
    var height: int
    var width: int
    /** size of the game area */
    var gameHeight: int
    var gameWidth: int
    var grid: Grid
    var cursorX: int
    var cursorY: int
    var cursorSize: int
    var selected: int
    var scroll: int
    var tags: seq<string>
    var running: bool
    var commandMode: bool
    /** the element registry and the placeable order */
    const reg: Registry
    const keys: seq<char>
    /** Bug's class-level direction list, shared by every bug */
    const md: BugRule.Directions

    /** The bookkeeping stays in range: cursor size within its bounds, the
        scroll offset within the list, the selection (if any) at an item. */
    ghost predicate Inv()
      reads this, grid, grid.cells, grid.Repr
    {
      grid.Valid() && height >= 1 && width >= 1 && gameHeight >= 1 && gameWidth >= 1 &&
      1 <= cursorSize <= MaxCursorSize &&
      0 <= scroll <= MaxOffset(|keys|, ListHeight(height)) &&
      (keys == [] ==> selected == 0) && (keys != [] ==> 0 <= selected < |keys|)
    }

    /** The cursor is on a cell of the grid. */
    predicate CursorIn()
      reads this
    {
      grid.IsValid(cursorY, cursorX)
    }

    /** `Game(height, width, ratio)`, given `scaled`, the screen width (at
        least 1) times the ratio, rounded down. */
    constructor (h: int, w: int, scaled: int, reg0: Registry, keys0: seq<char>)
      ensures Inv() && CursorIn() && fresh(grid) && grid.Shows(Blank(gameHeight, gameWidth), {})
      ensures height == (if h > 1 then h else 1) && width == (if w > 1 then w else 1)
      ensures gameHeight == (if height - 1 > 1 then height - 1 else 1) && gameWidth == (if scaled > 1 then scaled else 1)
      ensures grid.height == gameHeight && grid.width == gameWidth
      ensures cursorX == gameWidth / 2 && cursorY == gameHeight / 2 && cursorSize == DefaultCursorSize
      ensures selected == 0 && scroll == 0 && tags == [] && running && !commandMode
      ensures reg == reg0 && keys == keys0
    {
      var hh := if h > 1 then h else 1;
      var ww := if w > 1 then w else 1;
      var gh := if hh - 1 > 1 then hh - 1 else 1;
      var gw := if scaled > 1 then scaled else 1;
      height, width, gameHeight, gameWidth := hh, ww, gh, gw;
      grid := new Grid(gh, gw);
      cursorX, cursorY, cursorSize := gw / 2, gh / 2, DefaultCursorSize;
      selected, scroll, tags := 0, 0, [];
      running, commandMode := true, false;
      reg, keys := reg0, keys0;
      md := new BugRule.Directions();
    }

    /** `update`: clears every processed flag, then visits the rows in their
        order and each row's columns in a fresh shuffle of 0..width-1, and
        updates each particle found unprocessed in its own cell.  The ghost
        results are the board right after the flags are cleared, the column
        orders, the cells visited and the particles updated: the cleared
        board is the old one with every element unprocessed and nothing else
        changed, each visited row's columns are a permutation, and no
        particle is updated twice. */
    method Tick(evenSecond: bool, rng: Rng)
      returns (rng': Rng, ghost reset: Board, ghost cols: seq<seq<int>>, ghost visits: seq<(int, int)>,
               ghost updated: seq<Particle>)
      requires Inv()
      modifies grid, grid.cells, grid.Repr, md
      ensures Inv()
      ensures Shaped(reset, grid.height, grid.width) &&
              forall i, j :: 0 <= i < grid.height && 0 <= j < grid.width ==>
                reset[i][j] == Unmark(old(SlotOf(grid.cells[i, j])))
      ensures |cols| == grid.height && forall r :: 0 <= r < |cols| ==> multiset(cols[r]) == multiset(Range(grid.width))
      ensures visits == Sweep(RowOrder(grid.height, TopDown(reg, evenSecond)), cols)
      ensures NoDup(updated) && forall q :: q in updated ==> q in grid.Repr && q.processed
    {
      ghost var b0 := grid.Capture();
      assert forall i, j :: 0 <= i < grid.height && 0 <= j < grid.width ==> b0[i][j] == old(SlotOf(grid.cells[i, j]));
      grid.ResetProcessed(b0, grid.Repr);
      reset := MapUpTo(b0, Unmark, grid.height, 0);
      var order := RowOrder(grid.height, false);
      if 'a' in reg {
        if evenSecond {
          order := RowOrder(grid.height, true);
        }
      }
      rng', cols, visits, updated := Rows(order, rng);
    }

    /** The rows of a tick, in the given order. */
    method Rows(order: seq<int>, rng: Rng)
      returns (rng': Rng, ghost cols: seq<seq<int>>, ghost visits: seq<(int, int)>, ghost updated: seq<Particle>)
      requires Inv()
      modifies grid, grid.cells, grid.Repr, md
      ensures Inv()
      ensures |cols| == |order| && forall r :: 0 <= r < |cols| ==> multiset(cols[r]) == multiset(Range(grid.width))
      ensures visits == Sweep(order, cols)
      ensures NoDup(updated) && forall q :: q in updated ==> q in grid.Repr && q.processed
    {
      rng' := rng;
      cols, visits, updated := [], [], [];
      var r := 0;
      while r < |order|
        invariant 0 <= r <= |order| && |cols| == r && Inv()
        invariant old(grid.Repr) <= grid.Repr && fresh(grid.Repr - old(grid.Repr))
        invariant forall k :: 0 <= k < r ==> multiset(cols[k]) == multiset(Range(grid.width))
        invariant visits == Sweep(order[..r], cols)
        invariant NoDup(updated) && forall q :: q in updated ==> q in grid.Repr && q.processed
      {
        var xs;
        ghost var row;
        xs, rng', row, updated := TickRow(order[r], rng', updated);
        assert order[..r + 1][..r] == order[..r] && (cols + [xs])[..r] == cols;
        visits := visits + row;
        cols := cols + [xs];
        r := r + 1;
      }
      assert order[..|order|] == order;
    }

    /** One row of a tick: a fresh shuffle of the columns, then the cells of
        the row in that order. */
    method TickRow(y: int, rng: Rng, ghost done: seq<Particle>)
      returns (xs: seq<int>, rng': Rng, ghost row: seq<(int, int)>, ghost updated: seq<Particle>)
      requires Inv()
      requires NoDup(done) && forall q :: q in done ==> q in grid.Repr && q.processed
      modifies grid, grid.cells, grid.Repr, md
      ensures Inv() && old(grid.Repr) <= grid.Repr && fresh(grid.Repr - old(grid.Repr))
      ensures multiset(xs) == multiset(Range(grid.width)) && row == RowVisits(y, xs)
      ensures NoDup(updated) && forall q :: q in updated ==> q in grid.Repr && q.processed
    {
      var r1;
      xs, r1 := ShuffleM(Range(grid.width), rng);
      ShufflePerm(Range(grid.width), rng);
      rng', row, updated := VisitRow(y, xs, r1, done);
    }

    /** The cells (y, x) for x in xs, in that order. */
    method VisitRow(y: int, xs: seq<int>, rng: Rng, ghost done: seq<Particle>)
      returns (rng': Rng, ghost row: seq<(int, int)>, ghost updated: seq<Particle>)
      requires Inv()
      requires NoDup(done) && forall q :: q in done ==> q in grid.Repr && q.processed
      modifies grid, grid.cells, grid.Repr, md
      ensures Inv() && old(grid.Repr) <= grid.Repr && fresh(grid.Repr - old(grid.Repr))
      ensures row == RowVisits(y, xs)
      ensures NoDup(updated) && forall q :: q in updated ==> q in grid.Repr && q.processed
    {
      rng', row, updated := rng, [], done;
      var k := 0;
      while k < |xs|
        invariant 0 <= k <= |xs| && Inv()
        invariant old(grid.Repr) <= grid.Repr && fresh(grid.Repr - old(grid.Repr))
        invariant row == RowVisits(y, xs[..k])
        invariant NoDup(updated) && forall q :: q in updated ==> q in grid.Repr && q.processed
      {
        var x := xs[k];
        var e := grid.GetElement(y, x);
        if e != null && !e.processed && e.y == y && e.x == x {
          rng', updated := Visit(e, rng', updated);
        }
        row := row + [(y, x)];
        assert xs[..k + 1] == xs[..k] + [x];
        k := k + 1;
      }
      assert xs[..|xs|] == xs;
    }

    /** `element.update(grid)` for an element found unprocessed in its own
        cell: it ends processed, and so it cannot be updated again. */
    method Visit(e: Particle, rng: Rng, ghost done: seq<Particle>) returns (rng': Rng, ghost updated: seq<Particle>)
      requires Inv() && grid.IsLive(e) && !e.processed
      requires NoDup(done) && forall q :: q in done ==> q in grid.Repr && q.processed
      modifies grid, grid.cells, grid.Repr, md
      ensures Inv() && old(grid.Repr) <= grid.Repr && fresh(grid.Repr - old(grid.Repr))
      ensures updated == done + [e]
      ensures NoDup(updated) && forall q :: q in updated ==> q in grid.Repr && q.processed
    {
      ghost var b := grid.Capture();
      ghost var nb;
      rng', nb := Archetypes.UpdateM(grid, e, reg, keys, md, rng, b, grid.Repr);
      updated := done + [e];
    }

    /** `_get_selected_element_class`: nothing for an empty list; the class
        of the selected key; and for a selection off the list, the selection
        reset to 0 and the class of the first key. */
    method SelectedClass() returns (cls: Option<Kind>)
      modifies this`selected
      ensures keys == [] ==> cls == None && selected == old(selected)
      ensures keys != [] && 0 <= old(selected) < |keys| ==> cls == Lookup(reg, keys[old(selected)]) && selected == old(selected)
      ensures keys != [] && !(0 <= old(selected) < |keys|) ==> cls == Lookup(reg, keys[0]) && selected == 0
    {
      if keys == [] {
        return None;
      }
      if 0 <= selected < |keys| {
        cls := Lookup(reg, keys[selected]);
      } else {
        selected := 0;
        cls := Lookup(reg, keys[0]);
      }
    }

    /** Selects item i of the placeable list and scrolls the list to show it. */
    method SelectAt(i: int)
      requires Inv() && 0 <= i < |keys|
      modifies this`selected, this`scroll
      ensures Inv() && selected == i
      ensures scroll == Scrolled(i, old(scroll), |keys|, ListHeight(height))
    {
      selected := i;
      AdjustScroll();
    }

    /** `_adjust_scroll_for_selection` */
    method AdjustScroll()
      modifies this`scroll
      ensures keys == [] ==> scroll == old(scroll)
      ensures keys != [] ==> scroll == Scrolled(selected, old(scroll), |keys|, ListHeight(height))
    {
      if keys == [] {
        return;
      }
      scroll := Scrolled(selected, scroll, |keys|, ListHeight(height));
    }

    /** `_apply_cursor_action`: every in-grid cell of the cursor square gets
        what the brush makes, each a particle of its own; no other cell
        changes. */
    method ApplyCursor(br: Brush, ghost b: Board, ghost S: set<Particle>)
      requires grid.Shows(b, S)
      modifies grid, grid.cells
      ensures grid.Shows(Stamp(b, Corner(cursorY, cursorSize), Corner(cursorX, cursorSize), cursorSize, BrushSlot(reg, br)), S)
      ensures old(grid.Repr) <= grid.Repr
    {
      var y0, x0 := Corner(cursorY, cursorSize), Corner(cursorX, cursorSize);
      ghost var s := BrushSlot(reg, br);
      ghost var cur := b;
      var cy := y0;
      while cy < y0 + cursorSize
        invariant y0 <= cy && (cy <= y0 + cursorSize || cy == y0)
        invariant grid.Shows(cur, S) && old(grid.Repr) <= grid.Repr
        invariant forall i, j :: 0 <= i < grid.height && 0 <= j < grid.width ==>
          cur[i][j] == if InSquare(i, j, y0, x0, cursorSize) && i < cy then s else b[i][j]
      {
        cur := PaintRow(br, cy, x0, b, cur, S);
        cy := cy + 1;
      }
      ghost var want := Stamp(b, y0, x0, cursorSize, s);
      assert forall i :: 0 <= i < |b| ==> cur[i] == want[i];
    }

    /** One row of the cursor square. */
    method PaintRow(br: Brush, cy: int, x0: int, ghost b: Board, ghost cur: Board, ghost S: set<Particle>)
      returns (ghost cur': Board)
      requires grid.Shows(cur, S) && Shaped(b, grid.height, grid.width)
      modifies grid, grid.cells
      ensures grid.Shows(cur', S) && old(grid.Repr) <= grid.Repr
      ensures forall i, j :: 0 <= i < grid.height && 0 <= j < grid.width ==>
        cur'[i][j] == if i == cy && x0 <= j < x0 + cursorSize then BrushSlot(reg, br) else cur[i][j]
    {
      cur' := cur;
      var cx := x0;
      while cx < x0 + cursorSize
        invariant x0 <= cx && (cx <= x0 + cursorSize || cx == x0)
        invariant grid.Shows(cur', S) && old(grid.Repr) <= grid.Repr
        invariant forall i, j :: 0 <= i < grid.height && 0 <= j < grid.width ==>
          cur'[i][j] == if i == cy && x0 <= j < cx then BrushSlot(reg, br) else cur[i][j]
      {
        if grid.IsValid(cy, cx) {
          cur' := PaintCell(br, cy, cx, cur', S);
        }
        cx := cx + 1;
      }
    }

    /** One in-grid cell of the cursor square: `set_element(cy, cx,
        action(cy, cx))`. */
    method PaintCell(br: Brush, cy: int, cx: int, ghost cur: Board, ghost S: set<Particle>) returns (ghost cur': Board)
      requires grid.Shows(cur, S) && grid.IsValid(cy, cx)
      modifies grid, grid.cells
      ensures cur' == Set(cur, cy, cx, BrushSlot(reg, br))
      ensures grid.Shows(cur', S) && old(grid.Repr) <= grid.Repr
    {
      var e: Particle? := null;
      if br.Paint? {
        e := grid.CreateElement(reg, br.key, cy, cx, br.tags);
      }
      if e != null {
        grid.Place(cy, cx, e, cur, S);
      } else {
        grid.ClearCell(cy, cx, cur, S);
      }
      cur' := Set(cur, cy, cx, BrushSlot(reg, br));
    }

    /** `handle_input` without drawing: the keys that move the cursor, size
        the cursor, place or delete under the cursor, change the selection,
        scroll the element list, clear the grid, quit or enter command mode.
        The bookkeeping stays in range, the cursor stays on the grid once it
        is on it, and the grid object stays the same. */
    method HandleInput(key: Press) returns (handled: bool)
      requires Inv()
      modifies this`running, this`commandMode, this`cursorX, this`cursorY, this`cursorSize, this`selected, this`scroll
      modifies grid, grid.cells
      ensures Inv()
      ensures old(CursorIn()) ==> CursorIn()
      ensures old(commandMode) ==> !handled && cursorX == old(cursorX) && cursorY == old(cursorY)
      ensures !old(commandMode) && (key == Char('q') || key == Char('Q')) ==> handled && !running
      ensures !old(commandMode) && key == Char('/') ==> handled && commandMode
      ensures !old(commandMode) && (key == Char('+') || key == Char('=')) && keys != [] ==>
        handled && selected == NextIndex(old(selected), |keys|)
      ensures !old(commandMode) && (key == Char('-') || key == Char('_')) && keys != [] ==>
        handled && selected == PrevIndex(old(selected), |keys|)
      ensures !old(commandMode) && key == Char('[') ==>
        handled && cursorSize == (if old(cursorSize) > 1 then old(cursorSize) - 1 else 1)
      ensures !old(commandMode) && key == Char(']') ==>
        handled && cursorSize == (if old(cursorSize) < MaxCursorSize then old(cursorSize) + 1 else MaxCursorSize)
      ensures !old(commandMode) && (key == KeyUp || key == Char('k')) ==>
        handled && cursorY == (if old(cursorY) > 0 then old(cursorY) - 1 else 0) && cursorX == old(cursorX)
      ensures !old(commandMode) && (key == KeyDown || key == Char('j')) ==>
        handled && cursorY == (if old(cursorY) < grid.height - 1 then old(cursorY) + 1 else grid.height - 1) &&
        cursorX == old(cursorX)
      ensures !old(commandMode) && (key == KeyLeft || key == Char('h')) ==>
        handled && cursorX == (if old(cursorX) > 0 then old(cursorX) - 1 else 0) && cursorY == old(cursorY)
      ensures !old(commandMode) && (key == KeyRight || key == Char('l')) ==>
        handled && cursorX == (if old(cursorX) < grid.width - 1 then old(cursorX) + 1 else grid.width - 1) &&
        cursorY == old(cursorY)
      ensures !old(commandMode) && key.Char? && '1' <= key.c <= '9' ==>
        handled == (keys != []) &&
        selected == (if key.c as int - '1' as int < |keys| then key.c as int - '1' as int else old(selected))
      ensures !old(commandMode) && key == KeyPageDown ==> handled && scroll == PageDown(old(scroll), ListHeight(height), |keys|)
      ensures !old(commandMode) && key == KeyPageUp ==> handled && scroll == PageUp(old(scroll), ListHeight(height))
      ensures !old(commandMode) && key == KeyOther ==> !handled
    {
      if commandMode {
        return false;
      }
      if key == Char('q') || key == Char('Q') {
        running := false;
        return true;
      } else if key == Char(' ') || key == KeyDelete || key == Char('x') || key == Char('c') || key == Char('C') {
        handled := Edit(key);
      } else if key == Char('/') {
        commandMode := true;
        return true;
      } else {
        handled := Steer(key);
      }
    }

    /** The keys that reach neither the quit, the edit nor the command-mode
        branch: the cursor keys, then the element list's keys. */
    method Steer(key: Press) returns (handled: bool)
      requires Inv()
      modifies this`cursorX, this`cursorY, this`cursorSize, this`selected, this`scroll
      ensures Inv()
      ensures old(CursorIn()) ==> CursorIn()
      ensures (key == Char('+') || key == Char('=')) && keys != [] ==>
        handled && selected == NextIndex(old(selected), |keys|)
      ensures (key == Char('-') || key == Char('_')) && keys != [] ==>
        handled && selected == PrevIndex(old(selected), |keys|)
      ensures key == Char('[') ==>
        handled && cursorSize == (if old(cursorSize) > 1 then old(cursorSize) - 1 else 1)
      ensures key == Char(']') ==>
        handled && cursorSize == (if old(cursorSize) < MaxCursorSize then old(cursorSize) + 1 else MaxCursorSize)
      ensures (key == KeyUp || key == Char('k')) ==>
        handled && cursorY == (if old(cursorY) > 0 then old(cursorY) - 1 else 0) && cursorX == old(cursorX)
      ensures (key == KeyDown || key == Char('j')) ==>
        handled && cursorY == (if old(cursorY) < grid.height - 1 then old(cursorY) + 1 else grid.height - 1) &&
        cursorX == old(cursorX)
      ensures (key == KeyLeft || key == Char('h')) ==>
        handled && cursorX == (if old(cursorX) > 0 then old(cursorX) - 1 else 0) && cursorY == old(cursorY)
      ensures (key == KeyRight || key == Char('l')) ==>
        handled && cursorX == (if old(cursorX) < grid.width - 1 then old(cursorX) + 1 else grid.width - 1) &&
        cursorY == old(cursorY)
      ensures key.Char? && '1' <= key.c <= '9' ==>
        handled == (keys != []) &&
        selected == (if key.c as int - '1' as int < |keys| then key.c as int - '1' as int else old(selected))
      ensures key == KeyPageDown ==> handled && scroll == PageDown(old(scroll), ListHeight(height), |keys|)
      ensures key == KeyPageUp ==> handled && scroll == PageUp(old(scroll), ListHeight(height))
      ensures key == KeyOther ==> !handled
    {
      if Moves(key) {
        handled := Navigate(key);
      } else {
        handled := ListKey(key);
      }
    }

    /** The keys that move the cursor one cell, stopping at the grid's
        edges, and that shrink or grow the cursor within 1..MaxCursorSize. */
    method Navigate(key: Press) returns (handled: bool)
      requires Inv()
      modifies this`cursorX, this`cursorY, this`cursorSize
      ensures handled && Inv() && (old(CursorIn()) ==> CursorIn())
      ensures key == Char('[') ==> cursorSize == (if old(cursorSize) > 1 then old(cursorSize) - 1 else 1)
      ensures key == Char(']') ==>
        cursorSize == (if old(cursorSize) < MaxCursorSize then old(cursorSize) + 1 else MaxCursorSize)
      ensures (key == KeyUp || key == Char('k')) ==>
        cursorY == (if old(cursorY) > 0 then old(cursorY) - 1 else 0) && cursorX == old(cursorX)
      ensures (key == KeyDown || key == Char('j')) ==>
        cursorY == (if old(cursorY) < grid.height - 1 then old(cursorY) + 1 else grid.height - 1) && cursorX == old(cursorX)
      ensures (key == KeyLeft || key == Char('h')) ==>
        cursorX == (if old(cursorX) > 0 then old(cursorX) - 1 else 0) && cursorY == old(cursorY)
      ensures (key == KeyRight || key == Char('l')) ==>
        cursorX == (if old(cursorX) < grid.width - 1 then old(cursorX) + 1 else grid.width - 1) && cursorY == old(cursorY)
    {
      handled := true;
      if key == KeyUp || key == Char('k') {
        cursorY := if cursorY - 1 > 0 then cursorY - 1 else 0;
      } else if key == KeyDown || key == Char('j') {
        cursorY := if cursorY + 1 < grid.height - 1 then cursorY + 1 else grid.height - 1;
      } else if key == KeyLeft || key == Char('h') {
        cursorX := if cursorX - 1 > 0 then cursorX - 1 else 0;
      } else if key == KeyRight || key == Char('l') {
        cursorX := if cursorX + 1 < grid.width - 1 then cursorX + 1 else grid.width - 1;
      } else if key == Char('[') {
        cursorSize := if cursorSize - 1 > 1 then cursorSize - 1 else 1;
      } else if key == Char(']') {
        cursorSize := if cursorSize + 1 < MaxCursorSize then cursorSize + 1 else MaxCursorSize;
      }
    }

    /** The keys of the element list: a digit selects that item when the
        list has it, '+' and '-' step round the list, and PageDown and
        PageUp scroll half a list height; a selection keeps its item in
        view.  On an empty list only the page keys count as handled. */
    method ListKey(key: Press) returns (handled: bool)
      requires Inv()
      modifies this`selected, this`scroll
      ensures Inv()
      ensures (key == Char('+') || key == Char('=')) && keys != [] ==> handled && selected == NextIndex(old(selected), |keys|)
      ensures (key == Char('-') || key == Char('_')) && keys != [] ==> handled && selected == PrevIndex(old(selected), |keys|)
      ensures key.Char? && '1' <= key.c <= '9' ==>
        handled == (keys != []) &&
        selected == (if key.c as int - '1' as int < |keys| then key.c as int - '1' as int else old(selected))
      ensures key == KeyPageDown ==> handled && scroll == PageDown(old(scroll), ListHeight(height), |keys|)
      ensures key == KeyPageUp ==> handled && scroll == PageUp(old(scroll), ListHeight(height))
      ensures key == KeyOther ==> !handled
      ensures selected != old(selected) ==> scroll == Scrolled(selected, old(scroll), |keys|, ListHeight(height))
    {
      if key == KeyPageDown || key == KeyPageUp {
        var lh := ListHeight(height);
        scroll := if key == KeyPageDown then PageDown(scroll, lh, |keys|) else PageUp(scroll, lh);
        return true;
      }
      handled := Choose(key);
    }

    /** The selection keys: a digit, '+' or '-'. */
    method Choose(key: Press) returns (handled: bool)
      requires Inv() && key != KeyPageDown && key != KeyPageUp
      modifies this`selected, this`scroll
      ensures Inv()
      ensures (key == Char('+') || key == Char('=')) && keys != [] ==> handled && selected == NextIndex(old(selected), |keys|)
      ensures (key == Char('-') || key == Char('_')) && keys != [] ==> handled && selected == PrevIndex(old(selected), |keys|)
      ensures key.Char? && '1' <= key.c <= '9' ==>
        handled == (keys != []) &&
        selected == (if key.c as int - '1' as int < |keys| then key.c as int - '1' as int else old(selected))
      ensures key == KeyOther ==> !handled
      ensures selected != old(selected) ==> scroll == Scrolled(selected, old(scroll), |keys|, ListHeight(height))
    {
      var total := |keys|;
      handled := false;
      if key.Char? && '1' <= key.c <= '9' {
        if total > 0 {
          var num := key.c as int - '1' as int;
          if num < total {
            selected := num;
            AdjustScroll();
          }
          handled := true;
        }
      } else if key == Char('+') || key == Char('=') || key == Char('-') || key == Char('_') {
        if total > 0 {
          selected := if key == Char('+') || key == Char('=') then NextIndex(selected, total) else PrevIndex(selected, total);
          AdjustScroll();
        }
        handled := true;
      }
    }

    /** The keys that change the grid: space places the selected element
        under the cursor square (nothing when no element is selectable), 'x'
        and Delete erase the square, 'c' clears the whole grid. */
    method Edit(key: Press) returns (handled: bool)
      requires Inv()
      modifies this`selected, grid, grid.cells
      ensures Inv()
    {
      ghost var b := grid.Capture();
      if key == Char(' ') {
        var cls := SelectedClass();
        if cls.Some? {
          ApplyCursor(Paint(Key(cls.value), tags), b, grid.Repr);
          return true;
        }
        return false;
      } else if key == KeyDelete || key == Char('x') {
        ApplyCursor(Rub, b, grid.Repr);
        return true;
      } else if key == Char('c') || key == Char('C') {
        grid.Clear(b, grid.Repr);
        return true;
      }
      return false;
    }

    /** `resize`: the screen size clamped to at least 1, the layout taken
        again (`scaled` is the game width the screen ratio gives), a new grid
        of the new game size holding the old elements of the overlap
        re-created by key with their tags, the cursor clamped into the new
        grid and the scroll offset reset. */
    method Resize(newHeight: int, newWidth: int, scaled: int, ghost b: Board)
      requires Inv() && grid.Shows(b, grid.Repr)
      modifies this`height, this`width, this`gameHeight, this`gameWidth, this`grid, this`cursorX, this`cursorY, this`scroll
      ensures Inv() && CursorIn() && fresh(grid) && scroll == 0
      ensures height == (if newHeight > 1 then newHeight else 1) && width == (if newWidth > 1 then newWidth else 1)
      ensures gameHeight == (if height - 1 > 1 then height - 1 else 1) && gameWidth == (if scaled > 1 then scaled else 1)
      ensures grid.height == gameHeight && grid.width == gameWidth
      ensures grid.Shows(Resized(reg, b, Min(old(gameHeight), gameHeight), Min(old(gameWidth), gameWidth), gameHeight, gameWidth), {})
      ensures cursorY == Clamp(old(cursorY), gameHeight) && cursorX == Clamp(old(cursorX), gameWidth)
    {
      var hh := if newHeight > 1 then newHeight else 1;
      var gh := if hh - 1 > 1 then hh - 1 else 1;
      var gw := if scaled > 1 then scaled else 1;
      var ng := Copied(reg, grid, Min(gameHeight, gh), Min(gameWidth, gw), gh, gw, b);
      Adopt(ng, hh, if newWidth > 1 then newWidth else 1);
    }

    /** The new screen size and the new grid taken over, with the cursor
        clamped into the grid and the scroll offset reset. */
    method Adopt(ng: Grid, hh: int, ww: int)
      requires Inv() && ng.Valid() && hh >= 1 && ww >= 1
      modifies this`height, this`width, this`gameHeight, this`gameWidth, this`grid, this`cursorX, this`cursorY, this`scroll
      ensures Inv() && CursorIn() && scroll == 0 && grid == ng && height == hh && width == ww
      ensures gameHeight == ng.height && gameWidth == ng.width
      ensures cursorY == Clamp(old(cursorY), ng.height) && cursorX == Clamp(old(cursorX), ng.width)
    {
      height, width := hh, ww;
      cursorX, cursorY := Clamp(cursorX, ng.width), Clamp(cursorY, ng.height);
      gameHeight, gameWidth, grid, scroll := ng.height, ng.width, ng, 0;
    }

    /** The new grid of a resize. */
    static method Copied(reg: Registry, og: Grid, rows: int, cols: int, h: int, w: int, ghost b: Board)
      returns (ng: Grid)
      requires og.Shows(b, og.Repr) && 0 <= rows <= h && cols <= w
      requires h > 0 && w > 0
      ensures fresh(ng) && fresh(ng.cells) && fresh(ng.Repr) && ng.height == h && ng.width == w
      ensures ng.Shows(Resized(reg, b, rows, cols, h, w), {})
    {
      ng := new Grid(h, w);
      ghost var cur := Blank(h, w);
      var r := 0;
      while r < rows
        invariant 0 <= r <= rows && ng.Shows(cur, {}) && fresh(ng.cells) && fresh(ng.Repr)
        invariant ng.height == h && ng.width == w
        invariant ng.cells != og.cells && forall q :: q in ng.Repr ==> q !in og.Repr
        invariant forall i, j :: 0 <= i < h && 0 <= j < w ==>
          cur[i][j] == if i < r && j < cols && InB(b, i, j) then Recreated(reg, b[i][j]) else Empty
      {
        cur := CopyRow(reg, og, ng, r, cols, b, cur);
        r := r + 1;
      }
      ghost var want := Resized(reg, b, rows, cols, h, w);
      assert forall i :: 0 <= i < h ==> cur[i] == want[i];
    }

    /** One row of the resize copy. */
    static method CopyRow(reg: Registry, og: Grid, ng: Grid, r: int, cols: int, ghost b: Board, ghost cur: Board)
      returns (ghost cur': Board)
      requires og.Shows(b, og.Repr) && ng.Shows(cur, {}) && ng.cells != og.cells
      requires 0 <= r < ng.height && cols <= ng.width
      requires forall q :: q in ng.Repr ==> q !in og.Repr
      requires forall j :: 0 <= j < ng.width ==> cur[r][j] == Empty
      modifies ng, ng.cells
      ensures ng.Shows(cur', {}) && ng.Repr >= old(ng.Repr) && fresh(ng.Repr - old(ng.Repr))
      ensures forall i, j :: 0 <= i < ng.height && 0 <= j < ng.width ==>
        cur'[i][j] == if i == r && j < cols && InB(b, i, j) then Recreated(reg, b[i][j]) else cur[i][j]
    {
      cur' := cur;
      var c := 0;
      while c < cols
        invariant 0 <= c && ng.Shows(cur', {}) && ng.Repr >= old(ng.Repr) && fresh(ng.Repr - old(ng.Repr))
        invariant forall q :: q in ng.Repr ==> q !in og.Repr
        invariant forall j :: c <= j < ng.width ==> cur'[r][j] == Empty
        invariant forall i, j :: 0 <= i < ng.height && 0 <= j < ng.width ==>
          cur'[i][j] == if i == r && j < c && j < cols && InB(b, i, j) then Recreated(reg, b[i][j]) else cur[i][j]
      {
        cur' := CopyCell(reg, og, ng, r, c, b, cur');
        c := c + 1;
      }
    }

    /** One cell of the resize copy: the old element, if any, re-created by
        its key with its tags. */
    static method CopyCell(reg: Registry, og: Grid, ng: Grid, r: int, c: int, ghost b: Board, ghost cur: Board)
      returns (ghost cur': Board)
      requires og.Shows(b, og.Repr) && ng.Shows(cur, {}) && ng.cells != og.cells
      requires ng.IsValid(r, c) && cur[r][c] == Empty
      requires forall q :: q in ng.Repr ==> q !in og.Repr
      modifies ng, ng.cells
      ensures cur' == Set(cur, r, c, if og.IsValid(r, c) then Recreated(reg, b[r][c]) else Empty)
      ensures ng.Shows(cur', {}) && ng.Repr >= old(ng.Repr) && fresh(ng.Repr - old(ng.Repr))
    {
      var e := og.GetElement(r, c);
      cur' := Set(cur, r, c, if og.IsValid(r, c) then Recreated(reg, b[r][c]) else Empty);
      if e != null {
        og.MatchAt(b, og.Repr, r, c);
        var ne := ng.CreateElement(reg, Key(e.kind), r, c, e.tags);
        if ne != null {
          ng.Place(r, c, ne, cur, {});
          return;
        }
      } else if og.IsValid(r, c) {
        og.MatchAt(b, og.Repr, r, c);
      }
      ng.ClearCell(r, c, cur, {});
    }
  }
}
