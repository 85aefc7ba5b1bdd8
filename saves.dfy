// Saving a grid as a dictionary and building a grid back from one: the
// record layout of `_grid_to_dict` and the checks and skips of
// `_dict_to_grid`.  The quick-save slots keep such dictionaries; writing
// them to a file as JSON is not part of this model.
//
// The main results: restoring a saved grid gives back a grid of the same
// size with, in every occupied cell, an element of the same key with the
// same tags (and the thermite and photosensitive extras), and saving that
// grid again gives the very same dictionary.

module Saves {
  import opened Kinds
  import opened Boards
  import opened Grids
  import opened ElementManager
  import PhotosensitiveRule

  /** One element record; a field the record lacks is `None`.  The tags
      default to the empty list. */
  datatype Entry = Entry(key: Option<string>, y: Option<int>, x: Option<int>, tags: seq<string>,
                         burning: Option<bool>, burnTimer: Option<int>, solidified: Option<bool>)

  /** A saved grid: height, width and the list of element records. */
  datatype Data = Data(height: Option<int>, width: Option<int>, elements: Option<seq<Entry>>)

  // --- Saving ---

  /** The record `_grid_to_dict` writes for the element in cell (i, j):
      thermite adds its burning state, photosensitive powder whether it is
      solidified. */
  function EntryOf(s: Slot, i: int, j: int): (e: Entry)
    requires !s.Empty?
  {
    var k := KindOf(s);
    Entry(Some([Key(k)]), Some(i), Some(j), s.st.tags,
          if k == Thermite then Some(s.st.burning) else None,
          if k == Thermite then Some(s.st.burnTimer) else None,
          if k == Photosensitive then Some(s.st.solidified) else None)
  }

  /** The records of the first c cells of row r, left to right. */
  function RowEntries(b: Board, r: int, c: int): seq<Entry>
    requires 0 <= r < |b| && 0 <= c <= |b[r]|
    decreases c
  {
    if c == 0 then []
    else RowEntries(b, r, c - 1) + (if b[r][c - 1].Empty? then [] else [EntryOf(b[r][c - 1], r, c - 1)])
  }

  /** The records of the rows above row r, in row-major order. */
  function SavedRows(b: Board, r: int): seq<Entry>
    requires 0 <= r <= |b|
    decreases r
  {
    if r == 0 then [] else SavedRows(b, r - 1) + RowEntries(b, r - 1, |b[r - 1]|)
  }

  /** `_grid_to_dict` of an h-by-w grid showing b: the size, and one record
      per occupied cell in row-major order. */
  function Serialized(b: Board, h: int, w: int): Data
    requires Shaped(b, h, w)
  {
    Data(Some(h), Some(w), Some(SavedRows(b, h)))
  }

  // --- Restoring ---

  /** The state of a new element of class k once the record's extras are
      applied: a burning flag sets the heat source too (the timer defaults
      to 0), and the solidified flag sets the powder's static, powder and
      density fields either way. */
  function Revived(k: Kind, e: Entry): St
  {
    Solidified(k, e, Burning(k, e, Initial(k, e.tags)))
  }

  /** The burning extras, for thermite. */
  function Burning(k: Kind, e: Entry, st: St): St
  {
    if e.burning.Some? && k == Thermite then
      st.(burning := e.burning.value, burnTimer := if e.burnTimer.Some? then e.burnTimer.value else 0,
          isHeat := e.burning.value)
    else st
  }

  /** The solidified extras, for photosensitive powder. */
  function Solidified(k: Kind, e: Entry, st: St): St
  {
    if e.solidified.Some? && k == Photosensitive then
      if e.solidified.value then
        st.(solidified := true, isPowder := false, isStatic := true, density := PhotosensitiveRule.SolidDensity)
      else
        st.(solidified := false, isPowder := true, isStatic := false, density := PhotosensitiveRule.PowderDensity)
    else st
  }

  /** A record that builds an element: key, y and x present and the key
      registered.  Any other record is skipped. */
  predicate Usable(reg: Registry, e: Entry)
  {
    e.key.Some? && e.y.Some? && e.x.Some? && |e.key.value| == 1 && e.key.value[0] in reg
  }

  /** The slot a usable record writes. */
  function Loaded(reg: Registry, e: Entry): Slot
    requires Usable(reg, e)
  {
    var k := reg[e.key.value[0]];
    New(k, Revived(k, e))
  }

  /** One record applied to the board; `set_element` ignores coordinates
      outside the grid. */
  function Apply(reg: Registry, b: Board, e: Entry): Board
  {
    if Usable(reg, e) then Set(b, e.y.value, e.x.value, Loaded(reg, e)) else b
  }

  /** The records applied in list order. */
  function ApplyAll(reg: Registry, b: Board, es: seq<Entry>): (r: Board)
    ensures |r| == |b| && forall i :: 0 <= i < |b| ==> |r[i]| == |b[i]|
    decreases |es|
  {
    if es == [] then b else Apply(reg, ApplyAll(reg, b, es[..|es| - 1]), es[|es| - 1])
  }

  /** `_dict_to_grid`: nothing (a `ValueError`) when the size or the element
      list is missing or a dimension is not positive; otherwise the records
      applied to an empty grid of that size. */
  function Restored(reg: Registry, d: Data): (r: Option<Board>)
    ensures r.None? <==> d.height.None? || d.width.None? || d.elements.None? ||
                         d.height.value <= 0 || d.width.value <= 0
    ensures r.Some? ==> Shaped(r.value, d.height.value, d.width.value)
  {
    if d.height.None? || d.width.None? || d.elements.None? then None
    else if d.height.value <= 0 || d.width.value <= 0 then None
    else Some(ApplyAll(reg, Blank(d.height.value, d.width.value), d.elements.value))
  }

  /** The last usable record naming cell (i, j), if any. */
  function LastAt(reg: Registry, es: seq<Entry>, i: int, j: int): (r: Option<Entry>)
    ensures r.Some? ==> Usable(reg, r.value) && r.value.y == Some(i) && r.value.x == Some(j)
    decreases |es|
  {
    if es == [] then None
    else
      var e := es[|es| - 1];
      if Usable(reg, e) && e.y.value == i && e.x.value == j then Some(e) else LastAt(reg, es[..|es| - 1], i, j)
  }

  /** Cell (i, j) of a saved grid after restoring it. */
  function Reload(reg: Registry, s: Slot, i: int, j: int): Slot
  {
    if s.Empty? || Key(KindOf(s)) !in reg then Empty else Loaded(reg, EntryOf(s, i, j))
  }

  /** A saved board after restoring it. */
  function Reloaded(reg: Registry, b: Board): (r: Board)
    ensures |r| == |b| && forall i :: 0 <= i < |b| ==> |r[i]| == |b[i]|
  {
    seq(|b|, i requires 0 <= i < |b| => seq(|b[i]|, j requires 0 <= j < |b[i]| => Reload(reg, b[i][j], i, j)))
  }

  // --- The methods ---

  /** `_grid_to_dict` on a grid showing b. */
  method GridToDict(g: Grid, ghost b: Board, ghost S: set<Particle>) returns (d: Data)
    requires g.Shows(b, S)
    ensures d == Serialized(b, g.height, g.width)
  {
    var h, w := g.height, g.width;
    var es: seq<Entry> := [];
    var r := 0;
    while r < h
      invariant 0 <= r <= h && g.Shows(b, S)
      invariant es == SavedRows(b, r)
    {
      SavedNext(b, r);
      es := SaveRow(g, r, es, b, S);
      r := r + 1;
    }
    d := Data(Some(h), Some(w), Some(es));
  }

  /** The records of the rows down to row r are those above it and then
      row r's own. */
  lemma SavedNext(b: Board, r: int)
    requires 0 <= r < |b|
    ensures SavedRows(b, r + 1) == SavedRows(b, r) + RowEntries(b, r, |b[r]|)
  {
  }

  /** The records of one row appended to those of the rows above. */
  method SaveRow(g: Grid, r: int, es: seq<Entry>, ghost b: Board, ghost S: set<Particle>) returns (es': seq<Entry>)
    requires g.Shows(b, S) && 0 <= r < g.height
    ensures es' == es + RowEntries(b, r, |b[r]|)
  {
    es' := es;
    var c := 0;
    while c < g.width
      invariant 0 <= c <= g.width && g.Shows(b, S)
      invariant es' == es + RowEntries(b, r, c)
    {
      es' := SaveCell(g, r, c, es', es, b, S);
      c := c + 1;
    }
  }

  /** The record of cell (r, c), if it is occupied, appended. */
  method SaveCell(g: Grid, r: int, c: int, es: seq<Entry>, ghost es0: seq<Entry>, ghost b: Board, ghost S: set<Particle>)
    returns (es': seq<Entry>)
    requires g.Shows(b, S) && 0 <= r < g.height && 0 <= c < g.width
    requires es == es0 + RowEntries(b, r, c)
    ensures es' == es0 + RowEntries(b, r, c + 1)
  {
    var e := g.GetElement(r, c);
    g.MatchAt(b, S, r, c);
    es' := es;
    if e != null {
      RecordOf(e, b[r][c]);
      es' := es + [Record(e)];
      assert es0 + RowEntries(b, r, c) + [Record(e)] == es0 + (RowEntries(b, r, c) + [Record(e)]);
    }
  }

  /** `_dict_to_grid`: no grid for a rejected dictionary, otherwise a new
      grid showing the restored board. */
  method DictToGrid(reg: Registry, d: Data) returns (g: Grid?)
    ensures g == null <==> Restored(reg, d).None?
    ensures g != null ==> fresh(g) && fresh(g.cells) && g.Shows(Restored(reg, d).value, {})
  {
    if d.height.None? || d.width.None? || d.elements.None? {
      return null;
    }
    var h, w, es := d.height.value, d.width.value, d.elements.value;
    g := Grid.Make(h, w);
    if g == null {
      return;
    }
    ghost var cur := Blank(h, w);
    var k := 0;
    while k < |es|
      invariant 0 <= k <= |es| && g.height == h && g.width == w && fresh(g) && fresh(g.cells)
      invariant g.Shows(cur, {}) && cur == ApplyAll(reg, Blank(h, w), es[..k])
      invariant fresh(g.Repr)
    {
      assert es[..k + 1][..k] == es[..k];
      cur := LoadEntry(g, reg, es[k], cur);
      k := k + 1;
    }
    assert es[..k] == es;
  }

  /** One record of `_dict_to_grid`'s loop: skipped when a field is missing
      or the key is unknown; otherwise a new element gets the record's tags
      and extras and is set at the record's coordinates. */
  method LoadEntry(g: Grid, reg: Registry, entry: Entry, ghost cur: Board) returns (ghost cur': Board)
    requires g.Shows(cur, {})
    modifies g, g.cells
    ensures g.Shows(cur', {}) && cur' == Apply(reg, cur, entry)
    ensures fresh(g.Repr - old(g.Repr))
  {
    cur' := cur;
    if entry.key.None? || entry.y.None? || entry.x.None? || |entry.key.value| != 1 {
      return;
    }
    var y, x := entry.y.value, entry.x.value;
    var e := g.CreateElement(reg, entry.key.value[0], y, x, []);
    if e == null {
      return;
    }
    Restore(e, entry);
    g.Place(y, x, e, cur, {});
    cur' := Set(cur, y, x, Loaded(reg, entry));
  }

  /** The record's tags and extras written into a new element. */
  method Restore(e: Particle, entry: Entry)
    requires e.State() == Initial(e.kind, [])
    modifies e
    ensures e.State() == Revived(e.kind, entry) && e.y == old(e.y) && e.x == old(e.x)
  {
    if entry.tags != [] {
      e.tags := entry.tags;
    }
    assert e.State() == Initial(e.kind, entry.tags);
    RestoreBurning(e, entry);
    RestoreSolidified(e, entry);
  }

  method RestoreBurning(e: Particle, entry: Entry)
    modifies e`burning, e`burnTimer, e`isHeat
    ensures e.State() == Burning(e.kind, entry, old(e.State()))
  {
    if entry.burning.Some? && e.kind == Thermite {
      e.burning := entry.burning.value;
      e.burnTimer := if entry.burnTimer.Some? then entry.burnTimer.value else 0;
      e.isHeat := e.burning;
    }
  }

  method RestoreSolidified(e: Particle, entry: Entry)
    modifies e`solidified, e`isPowder, e`isStatic, e`density
    ensures e.State() == Solidified(e.kind, entry, old(e.State()))
  {
    if entry.solidified.Some? && e.kind == Photosensitive {
      e.solidified := entry.solidified.value;
      if e.solidified {
        e.isPowder, e.isStatic, e.density := false, true, PhotosensitiveRule.SolidDensity;
      } else {
        e.isPowder, e.isStatic, e.density := true, false, PhotosensitiveRule.PowderDensity;
      }
    }
  }

  /** The record `_grid_to_dict` builds from an element's fields. */
  function Record(p: Particle): Entry
    reads p
  {
    Entry(Some([Key(p.kind)]), Some(p.y), Some(p.x), p.tags,
          if p.kind == Thermite then Some(p.burning) else None,
          if p.kind == Thermite then Some(p.burnTimer) else None,
          if p.kind == Photosensitive then Some(p.solidified) else None)
  }

  /** The record of an element is the record of the slot that shows it. */
  lemma RecordOf(p: Particle, s: Slot)
    requires !s.Empty? && p.kind == KindOf(s) && p.State() == s.st
    ensures Record(p) == EntryOf(s, p.y, p.x)
  {
  }

  // --- Properties ---

  /** Only thermite has thermite's key, and only photosensitive powder
      has its key. */
  lemma KeysOfExtras(k: Kind)
    ensures Key(k) == Key(Thermite) ==> k == Thermite
    ensures Key(k) == Key(Photosensitive) ==> k == Photosensitive
  {
  }

  /** The last match in a concatenation comes from the second part if it
      has one. */
  lemma {:induction false} LastAtAppend(reg: Registry, xs: seq<Entry>, ys: seq<Entry>, i: int, j: int)
    ensures LastAt(reg, xs + ys, i, j) == if LastAt(reg, ys, i, j).Some? then LastAt(reg, ys, i, j) else LastAt(reg, xs, i, j)
    decreases |ys|
  {
    if ys == [] {
      assert xs + ys == xs;
    } else {
      var zs := xs + ys;
      assert zs[..|zs| - 1] == xs + ys[..|ys| - 1];
      assert zs[|zs| - 1] == ys[|ys| - 1];
      LastAtAppend(reg, xs, ys[..|ys| - 1], i, j);
    }
  }

  /** Restoring writes into each cell of the grid the last usable record
      naming it, and leaves a cell no usable record names as it was:
      later records overwrite earlier ones, and records with a missing
      field, an unknown key or coordinates outside the grid change
      nothing. */
  lemma {:induction false} ApplyAllCell(reg: Registry, b: Board, es: seq<Entry>, i: int, j: int)
    requires InB(b, i, j)
    ensures ApplyAll(reg, b, es)[i][j] == match LastAt(reg, es, i, j)
                                         case None => b[i][j]
                                         case Some(e) => Loaded(reg, e)
    decreases |es|
  {
    if es != [] {
      ApplyAllCell(reg, b, es[..|es| - 1], i, j);
    }
  }

  /** The record of cell (i, j) of b, if it is occupied with a registered
      key. */
  function Own(reg: Registry, b: Board, i: int, j: int): Option<Entry>
  {
    if InB(b, i, j) && !b[i][j].Empty? && Key(KindOf(b[i][j])) in reg then Some(EntryOf(b[i][j], i, j)) else None
  }

  /** A single record names its own cell if it is usable. */
  lemma LastAtOne(reg: Registry, e: Entry, i: int, j: int)
    ensures LastAt(reg, [e], i, j) == if Usable(reg, e) && e.y == Some(i) && e.x == Some(j) then Some(e) else None
  {
    assert [e][..0] == [];
  }

  /** The records of row r name each of its first c occupied cells with a
      registered key once, by its own record. */
  lemma {:induction false} RowLast(reg: Registry, b: Board, r: int, c: int, i: int, j: int)
    requires 0 <= r < |b| && 0 <= c <= |b[r]|
    ensures RowNamed(reg, b, r, c, i, j)
    decreases c
  {
    if c > 0 {
      RowLast(reg, b, r, c - 1, i, j);
      RowLastStep(reg, b, r, c, i, j);
    }
  }

  /** Among the records of the first c cells of row r, the last one naming
      cell (i, j) is that cell's own record, and there is none for a cell
      outside them. */
  ghost predicate RowNamed(reg: Registry, b: Board, r: int, c: int, i: int, j: int)
    requires 0 <= r < |b| && 0 <= c <= |b[r]|
  {
    LastAt(reg, RowEntries(b, r, c), i, j) == if i == r && 0 <= j < c then Own(reg, b, i, j) else None
  }

  /** The record of cell (r, c - 1), if any, is the last one of the first c
      cells of row r. */
  lemma RowLastStep(reg: Registry, b: Board, r: int, c: int, i: int, j: int)
    requires 0 <= r < |b| && 0 < c <= |b[r]| && RowNamed(reg, b, r, c - 1, i, j)
    ensures RowNamed(reg, b, r, c, i, j)
  {
    var xs := RowEntries(b, r, c - 1);
    var s := b[r][c - 1];
    if s.Empty? {
      assert RowEntries(b, r, c) == xs + [];
      assert xs + [] == xs;
      if i == r && j == c - 1 {
        assert Own(reg, b, i, j) == None;
      }
    } else {
      var e := EntryOf(s, r, c - 1);
      assert RowEntries(b, r, c) == xs + [e];
      LastAtAppend(reg, xs, [e], i, j);
      LastAtOne(reg, e, i, j);
      if i == r && j == c - 1 {
        assert Usable(reg, e) <==> Key(KindOf(s)) in reg;
        assert Own(reg, b, i, j) == if Usable(reg, e) then Some(e) else None;
      } else {
        assert LastAt(reg, [e], i, j) == None;
      }
    }
  }

  /** The records of the rows above r name each occupied cell there with a
      registered key once, by its own record. */
  lemma {:induction false} RowsLast(reg: Registry, b: Board, r: int, i: int, j: int)
    requires 0 <= r <= |b|
    ensures LastAt(reg, SavedRows(b, r), i, j) == if 0 <= i < r then Own(reg, b, i, j) else None
    decreases r
  {
    if r > 0 {
      RowsLast(reg, b, r - 1, i, j);
      RowLast(reg, b, r - 1, |b[r - 1]|, i, j);
      RowsLastStep(reg, b, r, i, j);
    }
  }

  /** Row r - 1's records come after those of the rows above it. */
  lemma RowsLastStep(reg: Registry, b: Board, r: int, i: int, j: int)
    requires 0 < r <= |b|
    requires LastAt(reg, SavedRows(b, r - 1), i, j) == if 0 <= i < r - 1 then Own(reg, b, i, j) else None
    requires LastAt(reg, RowEntries(b, r - 1, |b[r - 1]|), i, j) ==
             if i == r - 1 && 0 <= j < |b[r - 1]| then Own(reg, b, i, j) else None
    ensures LastAt(reg, SavedRows(b, r), i, j) == if 0 <= i < r then Own(reg, b, i, j) else None
  {
    var xs, ys := SavedRows(b, r - 1), RowEntries(b, r - 1, |b[r - 1]|);
    assert SavedRows(b, r) == xs + ys;
    LastAtAppend(reg, xs, ys, i, j);
    if i == r - 1 && !(0 <= j < |b[r - 1]|) {
      assert Own(reg, b, i, j) == None;
    }
  }

  /** Restoring a saved grid: accepted, of the same size, and every cell
      rebuilt from its own record (empty where the cell was empty or its
      key is not registered). */
  lemma SaveLoad(reg: Registry, b: Board, h: int, w: int)
    requires Shaped(b, h, w) && h > 0 && w > 0
    ensures Restored(reg, Serialized(b, h, w)) == Some(Reloaded(reg, b))
  {
    var es := SavedRows(b, h);
    var got := ApplyAll(reg, Blank(h, w), es);
    var want := Reloaded(reg, b);
    forall i, j | 0 <= i < h && 0 <= j < w
      ensures got[i][j] == want[i][j]
    {
      ApplyAllCell(reg, Blank(h, w), es, i, j);
      RowsLast(reg, b, h, i, j);
      assert want[i][j] == Reload(reg, b[i][j], i, j);
    }
    assert forall i :: 0 <= i < h ==> got[i] == want[i];
    assert got == want;
    assert Restored(reg, Serialized(b, h, w)) == Some(got);
  }

  /** What an element rebuilt from its record keeps, under a registry
      whose keys name their own classes: its key and tags, thermite's
      burning flag and timer (with the heat source following the flag),
      photosensitive powder's solidified flag (with the static, powder and
      density fields that go with it); it is unprocessed and unlit. */
  lemma ReloadedCell(reg: Registry, s: Slot, i: int, j: int)
    requires Consistent(reg) && !s.Empty? && Key(KindOf(s)) in reg
    ensures var r := Reload(reg, s, i, j);
      r.New? && Key(r.k) == Key(KindOf(s)) && r.st.tags == s.st.tags && !r.st.processed && !r.st.lit &&
      (KindOf(s) == Thermite <==> r.k == Thermite) && (KindOf(s) == Photosensitive <==> r.k == Photosensitive) &&
      (r.k == Thermite ==> r.st.burning == s.st.burning && r.st.burnTimer == s.st.burnTimer && r.st.isHeat == s.st.burning) &&
      (r.k == Photosensitive ==> r.st.solidified == s.st.solidified && r.st.isStatic == s.st.solidified &&
                                 r.st.isPowder == !s.st.solidified &&
                                 r.st.density == if s.st.solidified then PhotosensitiveRule.SolidDensity else PhotosensitiveRule.PowderDensity)
  {
    var k := reg[Key(KindOf(s))];
    KeysOfExtras(k);
    KeysOfExtras(KindOf(s));
  }

  /** A rebuilt element writes the record it was rebuilt from. */
  lemma ReloadedEntry(reg: Registry, s: Slot, i: int, j: int)
    requires Consistent(reg) && !s.Empty? && Key(KindOf(s)) in reg
    ensures !Reload(reg, s, i, j).Empty? && EntryOf(Reload(reg, s, i, j), i, j) == EntryOf(s, i, j)
  {
    ReloadedCell(reg, s, i, j);
  }

  /** Every occupied cell's key is registered. */
  ghost predicate AllRegistered(reg: Registry, b: Board)
  {
    forall i, j :: 0 <= i < |b| && 0 <= j < |b[i]| && !b[i][j].Empty? ==> Key(KindOf(b[i][j])) in reg
  }

  /** Saving a restored grid gives back the dictionary it was restored
      from, when every key on it is registered to its own class. */
  lemma SaveLoadSave(reg: Registry, b: Board, h: int, w: int)
    requires Shaped(b, h, w) && Consistent(reg) && AllRegistered(reg, b)
    ensures Shaped(Reloaded(reg, b), h, w) && Serialized(Reloaded(reg, b), h, w) == Serialized(b, h, w)
  {
    SameRows(reg, b, h);
  }

  lemma {:induction false} SameRows(reg: Registry, b: Board, r: int)
    requires 0 <= r <= |b| && Consistent(reg) && AllRegistered(reg, b)
    ensures SavedRows(Reloaded(reg, b), r) == SavedRows(b, r)
    decreases r
  {
    if r > 0 {
      SameRows(reg, b, r - 1);
      SameRow(reg, b, r - 1, |b[r - 1]|);
    }
  }

  lemma {:induction false} SameRow(reg: Registry, b: Board, r: int, c: int)
    requires 0 <= r < |b| && 0 <= c <= |b[r]| && Consistent(reg) && AllRegistered(reg, b)
    ensures RowEntries(Reloaded(reg, b), r, c) == RowEntries(b, r, c)
    decreases c
  {
    if c > 0 {
      SameRow(reg, b, r, c - 1);
      var s := b[r][c - 1];
      assert Reloaded(reg, b)[r][c - 1] == Reload(reg, s, r, c - 1);
      if !s.Empty? {
        ReloadedEntry(reg, s, r, c - 1);
      }
    }
  }
}
