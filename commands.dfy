// The command line of the game: parsing a command into a command name or
// an element to select, and the commands that work on the grid and the
// game's bookkeeping: `fill`, `clear`, `select`, `size`, `tag`,
// `quick_save` and `quick_load`.  The messages a command shows are not
// modelled; a command answers with a `Reply` saying whether it succeeded,
// found nothing to do, or failed and why.
//
// Splitting the command line into words (`shlex.split`) happens before
// this model: a command is its list of words.

module Commands {
  import opened Kinds
  import opened Boards
  import opened Grids
  import opened ElementManager
  import Flood
  import Saves
  import Game

  /** Why a command failed (the `CommandError` it raised). */
  datatype Cause =
    | Usage           // the wrong number of arguments
    | UnknownElement  // no element has that key or name
    | CursorOutside   // the cursor is not on the grid
    | NotPlaceable    // the element is not in the placeable list
    | OutOfRange      // a number outside the allowed range
    | NotANumber      // an argument `int` rejects
    | NoSuchTag       // `tag remove` of a tag the list does not hold
    | BadTagCommand   // a `tag` subcommand other than add, remove, set, clear
    | EmptySlot       // `quick_load` of a slot nothing was saved in
    | UnknownCommand  // neither a command nor an element key or name

  /** The answer of a command: done, nothing to do (the fill element is
      already under the cursor, or the tag is already there), done with a
      count of filled cells, no message at all, or an error. */
  datatype Reply = Ok | Unchanged | Filled(count: int) | Silent | Fail(cause: Cause)

  /** The parts of the game's state a command may change: the grid, the
      cursor's position, the cursor's size, the current tags, the list
      selection with its scroll, and the quick-save slots. */
  datatype Part = GridPart | Cursor | CursorSize | TagList | Selection | Slots

  // --- Text ---

  /** `str.lower` on one character; only ASCII letters change. */
  function LowerChar(c: char): char
  {
    if 'A' <= c <= 'Z' then (c as int + 32) as char else c
  }

  /** `str.lower` on ASCII text. */
  function Lower(s: string): (r: string)
    ensures |r| == |s| && forall k :: 0 <= k < |s| ==> r[k] == LowerChar(s[k])
  {
    if s == [] then [] else [LowerChar(s[0])] + Lower(s[1..])
  }

  /** Lower-casing twice is lower-casing once. */
  lemma LowerTwice(s: string)
    ensures Lower(Lower(s)) == Lower(s)
  {
  }

  /** Lower-case text has no upper-case ASCII letter. */
  lemma LowerHasNoCapital(s: string, k: int)
    requires 0 <= k < |s|
    ensures !('A' <= Lower(s)[k] <= 'Z')
  {
  }

  // --- Numbers ---

  predicate IsDigit(c: char)
  {
    '0' <= c <= '9'
  }

  predicate AllDigits(s: string)
  {
    forall k :: 0 <= k < |s| ==> IsDigit(s[k])
  }

  /** The value of a string of decimal digits. */
  function DigitsValue(s: string): nat
    requires AllDigits(s)
    decreases |s|
  {
    if s == [] then 0 else DigitsValue(s[..|s| - 1]) * 10 + (s[|s| - 1] as int - '0' as int)
  }

  /** `int(s)` on a word: decimal digits with an optional sign; nothing
      (a `ValueError`) for anything else. */
  function ParseInt(s: string): (r: Option<int>)
    ensures r.Some? ==> |s| >= 1
  {
    if |s| >= 2 && (s[0] == '+' || s[0] == '-') && AllDigits(s[1..]) then
      var v: int := DigitsValue(s[1..]);
      Some(if s[0] == '-' then -v else v)
    else if |s| >= 1 && AllDigits(s) then Some(DigitsValue(s))
    else None
  }

  /** The decimal digits of n. */
  function Decimal(n: nat): (s: string)
    ensures |s| >= 1 && AllDigits(s)
  {
    if n < 10 then [('0' as int + n) as char] else Decimal(n / 10) + [('0' as int + n % 10) as char]
  }

  /** `str(n)` */
  function Show(n: int): string
  {
    if n < 0 then "-" + Decimal(-n) else Decimal(n)
  }

  /** The digits of n have value n. */
  lemma {:induction false} DecimalValue(n: nat)
    ensures DigitsValue(Decimal(n)) == n
  {
    if n >= 10 {
      var s := Decimal(n);
      assert s[..|s| - 1] == Decimal(n / 10);
      DecimalValue(n / 10);
    }
  }

  /** `int(str(n)) == n`: every number written out reads back as itself. */
  lemma ParseShow(n: int)
    ensures ParseInt(Show(n)) == Some(n)
  {
    if n < 0 {
      var s := Show(n);
      assert s[1..] == Decimal(-n);
      DecimalValue(-n);
    } else {
      DecimalValue(n);
    }
  }

  /** A numeric argument that must lie in lo..hi: a number, or why not. */
  datatype Number = Num(n: int) | Wrong(cause: Cause)

  /** The single numeric argument of `size`, `quick_save` and
      `quick_load`. */
  function NumberArg(args: seq<string>, lo: int, hi: int): (r: Number)
    ensures r.Num? <==> |args| == 1 && ParseInt(args[0]).Some? && lo <= ParseInt(args[0]).value <= hi
    ensures r.Num? ==> r.n == ParseInt(args[0]).value
    ensures r.Wrong? ==> r.cause == (if |args| != 1 then Usage else if ParseInt(args[0]).None? then NotANumber else OutOfRange)
  {
    if |args| != 1 then Wrong(Usage)
    else match ParseInt(args[0])
      case None => Wrong(NotANumber)
      case Some(n) => if lo <= n <= hi then Num(n) else Wrong(OutOfRange)
  }

  /** The quick-save slots are numbered 0 to 9. */
  const LastSlot: int := 9

  // --- Elements by key or by name ---

  /** The first key of `order` registered to a class whose lower-cased
      name is `lname`: the registry loop of `fill`, `select` and the
      command dispatch, which stops at the first match. */
  function ByName(reg: Registry, order: seq<char>, lname: string): (r: Option<char>)
    ensures r.Some? ==> r.value in order && r.value in reg && Lower(Name(reg[r.value])) == lname
    ensures r.None? ==> forall m :: 0 <= m < |order| && order[m] in reg ==> Lower(Name(reg[order[m]])) != lname
    ensures r.Some? ==> forall m :: 0 <= m < |order| && order[m] in reg && Lower(Name(reg[order[m]])) == lname ==>
      r.value in order[..m + 1]
  {
    if order == [] then None
    else if order[0] in reg && Lower(Name(reg[order[0]])) == lname then Some(order[0])
    else
      var r := ByName(reg, order[1..], lname);
      TailPrefixes(order);
      r
  }

  /** Position m of a list is position m - 1 of its tail, and the tail's
      first m items are items 1 to m of the list. */
  lemma TailPrefixes<T>(s: seq<T>)
    requires s != []
    ensures forall m :: 1 <= m < |s| ==> s[m] == s[1..][m - 1]
    ensures forall m, v :: 1 <= m < |s| && v in s[1..][..m] ==> v in s[..m + 1]
  {
    forall m, v | 1 <= m < |s| && v in s[1..][..m]
      ensures v in s[..m + 1]
    {
      assert s[1..][..m] == s[..m + 1][1..];
    }
  }

  /** The registry loop, as the source writes it. */
  method FindByName(reg: Registry, order: seq<char>, lname: string) returns (found: Option<char>)
    ensures found == ByName(reg, order, lname)
  {
    var k := 0;
    while k < |order|
      invariant 0 <= k <= |order|
      invariant ByName(reg, order, lname) == ByName(reg, order[k..], lname)
    {
      var c := order[k];
      if c in reg && Lower(Name(reg[c])) == lname {
        return Some(c);
      }
      assert order[k..][1..] == order[k + 1..];
      k := k + 1;
    }
    return None;
  }

  /** An element identifier: a registered key (compared exactly), or else
      the name of a class, compared ignoring case. */
  function Resolve(reg: Registry, order: seq<char>, id: string): (r: Option<char>)
    ensures r.Some? ==> r.value in reg
    ensures r.None? ==> !(|id| == 1 && id[0] in reg)
  {
    if |id| == 1 && id[0] in reg then Some(id[0]) else ByName(reg, order, Lower(id))
  }

  /** A registered key always names its own element, whatever the names. */
  lemma ResolveKey(reg: Registry, order: seq<char>, c: char)
    requires c in reg
    ensures Resolve(reg, order, [c]) == Some(c)
  {
  }

  /** An identifier that is no key resolves to the first element in
      registry order whose name matches it ignoring case. */
  lemma ResolveName(reg: Registry, order: seq<char>, id: string, m: int)
    requires !(|id| == 1 && id[0] in reg)
    requires 0 <= m < |order| && order[m] in reg && Lower(Name(reg[order[m]])) == Lower(id)
    ensures Resolve(reg, order, id).Some? && Resolve(reg, order, id).value in order[..m + 1]
    ensures Lower(Name(reg[Resolve(reg, order, id).value])) == Lower(id)
  {
  }

  /** `list.index`: the first position of x. */
  function IndexOf<T(==)>(s: seq<T>, x: T): (i: int)
    requires x in s
    ensures 0 <= i < |s| && s[i] == x && x !in s[..i]
  {
    if s[0] == x then 0
    else
      var i := 1 + IndexOf(s[1..], x);
      assert s[..i] == [s[0]] + s[1..][..i - 1];
      i
  }

  // --- Tags ---

  /** `list.remove`: the first occurrence of t taken out, the order of
      the rest kept; a list without t is returned as it is. */
  function RemoveFirst(s: seq<string>, t: string): (r: seq<string>)
    ensures multiset(r) == multiset(s) - multiset{t}
    ensures |r| == if t in s then |s| - 1 else |s|
  {
    if s == [] then []
    else if s[0] == t then (assert s == [s[0]] + s[1..]; s[1..])
    else
      var r := [s[0]] + RemoveFirst(s[1..], t);
      assert s == [s[0]] + s[1..];
      r
  }

  /** A list with a head is without repeats when the head is not in the
      tail and the tail is without repeats. */
  lemma NoDupCons(x: string, q: seq<string>)
    ensures Game.NoDup([x] + q) <==> x !in q && Game.NoDup(q)
  {
    var s := [x] + q;
    assert forall k :: 0 <= k < |q| ==> s[k + 1] == q[k];
    if x !in q && Game.NoDup(q) {
      forall m, n | 0 <= m < n < |s|
        ensures s[m] != s[n]
      {
        assert s[n] == q[n - 1];
      }
    }
    if Game.NoDup(s) {
      assert forall k :: 0 <= k < |q| ==> s[0] != q[k];
      forall m, n | 0 <= m < n < |q|
        ensures q[m] != q[n]
      {
        assert s[m + 1] != s[n + 1];
      }
    }
  }

  /** From a list without repeats, removing t leaves a list without t and
      without repeats. */
  lemma {:induction false} RemoveFirstNoDup(s: seq<string>, t: string)
    requires Game.NoDup(s)
    ensures t !in RemoveFirst(s, t) && Game.NoDup(RemoveFirst(s, t))
  {
    if s != [] {
      var q := s[1..];
      assert s == [s[0]] + q;
      NoDupCons(s[0], q);
      if s[0] != t {
        RemoveFirstNoDup(q, t);
        var r := RemoveFirst(q, t);
        assert s[0] !in r by {
          assert multiset(r)[s[0]] == multiset(q)[s[0]];
        }
        NoDupCons(s[0], r);
      }
    }
  }

  /** Removing t from a list that ends in its only t takes that last item
      off. */
  lemma {:induction false} RemoveLast(s: seq<string>, t: string)
    requires t !in s
    ensures RemoveFirst(s + [t], t) == s
  {
    if s != [] {
      assert (s + [t])[1..] == s[1..] + [t];
      RemoveLast(s[1..], t);
    }
  }

  /** `tag`: what the command answers and the list of current tags it
      leaves.  With no argument it only shows the list; the subcommand is
      matched ignoring case. */
  function TagEdit(tags: seq<string>, args: seq<string>): (r: (Reply, seq<string>))
    ensures (r.0.Fail? || r.0 == Silent || r.0 == Unchanged) ==> r.1 == tags
    ensures r.0 == Silent <==> args == []
  {
    if args == [] then (Silent, tags)
    else
      var sub, rest := Lower(args[0]), args[1..];
      if sub == "add" then
        if rest == [] then (Fail(Usage), tags)
        else if rest[0] in tags then (Unchanged, tags)
        else (Ok, tags + [rest[0]])
      else if sub == "remove" then
        if rest == [] then (Fail(Usage), tags)
        else if rest[0] !in tags then (Fail(NoSuchTag), tags)
        else (Ok, RemoveFirst(tags, rest[0]))
      else if sub == "set" then (Ok, rest)
      else if sub == "clear" then
        if rest != [] then (Fail(Usage), tags) else (Ok, [])
      else (Fail(BadTagCommand), tags)
  }

  /** `tag add t`: afterwards t is a current tag, held once more only if it
      was missing, and a list without repeats stays without. */
  lemma TagAdd(tags: seq<string>, args: seq<string>)
    requires |args| >= 2 && Lower(args[0]) == "add"
    ensures var (reply, tags') := TagEdit(tags, args);
      args[1] in tags' && (reply == Ok || reply == Unchanged) &&
      (reply == Unchanged <==> args[1] in tags) &&
      multiset(tags') == multiset(tags) + (if args[1] in tags then multiset{} else multiset{args[1]}) &&
      (Game.NoDup(tags) ==> Game.NoDup(tags'))
  {
  }

  /** `tag remove t`: an error, with the list untouched, when t is not a
      current tag; otherwise one occurrence fewer, so that in a list
      without repeats t is gone. */
  lemma TagRemove(tags: seq<string>, args: seq<string>)
    requires |args| >= 2 && Lower(args[0]) == "remove"
    ensures var (reply, tags') := TagEdit(tags, args);
      (reply == Fail(NoSuchTag) <==> args[1] !in tags) &&
      (args[1] !in tags ==> tags' == tags) &&
      (args[1] in tags ==> reply == Ok && multiset(tags') == multiset(tags) - multiset{args[1]}) &&
      (Game.NoDup(tags) ==> args[1] !in tags' && Game.NoDup(tags'))
  {
    if Game.NoDup(tags) {
      RemoveFirstNoDup(tags, args[1]);
    }
  }

  /** `tag add t` then `tag remove t`, for a tag that was not there,
      gives back the list it started from. */
  lemma TagAddRemove(tags: seq<string>, t: string)
    requires t !in tags
    ensures TagEdit(TagEdit(tags, ["add", t]).1, ["remove", t]).1 == tags
  {
    assert Lower("add") == "add" && Lower("remove") == "remove";
    assert ["add", t][1..] == [t] && ["remove", t][1..] == [t];
    RemoveLast(tags, t);
  }

  /** `tag set` makes the remaining words the tags; `tag clear` with no
      more words empties the list and with more is an error. */
  lemma TagSetClear(tags: seq<string>, args: seq<string>)
    requires args != []
    ensures Lower(args[0]) == "set" ==> TagEdit(tags, args) == (Ok, args[1..])
    ensures Lower(args[0]) == "clear" ==> TagEdit(tags, args) == if |args| == 1 then (Ok, []) else (Fail(Usage), tags)
  {
  }

  // --- Dispatch ---

  /** The names of the command table. */
  const CommandNames: set<string> :=
    {"fill", "clear", "select", "size", "fps", "speed", "tag", "help", "save", "load", "quick_save", "quick_load", "info"}

  /** What a command line asks for: a command of the table with its
      arguments, the selection of an element, or nothing known. */
  datatype Plan = Run(name: string, args: seq<string>) | Pick(key: char) | Unknown

  /** `process_command` as written: the first word is lower-cased before it
      is looked up as a command, as an element key and as an element
      name. */
  function RouteAsWritten(reg: Registry, order: seq<char>, parts: seq<string>): (p: Plan)
    requires parts != []
    ensures p.Pick? ==> p.key in reg
  {
    var name := Lower(parts[0]);
    if name in CommandNames then Run(name, parts[1..])
    else if |name| == 1 && name[0] in reg then Pick(name[0])
    else match ByName(reg, order, name)
      case Some(c) => Pick(c)
      case None => Unknown
  }

  /** The command dispatch with the key looked up as typed, as `select`
      and `fill` do: a command name is still matched ignoring case. */
  function Route(reg: Registry, order: seq<char>, parts: seq<string>): (p: Plan)
    requires parts != []
    ensures p.Pick? ==> p.key in reg
  {
    var name := Lower(parts[0]);
    if name in CommandNames then Run(name, parts[1..])
    else if |parts[0]| == 1 && parts[0][0] in reg then Pick(parts[0][0])
    else match ByName(reg, order, name)
      case Some(c) => Pick(c)
      case None => Unknown
  }

  /** With key 'W' for one element and 'w' for another, typing `W` selects
      the element of 'w'. */
  lemma RouteLowersKey(reg: Registry, order: seq<char>)
    requires 'W' in reg && 'w' in reg
    ensures RouteAsWritten(reg, order, ["W"]) == Pick('w')
  {
    assert Lower("W") == "w";
    assert "w" !in CommandNames;
  }

  /** Typing `S` when only 'S' is registered, and no name is `s`, is an
      unknown command. */
  lemma RouteMissesKey(reg: Registry, order: seq<char>)
    requires 'S' in reg && 's' !in reg
    requires forall c :: c in reg ==> Lower(Name(reg[c])) != "s"
    ensures RouteAsWritten(reg, order, ["S"]) == Unknown
  {
    assert Lower("S") == "s";
    assert "s" !in CommandNames;
  }

  /** A command word of one character is never a command name. */
  lemma NoShortCommand(w: string)
    requires |w| == 1
    ensures Lower(w) !in CommandNames
  {
    var l := Lower(w);
    assert |l| == 1;
    assert forall n :: n in CommandNames ==> |n| >= 3;
  }

  /** Every registered key typed as a command selects its own element;
      a command name in any case runs that command. */
  lemma RouteKeys(reg: Registry, order: seq<char>, c: char, parts: seq<string>)
    requires c in reg && parts != []
    ensures Route(reg, order, [[c]] + parts[1..]) == Pick(c)
    ensures Lower(parts[0]) in CommandNames ==> Route(reg, order, parts) == Run(Lower(parts[0]), parts[1..])
  {
    NoShortCommand([c]);
    assert ([[c]] + parts[1..])[0] == [c];
  }

  /** Both dispatches agree on every word without capital letters. */
  lemma RouteAgrees(reg: Registry, order: seq<char>, parts: seq<string>)
    requires parts != [] && Lower(parts[0]) == parts[0]
    ensures Route(reg, order, parts) == RouteAsWritten(reg, order, parts)
  {
  }

  // --- Quick load ---

  /** `quick_load` as written clamps the cursor into the game area of the
      screen layout, not into the loaded grid: when the grid is lower than
      the game area, a cursor on the bottom row of the game area stays
      below the grid. */
  lemma QuickLoadOffGrid(gameHeight: int, h: int)
    requires 1 <= h < gameHeight
    ensures Game.Clamp(gameHeight - 1, gameHeight) >= h
  {
  }

  /** The command processor of a game, with its quick-save slots. */
  class Processor {
    const game: Game.Game
    /** the iteration order of the element registry */
    const order: seq<char>
    /** `quick_saves`: slot number to saved grid */
    var slots: map<int, Saves.Data>

    /** The game's bookkeeping is in range, and every slot holds a
        dictionary of a grid with positive dimensions. */
    ghost predicate Valid()
      reads this, game, game.grid, game.grid.cells, game.grid.Repr
    {
      game.Inv() &&
      forall n :: n in slots ==> 0 <= n <= LastSlot && Saves.Restored(game.reg, slots[n]).Some?
    }

    /** Every part of the state outside `changed` is as it was, and
        unless the grid is in `changed` it is the same grid showing b. */
    twostate predicate KeepsBut(b: Board, changed: set<Part>)
      reads this, game, game.grid, game.grid.cells, game.grid.Repr
    {
      (GridPart !in changed ==> game.grid == old(game.grid) && game.grid.Shows(b, old(game.grid.Repr))) &&
      (Cursor !in changed ==> game.cursorY == old(game.cursorY) && game.cursorX == old(game.cursorX)) &&
      (CursorSize !in changed ==> game.cursorSize == old(game.cursorSize)) &&
      (TagList !in changed ==> game.tags == old(game.tags)) &&
      (Selection !in changed ==> game.selected == old(game.selected) && game.scroll == old(game.scroll)) &&
      (Slots !in changed ==> slots == old(slots))
    }

    constructor (g: Game.Game, order0: seq<char>)
      requires g.Inv()
      ensures Valid() && game == g && order == order0 && slots == map[]
    {
      game, order, slots := g, order0, map[];
    }

    /** `_cmd_fill`: with one argument naming a registered element and the
        cursor on the grid, fills the cursor's connected component of
        same-key cells (or empty cells) with new elements of that key, each
        carrying the current tags, and answers with the number of cells
        filled.  It does nothing when the cursor's cell already holds that
        key; in every other case it fails with the grid unchanged. */
    method FillCmd(args: seq<string>, ghost b: Board)
      returns (reply: Reply, ghost R: set<Flood.Cell>, ghost from: map<Flood.Cell, (Flood.Cell, int)>,
               ghost depth: map<Flood.Cell, nat>)
      requires Valid() && game.grid.Shows(b, game.grid.Repr)
      modifies game.grid, game.grid.cells
      ensures Valid() && unchanged(game)
      ensures reply == Fail(Usage) <==> |args| != 1
      ensures reply == Fail(UnknownElement) <==> |args| == 1 && Resolve(game.reg, order, args[0]).None?
      ensures reply == Fail(CursorOutside) <==>
        |args| == 1 && Resolve(game.reg, order, args[0]).Some? && !game.CursorIn()
      ensures reply == Unchanged <==>
        |args| == 1 && Resolve(game.reg, order, args[0]).Some? && game.CursorIn() &&
        Flood.KeyAt(b, (game.cursorY, game.cursorX)) == Resolve(game.reg, order, args[0])
      ensures reply.Fail? || reply == Unchanged || reply.Filled?
      ensures !reply.Filled? ==> game.grid.Shows(b, old(game.grid.Repr))
      ensures reply.Filled? ==>
        var key, start := Resolve(game.reg, order, args[0]).value, (game.cursorY, game.cursorX);
        var t := Flood.KeyAt(b, start);
        t != Some(key) &&
        game.grid.Shows(Flood.Flooded(b, R, New(game.reg[key], Initial(game.reg[key], game.tags))), old(game.grid.Repr)) &&
        reply.count == |R| && Flood.Closed(b, t, R) && Flood.Tree(b, t, start, R, from, depth)
    {
      R, from, depth := {}, map[], map[];
      if |args| != 1 {
        return Fail(Usage), R, from, depth;
      }
      var key := Identify(args[0]);
      if key.None? {
        return Fail(UnknownElement), R, from, depth;
      }
      if !game.grid.IsValid(game.cursorY, game.cursorX) {
        return Fail(CursorOutside), R, from, depth;
      }
      reply, R, from, depth := FillAt(key.value, b);
    }

    /** An element identifier, looked up as `fill` and `select` do. */
    method Identify(id: string) returns (key: Option<char>)
      ensures key == Resolve(game.reg, order, id)
    {
      if |id| == 1 && id[0] in game.reg {
        key := Some(id[0]);
      } else {
        key := FindByName(game.reg, order, Lower(id));
      }
    }

    /** The fill from the cursor, on the grid, with the element of `key`. */
    method FillAt(key: char, ghost b: Board)
      returns (reply: Reply, ghost R: set<Flood.Cell>, ghost from: map<Flood.Cell, (Flood.Cell, int)>,
               ghost depth: map<Flood.Cell, nat>)
      requires Valid() && game.grid.Shows(b, game.grid.Repr) && key in game.reg && game.CursorIn()
      modifies game.grid, game.grid.cells
      ensures Valid() && unchanged(game)
      ensures var start := (game.cursorY, game.cursorX);
        var t := Flood.KeyAt(b, start);
        (reply == Unchanged <==> t == Some(key)) && (reply == Unchanged || reply.Filled?) &&
        (reply == Unchanged ==> game.grid.Shows(b, old(game.grid.Repr))) &&
        (reply.Filled? ==>
          game.grid.Shows(Flood.Flooded(b, R, New(game.reg[key], Initial(game.reg[key], game.tags))), old(game.grid.Repr)) &&
          reply.count == |R| && Flood.Closed(b, t, R) && Flood.Tree(b, t, start, R, from, depth))
    {
      R, from, depth := {}, map[], map[];
      var g := game.grid;
      var start := (game.cursorY, game.cursorX);
      var target := g.GetElement(start.0, start.1);
      g.MatchAt(b, g.Repr, start.0, start.1);
      var t: Option<char> := if target == null then None else Some(Key(target.kind));
      assert t == Flood.KeyAt(b, start);
      if t == Some(key) {
        return Unchanged, R, from, depth;
      }
      var count;
      count, R, from, depth := Flood.Fill(g, game.reg, key, game.tags, start, t, b, g.Repr);
      reply := Filled(count);
    }

    /** `_cmd_clear`: with no argument, every cell of the grid empty. */
    method ClearCmd(args: seq<string>, ghost b: Board) returns (reply: Reply)
      requires Valid() && game.grid.Shows(b, game.grid.Repr)
      modifies game.grid.cells
      ensures Valid() && unchanged(game)
      ensures reply == (if args == [] then Ok else Fail(Usage))
      ensures args == [] ==> game.grid.Shows(Blank(game.grid.height, game.grid.width), game.grid.Repr)
      ensures args != [] ==> game.grid.Shows(b, game.grid.Repr)
    {
      if args != [] {
        return Fail(Usage);
      }
      game.grid.Clear(b, game.grid.Repr);
      reply := Ok;
    }

    /** `_cmd_select`: with one argument naming a registered element that
        is placeable, selects its position in the placeable list and
        scrolls the list to show it; otherwise fails and changes
        nothing. */
    method SelectCmd(args: seq<string>) returns (reply: Reply)
      requires Valid()
      modifies game`selected, game`scroll
      ensures Valid()
      ensures reply == Fail(Usage) <==> |args| != 1
      ensures reply == Fail(UnknownElement) <==> |args| == 1 && Resolve(game.reg, order, args[0]).None?
      ensures reply == Fail(NotPlaceable) <==>
        |args| == 1 && Resolve(game.reg, order, args[0]).Some? && Resolve(game.reg, order, args[0]).value !in game.keys
      ensures reply.Fail? || reply == Ok
      ensures reply.Fail? ==> game.selected == old(game.selected) && game.scroll == old(game.scroll)
      ensures reply == Ok ==>
        var key := Resolve(game.reg, order, args[0]).value;
        game.keys[game.selected] == key && key !in game.keys[..game.selected] &&
        game.scroll == Game.Scrolled(game.selected, old(game.scroll), |game.keys|, Game.ListHeight(game.height))
    {
      if |args| != 1 {
        return Fail(Usage);
      }
      var found := Identify(args[0]);
      if found.None? {
        return Fail(UnknownElement);
      }
      var key := found.value;
      if key !in game.keys {
        return Fail(NotPlaceable);
      }
      game.SelectAt(IndexOf(game.keys, key));
      reply := Ok;
    }

    /** `_cmd_size`: a cursor size of 1 to `MAX_CURSOR_SIZE` is taken;
        anything else fails and leaves the size as it was. */
    method SizeCmd(args: seq<string>) returns (reply: Reply)
      requires Valid()
      modifies game`cursorSize
      ensures Valid()
      ensures var a := NumberArg(args, 1, MaxCursorSize);
        (a.Num? ==> reply == Ok && game.cursorSize == a.n) &&
        (a.Wrong? ==> reply == Fail(a.cause) && game.cursorSize == old(game.cursorSize))
    {
      var a := NumberArg(args, 1, MaxCursorSize);
      if a.Wrong? {
        return Fail(a.cause);
      }
      game.cursorSize := a.n;
      reply := Ok;
    }

    /** `_cmd_tag` on the game's current tags. */
    method TagCmd(args: seq<string>) returns (reply: Reply)
      requires Valid()
      modifies game`tags
      ensures Valid()
      ensures (reply, game.tags) == TagEdit(old(game.tags), args)
    {
      if args == [] {
        return Silent;
      }
      var sub, rest := Lower(args[0]), args[1..];
      if sub == "add" {
        if rest == [] {
          return Fail(Usage);
        }
        if rest[0] in game.tags {
          return Unchanged;
        }
        game.tags := game.tags + [rest[0]];
      } else if sub == "remove" {
        if rest == [] {
          return Fail(Usage);
        }
        if rest[0] !in game.tags {
          return Fail(NoSuchTag);
        }
        game.tags := RemoveFirst(game.tags, rest[0]);
      } else if sub == "set" {
        game.tags := rest;
      } else if sub == "clear" {
        if rest != [] {
          return Fail(Usage);
        }
        game.tags := [];
      } else {
        return Fail(BadTagCommand);
      }
      reply := Ok;
    }

    /** `_cmd_quick_save`: slot 0 to 9 gets the dictionary of the current
        grid; any other argument fails and leaves the slots as they were. */
    method QuickSaveCmd(args: seq<string>, ghost b: Board) returns (reply: Reply)
      requires Valid() && game.grid.Shows(b, game.grid.Repr)
      modifies this`slots
      ensures Valid()
      ensures var a := NumberArg(args, 0, LastSlot);
        (a.Num? ==> reply == Ok && slots == old(slots)[a.n := Saves.Serialized(b, old(game.grid.height), old(game.grid.width))]) &&
        (a.Wrong? ==> reply == Fail(a.cause) && slots == old(slots))
    {
      var a := NumberArg(args, 0, LastSlot);
      if a.Wrong? {
        return Fail(a.cause);
      }
      var d := Saves.GridToDict(game.grid, b, game.grid.Repr);
      SavedIsLoadable(game.reg, b, game.grid.height, game.grid.width);
      slots := slots[a.n := d];
      reply := Ok;
    }

    /** `_cmd_quick_load` as written: the grid of the slot replaces the
        game's grid and the cursor is clamped into the game area of the
        layout.  The game area itself is left as it was: the source sets
        it to the grid's size and at once recomputes it from the screen
        size, which gives back the values it had. */
    method QuickLoadAsWritten(args: seq<string>) returns (reply: Reply)
      requires Valid()
      modifies game`grid, game`cursorX, game`cursorY
      ensures Valid()
      ensures var a := NumberArg(args, 0, LastSlot);
        (reply == Ok <==> a.Num? && a.n in slots) &&
        (a.Wrong? ==> reply == Fail(a.cause)) &&
        (a.Num? && a.n !in slots ==> reply == Fail(EmptySlot)) &&
        (reply.Fail? ==> game.grid == old(game.grid) && game.cursorX == old(game.cursorX) && game.cursorY == old(game.cursorY)) &&
        (reply == Ok ==> (fresh(game.grid) && game.grid.Shows(Saves.Restored(game.reg, slots[a.n]).value, {}) &&
           game.cursorY == Game.Clamp(old(game.cursorY), game.gameHeight) &&
           game.cursorX == Game.Clamp(old(game.cursorX), game.gameWidth)))
    {
      var a := NumberArg(args, 0, LastSlot);
      if a.Wrong? {
        return Fail(a.cause);
      }
      if a.n !in slots {
        return Fail(EmptySlot);
      }
      var g := Saves.DictToGrid(game.reg, slots[a.n]);
      game.grid := g;
      game.cursorX := Game.Clamp(game.cursorX, game.gameWidth);
      game.cursorY := Game.Clamp(game.cursorY, game.gameHeight);
      reply := Ok;
    }

    /** The discrepancy of `QuickLoadAsWritten` on the grid: with the
        cursor on the bottom row of the game area, loading a slot whose
        grid is lower than the game area succeeds and leaves the cursor
        below the loaded grid. */
    method QuickLoadLeavesGrid(args: seq<string>) returns (reply: Reply)
      requires Valid()
      requires var a := NumberArg(args, 0, LastSlot);
        a.Num? && a.n in slots &&
        |Saves.Restored(game.reg, slots[a.n]).value| < game.gameHeight
      requires game.cursorY == game.gameHeight - 1
      modifies game`grid, game`cursorX, game`cursorY
      ensures reply == Ok && game.cursorY >= game.grid.height && !game.CursorIn()
    {
      ghost var h := |Saves.Restored(game.reg, slots[NumberArg(args, 0, LastSlot).n]).value|;
      reply := QuickLoadAsWritten(args);
      QuickLoadOffGrid(game.gameHeight, h);
    }

    /** `_cmd_quick_load` with the cursor clamped into the loaded grid:
        afterwards the cursor is on the grid. */
    method QuickLoadCmd(args: seq<string>) returns (reply: Reply)
      requires Valid()
      modifies game`grid, game`cursorX, game`cursorY
      ensures Valid()
      ensures var a := NumberArg(args, 0, LastSlot);
        (reply == Ok <==> a.Num? && a.n in slots) &&
        (a.Wrong? ==> reply == Fail(a.cause)) &&
        (a.Num? && a.n !in slots ==> reply == Fail(EmptySlot)) &&
        (reply.Fail? ==> game.grid == old(game.grid) && game.cursorX == old(game.cursorX) && game.cursorY == old(game.cursorY)) &&
        (reply == Ok ==> (fresh(game.grid) && game.grid.Shows(Saves.Restored(game.reg, slots[a.n]).value, {}) &&
           game.CursorIn() &&
           game.cursorY == Game.Clamp(old(game.cursorY), game.grid.height) &&
           game.cursorX == Game.Clamp(old(game.cursorX), game.grid.width)))
    {
      var a := NumberArg(args, 0, LastSlot);
      if a.Wrong? {
        return Fail(a.cause);
      }
      if a.n !in slots {
        return Fail(EmptySlot);
      }
      var g := Saves.DictToGrid(game.reg, slots[a.n]);
      game.grid := g;
      game.cursorX := Game.Clamp(game.cursorX, g.width);
      game.cursorY := Game.Clamp(game.cursorY, g.height);
      reply := Ok;
    }

    /** `fill`, as FillCmd states it, with every other part of the state as it was. */
    twostate predicate FillOutcome(b: Board, args: seq<string>, reply: Reply, new R: set<Flood.Cell>,
                             new from: map<Flood.Cell, (Flood.Cell, int)>, new depth: map<Flood.Cell, nat>)
      requires Valid() && old(game.grid.Shows(b, game.grid.Repr))
      reads this, game, game.grid, game.grid.cells, game.grid.Repr
    {
      KeepsBut(b, {GridPart}) && game.grid == old(game.grid) &&
      (reply == Fail(Usage) <==> |args| != 1) &&
      (reply == Fail(UnknownElement) <==> |args| == 1 && Resolve(game.reg, order, args[0]).None?) &&
      (reply == Fail(CursorOutside) <==>
         |args| == 1 && Resolve(game.reg, order, args[0]).Some? && !old(game.CursorIn())) &&
      (reply.Fail? || reply == Unchanged || reply.Filled?) &&
      (!reply.Filled? ==> game.grid.Shows(b, old(game.grid.Repr))) &&
      (reply.Filled? ==>
         var key := Resolve(game.reg, order, args[0]).value;
         var t := Flood.KeyAt(b, (old(game.cursorY), old(game.cursorX)));
         t != Some(key) &&
         game.grid.Shows(Flood.Flooded(b, R, New(game.reg[key], Initial(game.reg[key], old(game.tags)))),
                         old(game.grid.Repr)) &&
         reply.count == |R| && Flood.Closed(b, t, R) &&
         Flood.Tree(b, t, (old(game.cursorY), old(game.cursorX)), R, from, depth))
    }

    /** `clear`, as ClearCmd states it, with every other part of the state as it was. */
    twostate predicate ClearOutcome(b: Board, args: seq<string>, reply: Reply)
      requires Valid() && old(game.grid.Shows(b, game.grid.Repr))
      reads this, game, game.grid, game.grid.cells, game.grid.Repr
    {
      KeepsBut(b, {GridPart}) && game.grid == old(game.grid) &&
      reply == (if args == [] then Ok else Fail(Usage)) &&
      (args == [] ==> game.grid.Shows(Blank(game.grid.height, game.grid.width), game.grid.Repr)) &&
      (args != [] ==> game.grid.Shows(b, game.grid.Repr))
    }

    /** `select`, as SelectCmd states it, with every other part of the state as it was. */
    twostate predicate SelectOutcome(b: Board, args: seq<string>, reply: Reply)
      requires Valid() && old(game.grid.Shows(b, game.grid.Repr))
      reads this, game, game.grid, game.grid.cells, game.grid.Repr
    {
      KeepsBut(b, {Selection}) &&
      (reply == Fail(Usage) <==> |args| != 1) &&
      (reply == Fail(UnknownElement) <==> |args| == 1 && Resolve(game.reg, order, args[0]).None?) &&
      (reply == Fail(NotPlaceable) <==>
         |args| == 1 && Resolve(game.reg, order, args[0]).Some? && Resolve(game.reg, order, args[0]).value !in game.keys) &&
      (reply.Fail? || reply == Ok) &&
      (reply.Fail? ==> game.selected == old(game.selected) && game.scroll == old(game.scroll)) &&
      (reply == Ok ==>
         var key := Resolve(game.reg, order, args[0]).value;
         game.keys[game.selected] == key && key !in game.keys[..game.selected] &&
         game.scroll == Game.Scrolled(game.selected, old(game.scroll), |game.keys|, Game.ListHeight(game.height)))
    }

    /** `size`, as SizeCmd states it, with every other part of the state as it was. */
    twostate predicate SizeOutcome(b: Board, args: seq<string>, reply: Reply)
      requires Valid() && old(game.grid.Shows(b, game.grid.Repr))
      reads this, game, game.grid, game.grid.cells, game.grid.Repr
    {
      var a := NumberArg(args, 1, MaxCursorSize);
      KeepsBut(b, {CursorSize}) &&
      (a.Num? ==> reply == Ok && game.cursorSize == a.n) &&
      (a.Wrong? ==> reply == Fail(a.cause) && game.cursorSize == old(game.cursorSize))
    }

    /** `tag`, as TagCmd states it, with every other part of the state as it was. */
    twostate predicate TagOutcome(b: Board, args: seq<string>, reply: Reply)
      requires Valid() && old(game.grid.Shows(b, game.grid.Repr))
      reads this, game, game.grid, game.grid.cells, game.grid.Repr
    {
      KeepsBut(b, {TagList}) && (reply, game.tags) == TagEdit(old(game.tags), args)
    }

    /** `quick_save`, as QuickSaveCmd states it, with every other part of the state as it was. */
    twostate predicate QuickSaveOutcome(b: Board, args: seq<string>, reply: Reply)
      requires Valid() && old(game.grid.Shows(b, game.grid.Repr))
      reads this, game, game.grid, game.grid.cells, game.grid.Repr
    {
      var a := NumberArg(args, 0, LastSlot);
      KeepsBut(b, {Slots}) &&
      (a.Num? ==> reply == Ok && slots == old(slots)[a.n := Saves.Serialized(b, old(game.grid.height), old(game.grid.width))]) &&
      (a.Wrong? ==> reply == Fail(a.cause) && slots == old(slots))
    }

    /** `quick_load` (clamping into the loaded grid), as QuickLoadCmd states it; a failure changes nothing. */
    twostate predicate QuickLoadOutcome(b: Board, args: seq<string>, reply: Reply)
      requires Valid() && old(game.grid.Shows(b, game.grid.Repr))
      reads this, game, game.grid, game.grid.cells, game.grid.Repr
    {
      var a := NumberArg(args, 0, LastSlot);
      (reply == Ok <==> a.Num? && a.n in old(slots)) &&
      (a.Wrong? ==> reply == Fail(a.cause)) &&
      (a.Num? && a.n !in old(slots) ==> reply == Fail(EmptySlot)) &&
      (reply.Fail? ==> KeepsBut(b, {})) &&
      (reply == Ok ==>
         KeepsBut(b, {GridPart, Cursor}) && fresh(game.grid) &&
         game.grid.Shows(Saves.Restored(game.reg, old(slots)[a.n]).value, {}) &&
         game.CursorIn() &&
         game.cursorY == Game.Clamp(old(game.cursorY), game.grid.height) &&
         game.cursorX == Game.Clamp(old(game.cursorX), game.grid.width))
    }

    /** The outcome of a command of the table run as `name` with the words
        `args`, b being the grid as it was: each command's replies and the
        state it leaves, as its own method states them, and every part of
        the state it does not touch as it was; a name outside the table
        answers nothing and changes nothing. */
    twostate predicate Ran(b: Board, name: string, args: seq<string>, reply: Reply, new R: set<Flood.Cell>,
                           new from: map<Flood.Cell, (Flood.Cell, int)>, new depth: map<Flood.Cell, nat>)
      requires Valid() && old(game.grid.Shows(b, game.grid.Repr))
      reads this, game, game.grid, game.grid.cells, game.grid.Repr
    {
      if name == "fill" then FillOutcome(b, args, reply, R, from, depth)
      else if name == "clear" then ClearOutcome(b, args, reply)
      else if name == "select" then SelectOutcome(b, args, reply)
      else if name == "size" then SizeOutcome(b, args, reply)
      else if name == "tag" then TagOutcome(b, args, reply)
      else if name == "quick_save" then QuickSaveOutcome(b, args, reply)
      else if name == "quick_load" then QuickLoadOutcome(b, args, reply)
      else
        reply == Silent && KeepsBut(b, {})
    }

    /** The command of the table named `name`, run with the words `args`. */
    method RunCmd(name: string, args: seq<string>, ghost b: Board)
      returns (reply: Reply, ghost R: set<Flood.Cell>, ghost from: map<Flood.Cell, (Flood.Cell, int)>,
               ghost depth: map<Flood.Cell, nat>)
      requires Valid() && game.grid.Shows(b, game.grid.Repr)
      modifies this`slots, game`grid, game`cursorX, game`cursorY, game`cursorSize, game`selected, game`scroll,
        game`tags, game.grid, game.grid.cells
      ensures Valid() && Ran(b, name, args, reply, R, from, depth)
    {
      if name in {"fill", "clear", "quick_save", "quick_load"} {
        reply, R, from, depth := RunGridCmd(name, args, b);
      } else {
        R, from, depth := {}, map[], map[];
        reply := RunSettingCmd(name, args, b);
      }
    }

    /** The commands that read or replace the grid. */
    method RunGridCmd(name: string, args: seq<string>, ghost b: Board)
      returns (reply: Reply, ghost R: set<Flood.Cell>, ghost from: map<Flood.Cell, (Flood.Cell, int)>,
               ghost depth: map<Flood.Cell, nat>)
      requires Valid() && game.grid.Shows(b, game.grid.Repr)
      requires name in {"fill", "clear", "quick_save", "quick_load"}
      modifies this`slots, game`grid, game`cursorX, game`cursorY, game.grid, game.grid.cells
      ensures Valid() && Ran(b, name, args, reply, R, from, depth)
    {
      R, from, depth := {}, map[], map[];
      if name == "fill" {
        reply, R, from, depth := FillCmd(args, b);
      } else if name == "clear" {
        reply := ClearCmd(args, b);
      } else if name == "quick_save" {
        reply := QuickSaveCmd(args, b);
      } else {
        reply := QuickLoadCmd(args);
      }
    }

    /** The commands that change only the game's settings, and the names
        outside the table. */
    method RunSettingCmd(name: string, args: seq<string>, ghost b: Board) returns (reply: Reply)
      requires Valid() && game.grid.Shows(b, game.grid.Repr)
      requires name !in {"fill", "clear", "quick_save", "quick_load"}
      modifies game`cursorSize, game`selected, game`scroll, game`tags
      ensures Valid() && Ran(b, name, args, reply, {}, map[], map[])
    {
      if name == "select" {
        reply := SelectCmd(args);
      } else if name == "size" {
        reply := SizeCmd(args);
      } else if name == "tag" {
        reply := TagCmd(args);
      } else {
        reply := Silent;
      }
    }

    /** `process_command` on the words of a command line, b being the grid
        as it is: nothing for an empty line; a command of the table runs with
        the remaining words and has that command's outcome; a key or name
        selects that element as `select` would; anything else is an unknown
        command.  The dispatch is the corrected one (`Route`, and `quick_load`
        clamping into the loaded grid).  The commands `fps`, `speed`, `help`,
        `save`, `load` and `info` are outside this model and answer nothing
        here.  A fill also gives the filled cells R, with the search tree
        (`from`, `depth`) that reaches each of them from the cursor. */
    method Process(parts: seq<string>, ghost b: Board)
      returns (reply: Reply, ghost R: set<Flood.Cell>, ghost from: map<Flood.Cell, (Flood.Cell, int)>,
               ghost depth: map<Flood.Cell, nat>)
      requires Valid() && game.grid.Shows(b, game.grid.Repr)
      modifies this`slots, game`grid, game`cursorX, game`cursorY, game`cursorSize, game`selected, game`scroll,
        game`tags, game.grid, game.grid.cells
      ensures Valid()
      ensures parts == [] ==> reply == Silent && KeepsBut(b, {})
      ensures parts != [] ==> match Route(game.reg, order, parts)
        case Unknown => reply == Fail(UnknownCommand) && KeepsBut(b, {})
        case Pick(c) =>
          KeepsBut(b, {Selection}) &&
          (reply == Fail(NotPlaceable) <==> c !in game.keys) && (reply.Fail? || reply == Ok) &&
          (reply.Fail? ==> game.selected == old(game.selected) && game.scroll == old(game.scroll)) &&
          (reply == Ok ==>
             game.keys[game.selected] == c && c !in game.keys[..game.selected] &&
             game.scroll == Game.Scrolled(game.selected, old(game.scroll), |game.keys|, Game.ListHeight(game.height)))
        case Run(name, args) => Ran(b, name, args, reply, R, from, depth)
    {
      R, from, depth := {}, map[], map[];
      if parts == [] {
        return Silent, R, from, depth;
      }
      match Route(game.reg, order, parts)
      case Unknown =>
        reply := Fail(UnknownCommand);
      case Pick(c) =>
        ResolveKey(game.reg, order, c);
        reply := SelectCmd([[c]]);
      case Run(name, args) =>
        reply, R, from, depth := RunCmd(name, args, b);
    }
  }

  /** The dictionary of a grid always builds a grid again. */
  lemma SavedIsLoadable(reg: Registry, b: Board, h: int, w: int)
    requires Shaped(b, h, w) && h > 0 && w > 0
    ensures Saves.Restored(reg, Saves.Serialized(b, h, w)).Some?
  {
  }
}
