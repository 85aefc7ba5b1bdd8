// The element manager: the registration rules applied to the element classes
// found while scanning the element packages, the lookup of a class by key,
// and the order in which the registered keys are offered for placement.
// The scan itself (walking directories, importing modules, inspecting their
// members) is not modelled: its result is the list of classes found, in the
// order they were found.

module ElementManager {
  import opened Kinds

  datatype Option<T> = None | Some(value: T)

  /** A class found in an element module: one of the element classes, or the
      empty-space class, whose `key` is ' '. */
  datatype Class = Element(kind: Kind) | EmptySpace

  /** A found class together with the value of its `key` attribute; `None`
      stands for a key that is missing or empty. */
  datatype Found = Found(key: Option<char>, cls: Class)

  /** The empty-space class carries the key ' ' that every class inherits. */
  predicate WellKeyed(found: seq<Found>)
  {
    forall i :: 0 <= i < |found| && found[i].cls == EmptySpace ==> found[i].key == Some(' ')
  }

  /** A found key that is registered: present, and not the blank key. */
  predicate Registers(f: Found)
  {
    f.key.Some? && f.key.value != ' '
  }

  /** The registry the scan builds: each registering class filed under its
      key, a later class overwriting an earlier one with the same key. */
  function Registered(found: seq<Found>): (reg: Registry)
    requires WellKeyed(found)
    ensures ' ' !in reg
  {
    if found == [] then map[]
    else
      var f := found[|found| - 1];
      var reg := Registered(found[..|found| - 1]);
      if Registers(f) then reg[f.key.value := f.cls.kind] else reg
  }

  /** The keys `_ORIGINAL_ORDER` lists that are registered, in its order. */
  function Prefix(order: seq<char>, reg: Registry): (p: seq<char>)
    ensures forall c :: c in p <==> c in order && c in reg
  {
    if order == [] then []
    else (if order[0] in reg then [order[0]] else []) + Prefix(order[1..], reg)
  }

  /** No key appears twice. */
  predicate Distinct(s: seq<char>)
  {
    forall m, n :: 0 <= m < n < |s| ==> s[m] != s[n]
  }

  /** `p` is a subsequence of `q`: its items appear in `q` in the same order. */
  predicate InOrder(p: seq<char>, q: seq<char>)
    decreases |q|
  {
    if p == [] then true
    else if q == [] then false
    else (p[0] == q[0] && InOrder(p[1..], q[1..])) || InOrder(p, q[1..])
  }

  /** The placeable order built from a registry: the registered keys of
      `_ORIGINAL_ORDER` first, in its order, then every other registered key
      once, in the order the key set is iterated. */
  predicate PlaceableOrder(p: seq<char>, pri: seq<char>, reg: Registry)
  {
    |Prefix(pri, reg)| <= |p| && p[..|Prefix(pri, reg)|] == Prefix(pri, reg) &&
    (forall k :: |Prefix(pri, reg)| <= k < |p| ==> p[k] !in pri) &&
    Distinct(p) && (forall c :: c in p <==> c in reg)
  }

  class Manager {
    /** key to element class */
    var registry: Registry
    /** the keys of `registry`, in the order a dictionary iterates them */
    var order: seq<char>
    /** `placeable_order` */
    var placeable: seq<char>
    var loaded: bool

    /** The registry's iteration order lists each registered key once. */
    ghost predicate Valid()
      reads this
    {
      Distinct(order) && forall c :: c in order <==> c in registry
    }

    constructor ()
      ensures Valid() && registry == map[] && order == [] && placeable == [] && !loaded
    {
      registry, order, placeable, loaded := map[], [], [], false;
    }

    /** `load_elements`, given whether the element directory exists and the
        classes the scan finds, in order. */
    method LoadElements(dirExists: bool, found: seq<Found>)
      requires Valid() && WellKeyed(found)
      modifies this
      ensures Valid() && loaded
      ensures old(loaded) ==> registry == old(registry) && order == old(order) && placeable == old(placeable)
      ensures !old(loaded) && !dirExists ==> registry == map[] && order == [] && placeable == old(placeable)
      ensures !old(loaded) && dirExists ==> registry == Registered(found) && PlaceableOrder(placeable, OriginalOrder, registry)
    {
      if loaded {
        return;
      }
      registry, order := map[], [];
      if !dirExists {
        loaded := true;
        return;
      }
      RegisterAll(found);
      OriginalDistinct();
      BuildPlaceable(OriginalOrder);
      loaded := true;
    }

    /** The registration loop over the found classes. */
    method RegisterAll(found: seq<Found>)
      requires WellKeyed(found) && registry == map[] && order == []
      modifies this
      ensures Valid() && registry == Registered(found) && placeable == old(placeable) && loaded == old(loaded)
    {
      var i := 0;
      while i < |found|
        invariant 0 <= i <= |found| && Valid()
        invariant registry == Registered(found[..i])
        invariant placeable == old(placeable) && loaded == old(loaded)
      {
        assert found[..i + 1][..i] == found[..i];
        var f := found[i];
        if Registers(f) {
          if f.key.value !in registry {
            order := order + [f.key.value];
          }
          registry := registry[f.key.value := f.cls.kind];
        }
        i := i + 1;
      }
      assert found[..|found|] == found;
    }

    /** The placeable order: the filtered priority list, then each key of the
        key set that is not listed yet. */
    method BuildPlaceable(pri: seq<char>)
      requires Distinct(pri)
      modifies this
      ensures PlaceableOrder(placeable, pri, registry)
      ensures registry == old(registry) && order == old(order) && loaded == old(loaded)
    {
      var prefix := Filter(pri);
      PrefixDistinct(pri, registry);
      placeable := prefix;
      var rest := registry.Keys;
      while rest != {}
        invariant rest <= registry.Keys
        invariant registry == old(registry) && order == old(order) && loaded == old(loaded)
        invariant |prefix| <= |placeable| && placeable[..|prefix|] == prefix
        invariant forall k :: |prefix| <= k < |placeable| ==> placeable[k] !in pri
        invariant Distinct(placeable)
        invariant forall c :: c in placeable ==> c in registry
        invariant forall c :: c in registry && c !in rest ==> c in placeable
        decreases rest
      {
        var k :| k in rest;
        if k !in placeable {
          assert k !in pri;
          DistinctSnoc(placeable, k);
          assert (placeable + [k])[..|prefix|] == placeable[..|prefix|];
          placeable := placeable + [k];
        }
        rest := rest - {k};
      }
    }

    /** `[key for key in order if key in loaded_keys]`, as a loop. */
    method Filter(keys: seq<char>) returns (p: seq<char>)
      ensures p == Prefix(keys, registry)
    {
      p := [];
      var i := |keys|;
      while i > 0
        invariant 0 <= i <= |keys|
        invariant p == Prefix(keys[i..], registry)
        decreases i
      {
        i := i - 1;
        assert keys[i..][1..] == keys[i + 1..];
        if keys[i] in registry {
          p := [keys[i]] + p;
        }
      }
    }

    /** `get_element_class`: the class filed under `key`, or nothing. */
    function GetElementClass(key: char): (r: Option<Kind>)
      reads this
      ensures r.Some? <==> key in registry
      ensures r.Some? ==> r.value == registry[key]
    {
      if key in registry then Some(registry[key]) else None
    }
  }

  /** `registry.get(key)` on a registry value. */
  function Lookup(reg: Registry, key: char): (r: Option<Kind>)
    ensures r.Some? <==> key in reg
    ensures r.Some? ==> r.value == reg[key]
  {
    if key in reg then Some(reg[key]) else None
  }

  // --- Properties ---

  /** A key is registered exactly when some found class registers it. */
  lemma {:induction false} RegisteredIff(found: seq<Found>, c: char)
    requires WellKeyed(found)
    ensures c in Registered(found) <==> exists i :: 0 <= i < |found| && Registers(found[i]) && found[i].key.value == c
  {
    if found != [] {
      var n := |found| - 1;
      var init := found[..n];
      assert forall i :: 0 <= i < n ==> init[i] == found[i];
      RegisteredIff(init, c);
      if c in Registered(found) && !(Registers(found[n]) && found[n].key.value == c) {
        var i :| 0 <= i < n && Registers(init[i]) && init[i].key.value == c;
        assert found[i] == init[i];
      }
      if i :| 0 <= i < |found| && Registers(found[i]) && found[i].key.value == c {
        if i < n {
          assert init[i] == found[i];
          assert c in Registered(init);
        }
      }
    }
  }

  /** A registered key holds the class of the last entry that registers
      it. */
  lemma {:induction false} RegisteredLast(found: seq<Found>, c: char)
    requires WellKeyed(found)
    ensures c in Registered(found) ==>
      exists i :: 0 <= i < |found| && found[i].key == Some(c) && found[i].cls == Element(Registered(found)[c]) &&
        forall j :: i < j < |found| ==> found[j].key != Some(c)
  {
    RegisteredIff(found, c);
    if found != [] && c in Registered(found) {
      var n := |found| - 1;
      var init := found[..n];
      assert forall i :: 0 <= i < n ==> init[i] == found[i];
      if Registers(found[n]) && found[n].key.value == c {
        assert found[n].key == Some(c) && found[n].cls == Element(Registered(found)[c]);
      } else {
        RegisteredLast(init, c);
        var i :| 0 <= i < n && init[i].key == Some(c) && init[i].cls == Element(Registered(init)[c]) &&
          forall j :: i < j < n ==> init[j].key != Some(c);
        assert found[i] == init[i];
        assert Registered(found)[c] == Registered(init)[c];
      }
    }
  }

  /** The blank key and missing keys never reach the registry, whatever the
      scan finds: every registered key is the key of some found class. */
  lemma NeverBlank(found: seq<Found>, c: char)
    requires WellKeyed(found) && c in Registered(found)
    ensures c != ' ' && exists i :: 0 <= i < |found| && found[i].key == Some(c) && found[i].cls.Element?
  {
    RegisteredLast(found, c);
  }

  /** A later class with the same key replaces an earlier one. */
  lemma Overwrites(found: seq<Found>, c: char, k1: Kind, k2: Kind)
    requires WellKeyed(found) && c != ' '
    ensures var two := found + [Found(Some(c), Element(k1)), Found(Some(c), Element(k2))];
      WellKeyed(two) && Registered(two)[c] == k2
  {
    var one := found + [Found(Some(c), Element(k1))];
    var two := one + [Found(Some(c), Element(k2))];
    assert two[..|two| - 1] == one;
  }

  /** The prefix keeps the relative order of the priority list. */
  lemma {:induction false} PrefixInOrder(order: seq<char>, reg: Registry)
    ensures InOrder(Prefix(order, reg), order)
  {
    if order != [] {
      PrefixInOrder(order[1..], reg);
      var rest := Prefix(order[1..], reg);
      if order[0] in reg {
        assert Prefix(order, reg) == [order[0]] + rest;
        assert Prefix(order, reg)[1..] == rest;
      } else {
        assert Prefix(order, reg) == rest;
        SkipsHead(rest, order);
      }
    }
  }

  /** The priority list names each key once. */
  lemma OriginalDistinct()
    ensures Distinct(OriginalOrder)
  {
    assert forall k :: 0 <= k < |OriginalOrder| ==> Rank(OriginalOrder[k]) == k;
  }

  /** The position of a key in the priority list. */
  function Rank(c: char): int
  {
    match c
    case 'S' => 0  case '#' => 1  case 'W' => 2  case 'L' => 3  case 'I' => 4  case 'A' => 5
    case 'J' => 6  case 'Z' => 7  case 'O' => 8  case 'D' => 9  case 'C' => 10 case 'P' => 11
    case 'E' => 12 case 'M' => 13 case 'X' => 14 case 'U' => 15 case 'T' => 16 case 'N' => 17
    case 'Y' => 18 case 'H' => 19 case 'B' => 20 case 'R' => 21 case 'G' => 22 case 'K' => 23
    case 'F' => 24 case 'V' => 25 case '?' => 26 case _ => -1
  }

  /** Appending a new key keeps a list free of repeats. */
  lemma DistinctSnoc(s: seq<char>, k: char)
    requires Distinct(s) && k !in s
    ensures Distinct(s + [k])
  {
  }

  /** Filtering keeps a list free of repeats. */
  lemma {:induction false} PrefixDistinct(order: seq<char>, reg: Registry)
    requires Distinct(order)
    ensures Distinct(Prefix(order, reg))
  {
    if order != [] {
      PrefixDistinct(order[1..], reg);
    }
  }

  /** A subsequence of the tail is a subsequence of the whole. */
  lemma SkipsHead(p: seq<char>, q: seq<char>)
    requires q != [] && InOrder(p, q[1..])
    ensures InOrder(p, q)
  {
  }

  /** The placeable order lists every registered key exactly once, starting
      with the registered keys of the priority list in the priority list's
      order. */
  lemma PlaceableOnce(p: seq<char>, pri: seq<char>, reg: Registry)
    requires PlaceableOrder(p, pri, reg)
    ensures forall c :: c in reg ==> exists k :: 0 <= k < |p| && p[k] == c && forall l :: 0 <= l < |p| && p[l] == c ==> l == k
    ensures var n := |Prefix(pri, reg)|;
      InOrder(p[..n], pri) && forall c :: c in p[..n] <==> c in pri && c in reg
  {
    PrefixInOrder(pri, reg);
    forall c | c in reg
      ensures exists k :: 0 <= k < |p| && p[k] == c && forall l :: 0 <= l < |p| && p[l] == c ==> l == k
    {
      var k :| 0 <= k < |p| && p[k] == c;
    }
  }
}
