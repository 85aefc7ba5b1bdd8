// The random number generator, replaced by an oracle: an infinite stream of
// draws and a read position.  `random.random() < p` for a probability p that
// is a multiple of 0.001 is one draw compared in thousandths; `random.choice`
// over n items is one draw taken modulo n.

module Oracle {

  datatype Rng = Rng(draw: nat -> nat, pos: nat)

  /** The stream after one draw. */
  function Next(r: Rng): (r': Rng)
    ensures r'.draw == r.draw && r'.pos == r.pos + 1
  {
    Rng(r.draw, r.pos + 1)
  }

  /** `random.random() < permille / 1000`: one draw. */
  function Chance(r: Rng, permille: nat): (res: (bool, Rng))
    ensures res.1 == Next(r)
    ensures res.0 <==> r.draw(r.pos) % 1000 < permille
    ensures permille == 0 ==> !res.0
    ensures permille >= 1000 ==> res.0
  {
    (r.draw(r.pos) % 1000 < permille, Next(r))
  }

  /** `random.choice` over n items: an index below n, one draw. */
  function Pick(r: Rng, n: nat): (res: (nat, Rng))
    requires n > 0
    ensures res.0 < n && res.1 == Next(r)
  {
    (r.draw(r.pos) % n, Next(r))
  }

  /** `random.shuffle` of the two-element list [-1, 1]: one draw, the list is
      swapped when the draw below 2 is 0. Returns the first direction. */
  function FirstSide(r: Rng): (res: (int, Rng))
    ensures res.0 == -1 || res.0 == 1
    ensures res.1 == Next(r)
  {
    (if r.draw(r.pos) % 2 == 0 then 1 else -1, Next(r))
  }

  /** `random.choice([-1, 1])`. */
  function Side(r: Rng): (res: (int, Rng))
    ensures res.0 == -1 || res.0 == 1
    ensures res.1 == Next(r)
  {
    (if r.draw(r.pos) % 2 == 0 then -1 else 1, Next(r))
  }

  /** Exchanges the items at i and j. */
  function Swap<T>(s: seq<T>, i: nat, j: nat): (t: seq<T>)
    requires i < |s| && j < |s|
    ensures |t| == |s| && t[i] == s[j] && t[j] == s[i]
    ensures forall k :: 0 <= k < |s| && k != i && k != j ==> t[k] == s[k]
  {
    s[i := s[j]][j := s[i]]
  }

  lemma SwapPerm<T>(s: seq<T>, i: nat, j: nat)
    requires i < |s| && j < |s|
    ensures multiset(Swap(s, i, j)) == multiset(s)
  {
    if i != j {
      var t := s[i := s[j]];
      assert multiset(t) == multiset(s) - multiset{s[i]} + multiset{s[j]};
    }
  }

  /** The loop of `random.shuffle` from index i down to 1: each step draws
      an index j at most i and exchanges the items at i and j. */
  function ShuffleDown<T>(s: seq<T>, i: nat, r: Rng): (res: (seq<T>, Rng))
    requires i < |s|
    ensures |res.0| == |s| && res.1.draw == r.draw && res.1.pos == r.pos + i
    decreases i
  {
    if i == 0 then (s, r)
    else
      var (j, r1) := Pick(r, i + 1);
      ShuffleDown(Swap(s, i, j), i - 1, r1)
  }

  /** `random.shuffle`: one draw per item after the first. */
  function Shuffle<T>(s: seq<T>, r: Rng): (res: (seq<T>, Rng))
    ensures |res.0| == |s| && res.1.draw == r.draw
    ensures res.1.pos == if s == [] then r.pos else r.pos + |s| - 1
  {
    if s == [] then (s, r) else ShuffleDown(s, |s| - 1, r)
  }

  /** The loop rearranges the items and loses or adds none. */
  lemma {:induction false} ShuffleDownPerm<T>(s: seq<T>, i: nat, r: Rng)
    requires i < |s|
    ensures multiset(ShuffleDown(s, i, r).0) == multiset(s)
    decreases i
  {
    if i > 0 {
      var (j, r1) := Pick(r, i + 1);
      SwapPerm(s, i, j);
      ShuffleDownPerm(Swap(s, i, j), i - 1, r1);
    }
  }

  /** A shuffle is a permutation. */
  lemma ShufflePerm<T>(s: seq<T>, r: Rng)
    ensures multiset(Shuffle(s, r).0) == multiset(s)
  {
    if s != [] {
      ShuffleDownPerm(s, |s| - 1, r);
    }
  }

  /** `random.shuffle` of a list in place, as its loop runs. */
  method ShuffleM<T>(s: seq<T>, rng: Rng) returns (t: seq<T>, rng': Rng)
    ensures (t, rng') == Shuffle(s, rng)
  {
    t, rng' := s, rng;
    if |s| == 0 {
      return;
    }
    var i := |s| - 1;
    while i > 0
      invariant 0 <= i < |s| && |t| == |s|
      invariant ShuffleDown(t, i, rng') == Shuffle(s, rng)
      decreases i
    {
      var j;
      j, rng' := Pick(rng', i + 1).0, Pick(rng', i + 1).1;
      t := Swap(t, i, j);
      i := i - 1;
    }
  }
}
