/**
 Target selection of the random topology: a node hashes an attempt counter until it has picked
 enough distinct peers. The hash is a bijection of 64-bit words, so every peer comes up before the
 counter is exhausted, and the loop cannot run on forever.
 */
module RandomTopology {
  import opened Bits

  const WORD: nat := 0x1_0000_0000_0000_0000
  const HALF: nat := 0x1_0000_0000
  const MULTIPLIER: nat := 0x517c_c1b7_2722_0a95

  /** The multiplier's inverse modulo `WORD`; it has one because it is odd. */
  const INVERSE: nat := 0x2040_003d_7809_70bd

  type Word = n: nat | n < WORD

  // ---- the mixer is a bijection -----------------------------------------------------------

  function Times(x: Word, factor: nat): Word {
    x * factor % WORD
  }

  /** `x ^ (x >> 32)`: the high half stays, and is folded into the low half. */
  function Folded(x: Word): (r: Word)
  {
    HalvesFold(x);
    x / HALF * HALF + Xor(x % HALF, x / HALF)
  }

  function Mixed(x: Word): Word {
    Folded(Times(x, MULTIPLIER))
  }

  function Unmixed(z: Word): Word {
    Times(Folded(z), INVERSE)
  }

  lemma HalfIsPow2()
    ensures Pow2(32) == HALF
  {
    assert Pow2(8) == 0x100;
    assert Pow2(16) == 0x1_0000;
    assert Pow2(24) == 0x100_0000;
  }

  lemma HalvesFold(x: Word)
    ensures x / HALF < HALF && Xor(x % HALF, x / HALF) < HALF
    ensures x / HALF * HALF + Xor(x % HALF, x / HALF) < WORD
  {
    assert x == x / HALF * HALF + x % HALF;
    HalfIsPow2();
    XorBelow(x % HALF, x / HALF, 32);
  }

  lemma SplitBack(hi: nat, lo: nat)
    requires lo < HALF
    ensures (hi * HALF + lo) / HALF == hi && (hi * HALF + lo) % HALF == lo
  {
  }

  /** Folding twice restores the word. */
  lemma FoldUndone(x: Word)
    ensures Folded(Folded(x)) == x
  {
    HalvesFold(x);
    SplitBack(x / HALF, Xor(x % HALF, x / HALF));
    XorUndone(x % HALF, x / HALF);
  }

  lemma WholeWordsVanish(x: Word, k: int)
    ensures (x + WORD * k) % WORD == x
  {
  }

  lemma TimesUndone(x: Word, f: nat, g: nat, q: nat)
    requires f * g == 1 + q * WORD
    ensures Times(Times(x, f), g) == x
  {
    var p := x * f / WORD;
    calc {
      Times(x, f) * g;
      { assert Times(x, f) == x * f - p * WORD; }
      (x * f - p * WORD) * g;
      x * f * g - p * WORD * g;
      { assert x * f * g == x * (f * g); }
      x * (1 + q * WORD) - p * WORD * g;
      { assert x * (1 + q * WORD) == x + x * (q * WORD); }
      x + x * (q * WORD) - p * WORD * g;
      { assert x * (q * WORD) == WORD * (x * q); assert p * WORD * g == WORD * (p * g); }
      x + WORD * (x * q) - WORD * (p * g);
      x + WORD * (x * q - p * g);
    }
    WholeWordsVanish(x, x * q - p * g);
  }

  const QUOTIENT: nat := 739706870995725965

  lemma MixerIsABijection(x: Word)
    ensures Unmixed(Mixed(x)) == x && Mixed(Unmixed(x)) == x
  {
    assert MULTIPLIER * INVERSE == 1 + QUOTIENT * WORD;
    FoldUndone(Times(x, MULTIPLIER));
    TimesUndone(x, MULTIPLIER, INVERSE, QUOTIENT);
    TimesUndone(Folded(x), INVERSE, MULTIPLIER, QUOTIENT);
    FoldUndone(x);
  }

  // ---- every target comes up --------------------------------------------------------------

  /** The target of node `i` at the given attempt. */
  function Pick(i: nat, seed: Word, attempt: nat, count: nat): nat
    requires count > 0
  {
    Mixed((i + seed + attempt) % WORD) % count
  }

  /** The attempt that gives hash `z`, were it made. */
  function AttemptFor(i: nat, seed: Word, z: Word): Word {
    (Unmixed(z) - i - seed) % WORD
  }

  lemma ModSub(u: Word, c: nat)
    ensures (c + (u - c) % WORD) % WORD == u
  {
    var k := (u - c) / WORD;
    assert c + (u - c) % WORD == u - WORD * k;
    WholeWordsVanish(u, -k);
  }

  lemma AttemptHits(i: nat, seed: Word, z: Word, count: nat)
    requires count > 0
    ensures Pick(i, seed, AttemptFor(i, seed, z), count) == z % count
  {
    ModSub(Unmixed(z), i + seed);
    MixerIsABijection(z);
  }

  lemma AttemptsDiffer(i: nat, seed: Word, y: Word, z: Word)
    ensures AttemptFor(i, seed, y) == AttemptFor(i, seed, z) ==> y == z
  {
    ModSub(Unmixed(y), i + seed);
    ModSub(Unmixed(z), i + seed);
    MixerIsABijection(y);
    MixerIsABijection(z);
  }

  lemma OneRoundLater(target: nat, count: nat)
    requires target < count
    ensures target % count == (target + count) % count == target
  {
  }

  /** For every node, seed and target there is an attempt, before the counter overflows, that
      selects the target. */
  lemma EveryTargetComesUp(i: nat, seed: Word, count: nat, target: nat)
    requires 0 < count <= WORD / 2 && target < count
    ensures exists attempt :: 1 <= attempt < WORD && Pick(i, seed, attempt, count) == target
  {
    AttemptHits(i, seed, target, count);
    AttemptHits(i, seed, target + count, count);
    OneRoundLater(target, count);
    AttemptsDiffer(i, seed, target, target + count);
    var first, second := AttemptFor(i, seed, target), AttemptFor(i, seed, target + count);
    assert Pick(i, seed, if first != 0 then first else second, count) == target;
  }

  // ---- the loop ---------------------------------------------------------------------------

  /** One of the first `attempts` attempts of node `i` selected `target`. */
  ghost predicate Picked(i: nat, seed: Word, count: nat, attempts: nat, target: nat)
    requires count > 0
  {
    exists a :: 1 <= a <= attempts && Pick(i, seed, a, count) == target
  }

  /** The peers a node has chosen are those it picked so far, itself excepted. */
  ghost predicate ChosenSoFar(i: nat, seed: Word, count: nat, attempts: nat, chosen: set<nat>)
    requires count > 0
  {
    forall t :: t in chosen <==> t != i && Picked(i, seed, count, attempts, t)
  }

  ghost function Below(n: nat): (r: set<nat>)
    ensures |r| == n && forall t: nat :: t in r <==> t < n
  {
    if n == 0 then {} else Below(n - 1) + {n - 1}
  }

  /** A counter about to overflow would already have produced every peer. */
  lemma AllPicked(i: nat, seed: Word, count: nat, chosen: set<nat>)
    requires 0 < count <= WORD / 2 && i < count
    requires ChosenSoFar(i, seed, count, WORD - 1, chosen)
    ensures |chosen| == count - 1
  {
    forall t | t in Below(count)
      ensures Picked(i, seed, count, WORD - 1, t)
    {
      EveryTargetComesUp(i, seed, count, t);
    }
    assert chosen == Below(count) - {i};
  }

  /** One more attempt picks one more target, at most. */
  lemma OneMoreAttempt(i: nat, seed: Word, count: nat, attempts: nat, chosen: set<nat>)
    requires count > 0 && ChosenSoFar(i, seed, count, attempts, chosen)
    ensures var t := Pick(i, seed, attempts + 1, count);
      ChosenSoFar(i, seed, count, attempts + 1, if t != i then chosen + {t} else chosen)
  {
    var t := Pick(i, seed, attempts + 1, count);
    forall x
      ensures Picked(i, seed, count, attempts + 1, x) <==> Picked(i, seed, count, attempts, x) || x == t
    {
      if a :| 1 <= a <= attempts + 1 && Pick(i, seed, a, count) == x {
        assert a <= attempts ==> Picked(i, seed, count, attempts, x);
      }
    }
  }

  /** `targets` lists distinct peers of node `i`, and `chosen` is the set of them. */
  ghost predicate Lists(i: nat, count: nat, targets: seq<nat>, chosen: set<nat>) {
    && |targets| == |chosen|
    && (forall t :: t in targets <==> t in chosen)
    && (forall k :: 0 <= k < |targets| ==> targets[k] < count && targets[k] != i)
    && (forall k, l :: 0 <= k < l < |targets| ==> targets[k] != targets[l])
  }

  lemma ListsMore(i: nat, count: nat, targets: seq<nat>, chosen: set<nat>, t: nat)
    requires Lists(i, count, targets, chosen) && t < count && t != i && t !in chosen
    ensures Lists(i, count, targets + [t], chosen + {t})
  {
    assert forall k :: 0 <= k < |targets| ==> targets[k] in chosen;
  }

  /** The inner loop: node `i` chooses `degree` distinct peers. It always finishes, and its 64-bit
      attempt counter never overflows. */
  method ChooseTargets(i: nat, count: nat, degree: nat, seed: Word)
    returns (targets: seq<nat>, attempts: Word, ghost chosen: set<nat>)
    requires i < count <= WORD / 2 && degree < count
    ensures |targets| == degree && Lists(i, count, targets, chosen)
    ensures ChosenSoFar(i, seed, count, attempts, chosen)
  {
    var picked: set<nat> := {};
    targets, attempts := [], 0;
    while |picked| < degree
      invariant |picked| <= degree && Lists(i, count, targets, picked)
      invariant ChosenSoFar(i, seed, count, attempts, picked)
      decreases WORD - attempts
    {
      if attempts == WORD - 1 {
        AllPicked(i, seed, count, picked);
        assert false;
      }
      OneMoreAttempt(i, seed, count, attempts, picked);
      attempts := attempts + 1;
      var target := Pick(i, seed, attempts, count);
      if target != i && target !in picked {
        ListsMore(i, count, targets, picked, target);
        picked := picked + {target};
        targets := targets + [target];
      }
    }
    chosen := picked;
  }
}
