/** The level generator.

    A session pool is the first `poolSize` symbols of a fixed symbol set.
    Each level picks a number of symbols (`count`), shuffles a copy of the
    session pool with a Fisher-Yates pass, keeps the first `count` symbols as
    the level's symbols and fills an 8-slot grid from them. Two variants fill
    the grid: one pads the symbols themselves up to 8 with random picks and
    shuffles the result (so every symbol appears), the other draws 8 random
    picks with replacement (so a symbol may be missing). */
module Levels {
  import opened Settings
  import opened Randomness

  /** The `index`-th entry of one of the fixed symbol sets. */
  datatype Symbol = Symbol(pool: PoolType, index: nat)

  /** What one level shows: the grid and the distinct symbols it is made of. */
  datatype LevelPlan = LevelPlan(grid: seq<Symbol>, animals: seq<Symbol>)

  /** A value computed from the random stream, with the position of the next
      unused draw. */
  datatype Drawn<T> = Drawn(value: T, next: nat)

  function Min(a: int, b: int): int {
    if a <= b then a else b
  }

  function Max(a: int, b: int): int {
    if a <= b then b else a
  }

  predicate Distinct<T(==)>(s: seq<T>) {
    forall i, j :: 0 <= i < j < |s| ==> s[i] != s[j]
  }

  /** Number of symbols in each fixed set: 18 animals, 8 characters in each
      of the two character sets. */
  function PoolLength(t: PoolType): nat {
    if t == Animals then 18 else 8
  }

  function SourcePool(t: PoolType): (s: seq<Symbol>)
    ensures |s| == PoolLength(t) && Distinct(s)
  {
    seq(PoolLength(t), i requires 0 <= i < PoolLength(t) => Symbol(t, i))
  }

  /** `s.slice(0, n)`: the first `n` elements, or all of them if there are fewer. */
  function Take<T>(s: seq<T>, n: nat): (r: seq<T>)
    ensures |r| == Min(n, |s|)
    ensures r == s[..|r|]
  {
    if n <= |s| then s[..n] else s
  }

  /** Parameters the generator can work with: a non-empty pool, and a
      positive count in fixed mode. */
  predicate Usable(p: Params) {
    p.poolSize >= 1 && p.fixedCount >= 1
  }

  // ---------------------------------------------------------------------
  // Fisher-Yates shuffle

  /** Draws one shuffle of `n` elements consumes: one for each i from n-1 down to 1. */
  function ShuffleDraws(n: nat): nat {
    if n == 0 then 0 else n - 1
  }

  /** The result of `shuffleArray` on `s` with the draws from position `u`:
      for i = |s|-1 down to 1, swap element i with element
      `floor(draw * (i + 1))`; element i is then never touched again. */
  function Shuffled<T>(s: seq<T>, draw: nat -> real, u: nat): (r: seq<T>)
    requires Unit(draw)
    ensures |r| == |s|
    decreases |s|
  {
    if |s| <= 1 then s
    else
      var i := |s| - 1;
      var j := Scale(draw(u), i + 1);
      var t := Swap(s, i, j);
      Shuffled(t[..i], draw, u + 1) + [t[i]]
  }

  /** A shuffle is a permutation. */
  lemma {:induction false} ShuffledPermutes<T>(s: seq<T>, draw: nat -> real, u: nat)
    requires Unit(draw)
    ensures multiset(Shuffled(s, draw, u)) == multiset(s)
    decreases |s|
  {
    if |s| > 1 {
      var i := |s| - 1;
      var j := Scale(draw(u), i + 1);
      var t := Swap(s, i, j);
      var r := Shuffled(t[..i], draw, u + 1);
      assert Shuffled(s, draw, u) == r + [t[i]];
      ShuffledPermutes(t[..i], draw, u + 1);
      SwapPermutes(s, i, j);
      assert t[..i] + [t[i]] == t;
      assert multiset(r + [t[i]]) == multiset(t[..i] + [t[i]]);
    }
  }

  /** Swap of elements `i` and `j`, as `[array[i], array[j]] = [array[j], array[i]]`. */
  function Swap<T>(s: seq<T>, i: nat, j: nat): (t: seq<T>)
    requires i < |s| && j < |s|
    ensures |t| == |s|
  {
    s[i := s[j]][j := s[i]]
  }

  /** A swap rearranges the sequence. */
  lemma SwapPermutes<T>(s: seq<T>, i: nat, j: nat)
    requires i < |s| && j < |s|
    ensures multiset(Swap(s, i, j)) == multiset(s)
  {
  }

  /** The loop of `shuffleArray` run on the whole sequence `s` from index `i`
      down to 1, drawing from position `u`. */
  function ShufflePass<T>(s: seq<T>, i: int, draw: nat -> real, u: nat): (r: seq<T>)
    requires Unit(draw) && i < |s|
    ensures |r| == |s|
    decreases i
  {
    if i <= 0 then s
    else ShufflePass(Swap(s, i, Scale(draw(u), i + 1)), i - 1, draw, u + 1)
  }

  /** Swapping inside the first `i + 1` elements commutes with cutting there. */
  lemma SwapOnPrefix<T>(s: seq<T>, i: nat, j: nat)
    requires j <= i < |s|
    ensures Swap(s[..i + 1], i, j)[..i] == Swap(s, i, j)[..i]
    ensures Swap(s[..i + 1], i, j)[i..] + s[i + 1..] == Swap(s, i, j)[i..]
  {
  }

  /** The pass from index `i` never touches what lies beyond `i`. */
  lemma {:induction false} PassKeepsSuffix<T>(s: seq<T>, i: int, draw: nat -> real, u: nat)
    requires Unit(draw) && -1 <= i < |s|
    ensures ShufflePass(s, i, draw, u) == ShufflePass(s[..i + 1], i, draw, u) + s[i + 1..]
    decreases i
  {
    if i <= 0 {
      assert ShufflePass(s, i, draw, u) == s;
      assert ShufflePass(s[..i + 1], i, draw, u) == s[..i + 1];
      assert s == s[..i + 1] + s[i + 1..];
    } else {
      var j := Scale(draw(u), i + 1);
      PassKeepsSuffix(Swap(s, i, j), i - 1, draw, u + 1);
      PassKeepsSuffix(Swap(s[..i + 1], i, j), i - 1, draw, u + 1);
      SuffixStep(s, i, j, draw, u);
    }
  }

  /** The inductive step of `PassKeepsSuffix`: if the rest of the pass keeps
      the suffix of both swapped sequences, the whole pass keeps it. */
  lemma SuffixStep<T>(s: seq<T>, i: nat, j: nat, draw: nat -> real, u: nat)
    requires Unit(draw) && 0 < i < |s| && j == Scale(draw(u), i + 1)
    requires var t := Swap(s, i, j);
      ShufflePass(t, i - 1, draw, u + 1) == ShufflePass(t[..i], i - 1, draw, u + 1) + t[i..]
    requires var t' := Swap(s[..i + 1], i, j);
      ShufflePass(t', i - 1, draw, u + 1) == ShufflePass(t'[..i], i - 1, draw, u + 1) + t'[i..]
    ensures ShufflePass(s, i, draw, u) == ShufflePass(s[..i + 1], i, draw, u) + s[i + 1..]
  {
    var t := Swap(s, i, j);
    var t' := Swap(s[..i + 1], i, j);
    SwapOnPrefix(s, i, j);
    PassStep(s, t, i, j, draw, u);
    PassStep(s[..i + 1], t', i, j, draw, u);
    var front := ShufflePass(t'[..i], i - 1, draw, u + 1);
    assert front + t[i..] == (front + t'[i..]) + s[i + 1..];
  }

  /** The in-place loop computes the recursive shuffle. */
  lemma {:induction false} PassIsShuffled<T>(s: seq<T>, draw: nat -> real, u: nat)
    requires Unit(draw)
    ensures ShufflePass(s, |s| - 1, draw, u) == Shuffled(s, draw, u)
    decreases |s|
  {
    if |s| > 1 {
      var i := |s| - 1;
      var j := Scale(draw(u), i + 1);
      var t := Swap(s, i, j);
      PassKeepsSuffix(t, i - 1, draw, u + 1);
      PassIsShuffled(t[..i], draw, u + 1);
      assert t[i..] == [t[i]];
    }
  }

  /** One iteration of the in-place loop: swapping `i` with the drawn `j`
      leaves the rest of the pass to do. */
  lemma PassStep<T>(before: seq<T>, after: seq<T>, i: nat, j: nat, draw: nat -> real, u: nat)
    requires Unit(draw) && 0 < i < |before| && j == Scale(draw(u), i + 1)
    requires after == Swap(before, i, j)
    ensures ShufflePass(after, i - 1, draw, u + 1) == ShufflePass(before, i, draw, u)
  {
  }

  /** `[array[i], array[j]] = [array[j], array[i]]`. */
  method SwapCells<T>(a: array<T>, i: nat, j: nat)
    requires i < a.Length && j < a.Length
    modifies a
    ensures a[..] == Swap(old(a[..]), i, j)
  {
    a[i], a[j] := a[j], a[i];
  }

  /** A fresh array holding `s`. */
  method ToArray<T>(s: seq<T>) returns (a: array<T>)
    ensures fresh(a) && a[..] == s
  {
    a := new T[|s|](k requires 0 <= k < |s| => s[k]);
    assert a[..] == s;
  }

  /** `shuffleArray`: the Fisher-Yates pass, in place. */
  method ShuffleArray<T>(a: array<T>, rng: RandomSource)
    requires rng.Valid()
    modifies a, rng
    ensures rng.used == old(rng.used) + ShuffleDraws(a.Length)
    ensures a[..] == Shuffled(old(a[..]), rng.draw, old(rng.used))
  {
    ghost var whole := ShufflePass(a[..], a.Length - 1, rng.draw, rng.used);
    var i := a.Length - 1;
    while i > 0
      invariant -1 <= i < a.Length && (a.Length > 0 ==> 0 <= i)
      invariant rng.used == old(rng.used) + (a.Length - 1 - i)
      invariant ShufflePass(a[..], i, rng.draw, rng.used) == whole
    {
      ghost var before, u := a[..], rng.used;
      var j := rng.Below(i + 1);
      SwapCells(a, i, j);
      PassStep(before, a[..], i, j, rng.draw, u);
      i := i - 1;
    }
    PassIsShuffled(old(a[..]), rng.draw, old(rng.used));
  }

  // ---------------------------------------------------------------------
  // Counts and grids

  /** Draws the count decision consumes: one `Math.random()` in random mode. */
  function CountDraws(p: Params): nat {
    if p.complexity == RandomCount then 1 else 0
  }

  /** How many symbols level `i` (0-based) uses, capped by the pool size; the
      random mode uses draw `u`. */
  function LevelCount(p: Params, i: nat, draw: nat -> real, u: nat): (count: int)
    requires Unit(draw) && Usable(p)
    ensures 1 <= count <= p.poolSize
    ensures p.complexity == FixedCount ==> count == Min(p.fixedCount, p.poolSize)
    ensures p.complexity == Increasing ==> count == Min(Min(8, i + 2), p.poolSize)
    ensures p.complexity == RandomCount ==> Min(2, p.poolSize) <= count <= Min(8, p.poolSize)
  {
    var c := match p.complexity
      case FixedCount => p.fixedCount
      case Increasing => Min(8, i + 2)
      case RandomCount => Scale(draw(u), 7) + 2;
    Min(c, p.poolSize)
  }

  /** Draws the padding loop consumes: one per slot added. */
  function PadDraws(n: nat): nat {
    if n >= 8 then 0 else 8 - n
  }

  /** The grid-padding loop: while fewer than 8 entries, append a random
      symbol of `animals`. */
  function Padded<T>(grid: seq<T>, animals: seq<T>, draw: nat -> real, u: nat): (r: seq<T>)
    requires Unit(draw) && |animals| > 0
    ensures |r| == Max(8, |grid|)
    ensures r[..|grid|] == grid
    decreases 8 - |grid|
  {
    if |grid| >= 8 then grid
    else
      var r := Padded(grid + [animals[Scale(draw(u), |animals|)]], animals, draw, u + 1);
      assert r[..|grid| + 1][..|grid|] == r[..|grid|];
      r
  }

  /** Every entry the padding loop appends is an element of `animals`. */
  lemma {:induction false} PaddedFromAnimals<T>(grid: seq<T>, animals: seq<T>, draw: nat -> real, u: nat)
    requires Unit(draw) && |animals| > 0
    ensures forall k :: |grid| <= k < Max(8, |grid|) ==> Padded(grid, animals, draw, u)[k] in animals
    decreases 8 - |grid|
  {
    if |grid| < 8 {
      var longer := grid + [animals[Scale(draw(u), |animals|)]];
      PaddedFromAnimals(longer, animals, draw, u + 1);
      var r := Padded(grid, animals, draw, u);
      assert r == Padded(longer, animals, draw, u + 1);
      forall k | |grid| <= k < |r|
        ensures r[k] in animals
      {
        if k == |grid| {
          assert r[..|longer|][k] == longer[k];
        }
      }
    }
  }

  /** The grid-sampling loop: `n` random symbols of `animals`, with replacement. */
  function Sampled<T>(animals: seq<T>, draw: nat -> real, u: nat, n: nat): (r: seq<T>)
    requires Unit(draw) && |animals| > 0
    ensures |r| == n
    ensures forall k :: 0 <= k < n ==> r[k] in animals
  {
    if n == 0 then []
    else Sampled(animals, draw, u, n - 1) + [animals[Scale(draw(u + n - 1), |animals|)]]
  }

  /** Sampling with replacement need not show every symbol: when every draw
      is 0 the eight slots all hold the first symbol. */
  lemma {:induction false} SampledMayOmit<T>(animals: seq<T>, u: nat, n: nat)
    requires |animals| >= 2 && Distinct(animals)
    ensures Unit(_ => 0.0)
    ensures animals[1] !in Sampled(animals, _ => 0.0, u, n)
  {
    var zero: nat -> real := _ => 0.0;
    assert Unit(zero);
    if n > 0 {
      SampledMayOmit(animals, u, n - 1);
      assert Scale(zero(u + n - 1), |animals|) == 0;
    }
  }

  // ---------------------------------------------------------------------
  // Shape facts shared by both variants

  lemma TakeIsSubMultiset<T>(s: seq<T>, n: nat)
    ensures multiset(Take(s, n)) <= multiset(s)
  {
    var r := Take(s, n);
    assert s == r + s[|r|..];
  }

  lemma DistinctAtMostOnce<T>(s: seq<T>, x: T)
    requires Distinct(s)
    ensures multiset(s)[x] <= 1
  {
    if |s| > 0 {
      assert s == [s[0]] + s[1..];
      DistinctAtMostOnce(s[1..], x);
      if s[0] == x {
        assert x !in s[1..];
      }
    }
  }

  /** A sub-multiset of a sequence without repeats has no repeats. */
  lemma DistinctSub<T>(a: seq<T>, b: seq<T>)
    requires multiset(a) <= multiset(b) && Distinct(b)
    ensures Distinct(a)
  {
    forall i, j | 0 <= i < j < |a|
      ensures a[i] != a[j]
    {
      if a[i] == a[j] {
        assert a == a[..j] + [a[j]] + a[j + 1..];
        assert a[i] in a[..j];
        assert multiset(a)[a[i]] >= 2;
        DistinctAtMostOnce(b, a[i]);
        assert false;
      }
    }
  }

  /** What the count of a level with index `i` must be when the session pool
      holds `poolLen` symbols. */
  ghost predicate CountRule(p: Params, i: nat, poolLen: nat, n: int) {
    match p.complexity
    case FixedCount => n == Min(p.fixedCount, poolLen)
    case Increasing => n == Min(Min(8, i + 2), poolLen)
    case RandomCount => Min(2, poolLen) <= n <= Min(8, poolLen)
  }

  /** The level's symbols are `count` distinct symbols of the session pool:
      the first `count` of a permutation of it. */
  ghost predicate SymbolsOK(p: Params, i: nat, pool: seq<Symbol>, plan: LevelPlan) {
    && CountRule(p, i, |pool|, |plan.animals|)
    && multiset(plan.animals) <= multiset(pool)
    && Distinct(plan.animals)
  }

  /** The symbols of level `i` (0-based) drawn from `pool`: the count, then
      a shuffle of a copy of the pool, then its first `count` entries. */
  function LevelSymbols(p: Params, i: nat, pool: seq<Symbol>, draw: nat -> real, u: nat): (r: Drawn<seq<Symbol>>)
    requires Unit(draw) && Usable(p)
    ensures r.next == u + CountDraws(p) + ShuffleDraws(|pool|)
  {
    var u1 := u + CountDraws(p);
    Drawn(Take(Shuffled(pool, draw, u1), LevelCount(p, i, draw, u)), u1 + ShuffleDraws(|pool|))
  }

  /** The symbols of a level are `count` distinct symbols of the session
      pool, capped by the pool's length. */
  lemma ChosenSymbols(p: Params, i: nat, pool: seq<Symbol>, draw: nat -> real, u: nat)
    requires Unit(draw) && Usable(p) && Distinct(pool) && 1 <= |pool| <= p.poolSize
    ensures var animals := LevelSymbols(p, i, pool, draw, u).value;
      SymbolsOK(p, i, pool, LevelPlan([], animals)) && |animals| >= 1
  {
    var shuffled := Shuffled(pool, draw, u + CountDraws(p));
    var count := LevelCount(p, i, draw, u);
    var animals := Take(shuffled, count);
    assert |animals| == Min(count, |pool|);
    CappedCount(p, i, |pool|, draw, u);
    ShuffledPermutes(pool, draw, u + CountDraws(p));
    TakeIsSubMultiset(shuffled, count);
    DistinctSub(animals, pool);
  }

  /** Capping the drawn count by a pool no larger than `poolSize` keeps it
      within the count rule for that pool. */
  lemma CappedCount(p: Params, i: nat, poolLen: nat, draw: nat -> real, u: nat)
    requires Unit(draw) && Usable(p) && 1 <= poolLen <= p.poolSize
    ensures CountRule(p, i, poolLen, Min(LevelCount(p, i, draw, u), poolLen))
    ensures Min(LevelCount(p, i, draw, u), poolLen) >= 1
  {
  }

  /** The loops that choose a level's symbols, with the same draws in the
      same order: the count, then `shuffleArray([...sessionPool]).slice(0, count)`. */
  method ChooseSymbols(p: Params, i: nat, pool: seq<Symbol>, rng: RandomSource) returns (animals: seq<Symbol>)
    requires rng.Valid() && Usable(p)
    modifies rng
    ensures Drawn(animals, rng.used) == LevelSymbols(p, i, pool, rng.draw, old(rng.used))
  {
    ghost var u := rng.used;
    var count: int;
    if p.complexity == FixedCount {
      count := p.fixedCount;
    } else if p.complexity == Increasing {
      count := Min(8, i + 2);
    } else {
      var r := rng.Below(7);
      count := r + 2;
    }
    count := Min(count, p.poolSize);
    assert count == LevelCount(p, i, rng.draw, u);
    var copy := ToArray(pool);
    ShuffleArray(copy, rng);
    animals := Take(copy[..], count);
  }

  // ---------------------------------------------------------------------
  // The padded variant (canonical)

  /** The session pool: the first `poolSize` symbols of the chosen set. */
  function AppSessionPool(p: Params): (pool: seq<Symbol>)
    requires Usable(p)
    ensures |pool| == Min(p.poolSize, PoolLength(p.poolType)) && Distinct(pool)
  {
    Take(SourcePool(p.poolType), p.poolSize)
  }

  /** The grid of a padded level: the symbols padded to 8 with random picks
      among them, then shuffled. */
  function AppGrid(animals: seq<Symbol>, draw: nat -> real, u: nat): (r: Drawn<seq<Symbol>>)
    requires Unit(draw) && |animals| > 0
    ensures r.next == u + PadDraws(|animals|) + ShuffleDraws(Max(8, |animals|))
  {
    var padded := Padded(animals, animals, draw, u);
    var v := u + PadDraws(|animals|);
    Drawn(Shuffled(padded, draw, v), v + ShuffleDraws(|padded|))
  }

  /** Padding a sequence with its own elements and shuffling the result
      gives a grid of at least 8 slots holding exactly those elements. */
  lemma AppGridCovers(animals: seq<Symbol>, draw: nat -> real, u: nat)
    requires Unit(draw) && |animals| > 0
    ensures var grid := AppGrid(animals, draw, u).value;
      && |grid| == Max(8, |animals|)
      && forall x :: x in grid <==> x in animals
  {
    var padded := Padded(animals, animals, draw, u);
    var grid := Shuffled(padded, draw, u + PadDraws(|animals|));
    ShuffledPermutes(padded, draw, u + PadDraws(|animals|));
    PaddedElements(animals, draw, u);
    forall x
      ensures x in grid <==> x in animals
    {
      assert x in grid <==> x in multiset(grid);
      assert x in padded <==> x in multiset(padded);
    }
  }

  /** Padding `animals` with its own elements adds no new element. */
  lemma PaddedElements(animals: seq<Symbol>, draw: nat -> real, u: nat)
    requires Unit(draw) && |animals| > 0
    ensures var padded := Padded(animals, animals, draw, u);
      forall x :: x in padded <==> x in animals
  {
    var padded := Padded(animals, animals, draw, u);
    PaddedFromAnimals(animals, animals, draw, u);
    forall x
      ensures x in padded <==> x in animals
    {
      if x in animals {
        var k :| 0 <= k < |animals| && animals[k] == x;
        assert padded[..|animals|][k] == x;
      }
      if x in padded {
        var k :| 0 <= k < |padded| && padded[k] == x;
        if k < |animals| {
          assert padded[..|animals|][k] == x;
        } else {
          assert padded[k] in animals;
        }
      }
    }
  }

  /** One pass of the padding loop appends the symbol drawn at `u`. */
  lemma PaddedStep<T>(grid: seq<T>, animals: seq<T>, draw: nat -> real, u: nat)
    requires Unit(draw) && |animals| > 0 && |grid| < 8
    ensures Padded(grid, animals, draw, u) == Padded(grid + [animals[Scale(draw(u), |animals|)]], animals, draw, u + 1)
  {
  }

  /** The padding loop of `generateLevels`. */
  method PadAppGrid(animals: seq<Symbol>, rng: RandomSource) returns (padded: seq<Symbol>)
    requires rng.Valid() && |animals| > 0
    modifies rng
    ensures rng.used == old(rng.used) + PadDraws(|animals|)
    ensures padded == Padded(animals, animals, rng.draw, old(rng.used))
  {
    ghost var whole := Padded(animals, animals, rng.draw, rng.used);
    padded := animals;
    while |padded| < 8
      invariant |animals| <= |padded| <= Max(8, |animals|)
      invariant rng.used == old(rng.used) + (|padded| - |animals|)
      invariant Padded(padded, animals, rng.draw, rng.used) == whole
      decreases 8 - |padded|
    {
      ghost var u := rng.used;
      var j := rng.Below(|animals|);
      PaddedStep(padded, animals, rng.draw, u);
      var longer := padded + [animals[j]];
      assert Padded(longer, animals, rng.draw, u + 1) == whole;
      padded := longer;
    }
  }

  /** The padding loop and the final shuffle of `generateLevels`. */
  method FillAppGrid(animals: seq<Symbol>, rng: RandomSource) returns (grid: seq<Symbol>)
    requires rng.Valid() && |animals| > 0
    modifies rng
    ensures Drawn(grid, rng.used) == AppGrid(animals, rng.draw, old(rng.used))
  {
    ghost var u := rng.used;
    var padded := PadAppGrid(animals, rng);
    ghost var v := rng.used;
    var cells := ToArray(padded);
    ShuffleArray(cells, rng);
    grid := cells[..];
    assert grid == Shuffled(padded, rng.draw, v) && rng.used == v + ShuffleDraws(|padded|);
    assert AppGrid(animals, rng.draw, u) == Drawn(Shuffled(padded, rng.draw, v), v + ShuffleDraws(|padded|));
  }

  /** One padded level: its symbols, then its grid. */
  function AppLevel(p: Params, i: nat, draw: nat -> real, u: nat): Drawn<LevelPlan>
    requires Unit(draw) && Usable(p)
  {
    var pool := AppSessionPool(p);
    var symbols := LevelSymbols(p, i, pool, draw, u);
    ChosenSymbols(p, i, pool, draw, u);
    var grid := AppGrid(symbols.value, draw, symbols.next);
    Drawn(LevelPlan(grid.value, symbols.value), grid.next)
  }

  /** Levels `i` up to the last one, each drawing after the one before. */
  function AppLevels(p: Params, draw: nat -> real, u: nat, i: nat): Drawn<seq<LevelPlan>>
    requires Unit(draw) && Usable(p)
    decreases p.totalLevels - i
  {
    if i >= p.totalLevels then Drawn([], u)
    else
      var level := AppLevel(p, i, draw, u);
      var rest := AppLevels(p, draw, level.next, i + 1);
      Drawn([level.value] + rest.value, rest.next)
  }

  /** The first remaining level, then the ones after it. */
  lemma AppLevelsUnfold(p: Params, draw: nat -> real, u: nat, i: nat, level: LevelPlan, next: nat)
    requires Unit(draw) && Usable(p) && i < p.totalLevels
    requires AppLevel(p, i, draw, u) == Drawn(level, next)
    ensures AppLevels(p, draw, u, i)
         == Drawn([level] + AppLevels(p, draw, next, i + 1).value, AppLevels(p, draw, next, i + 1).next)
  {
  }

  /** The level loop's invariant survives one more level: the levels built
      so far, followed by the ones still to build, are the whole session. */
  lemma AppLevelsStep(p: Params, draw: nat -> real, u0: nat, done: seq<LevelPlan>, i: nat, u: nat, level: LevelPlan, next: nat)
    requires Unit(draw) && Usable(p) && i < p.totalLevels
    requires AppLevel(p, i, draw, u) == Drawn(level, next)
    requires Drawn(done + AppLevels(p, draw, u, i).value, AppLevels(p, draw, u, i).next) == AppLevels(p, draw, u0, 0)
    ensures Drawn((done + [level]) + AppLevels(p, draw, next, i + 1).value, AppLevels(p, draw, next, i + 1).next)
         == AppLevels(p, draw, u0, 0)
  {
    AppLevelsUnfold(p, draw, u, i, level, next);
    Regroup(done, level, AppLevels(p, draw, next, i + 1).value);
  }

  lemma Regroup<T>(done: seq<T>, x: T, rest: seq<T>)
    ensures done + ([x] + rest) == (done + [x]) + rest
  {
  }

  /** A padded level: the symbol rule, a grid of `max(8, count)` slots, and
      exactly the level's symbols in the grid, every one of them at least once. */
  ghost predicate AppPlanOK(p: Params, i: nat, plan: LevelPlan)
    requires Usable(p)
  {
    && SymbolsOK(p, i, AppSessionPool(p), plan)
    && |plan.grid| == Max(8, |plan.animals|)
    && (forall x :: x in plan.grid <==> x in plan.animals)
  }

  lemma AppLevelShape(p: Params, i: nat, draw: nat -> real, u: nat)
    requires Unit(draw) && Usable(p)
    ensures AppPlanOK(p, i, AppLevel(p, i, draw, u).value)
  {
    var pool := AppSessionPool(p);
    var symbols := LevelSymbols(p, i, pool, draw, u);
    ChosenSymbols(p, i, pool, draw, u);
    AppGridCovers(symbols.value, draw, symbols.next);
  }

  /** A session has one padded level per level number, each well formed. */
  lemma {:induction false} AppLevelsShape(p: Params, draw: nat -> real, u: nat, i: nat)
    requires Unit(draw) && Usable(p)
    ensures var levels := AppLevels(p, draw, u, i).value;
      && |levels| == Max(0, p.totalLevels - i)
      && forall k :: 0 <= k < |levels| ==> AppPlanOK(p, i + k, levels[k])
    decreases p.totalLevels - i
  {
    if i < p.totalLevels {
      var level := AppLevel(p, i, draw, u);
      AppLevelShape(p, i, draw, u);
      AppLevelsShape(p, draw, level.next, i + 1);
      var levels := AppLevels(p, draw, u, i).value;
      forall k | 0 <= k < |levels|
        ensures AppPlanOK(p, i + k, levels[k])
      {
        if k > 0 {
          assert levels[k] == AppLevels(p, draw, level.next, i + 1).value[k - 1];
        }
      }
    }
  }

  /** One iteration of the level loop of `generateLevels`, padded variant. */
  method MakeAppLevel(p: Params, i: nat, rng: RandomSource) returns (plan: LevelPlan)
    requires rng.Valid() && Usable(p)
    modifies rng
    ensures Drawn(plan, rng.used) == AppLevel(p, i, rng.draw, old(rng.used))
  {
    var pool := AppSessionPool(p);
    ChosenSymbols(p, i, pool, rng.draw, rng.used);
    var animals := ChooseSymbols(p, i, pool, rng);
    var grid := FillAppGrid(animals, rng);
    plan := LevelPlan(grid, animals);
  }

  /** The level loop of `generateLevels`, padded variant: one level per
      level number, each drawing after the one before. */
  method MakeAppLevels(p: Params, rng: RandomSource) returns (levels: seq<LevelPlan>)
    requires rng.Valid() && Usable(p)
    modifies rng
    ensures Drawn(levels, rng.used) == AppLevels(p, rng.draw, old(rng.used), 0)
  {
    ghost var u0 := rng.used;
    ghost var whole := AppLevels(p, rng.draw, u0, 0);
    levels := [];
    var i := 0;
    assert [] + whole.value == whole.value;
    while i < p.totalLevels
      invariant 0 <= i
      invariant var rest := AppLevels(p, rng.draw, rng.used, i);
        Drawn(levels + rest.value, rest.next) == whole
      decreases p.totalLevels - i
    {
      ghost var u := rng.used;
      var level := MakeAppLevel(p, i, rng);
      AppLevelsStep(p, rng.draw, u0, levels, i, u, level, rng.used);
      levels := levels + [level];
      i := i + 1;
    }
    assert levels + [] == levels;
  }

  // ---------------------------------------------------------------------
  // The sampled variant (the earlier version)

  /** The earlier version's session pool: always the animal set. */
  function OldSessionPool(p: Params): (pool: seq<Symbol>)
    requires Usable(p)
    ensures |pool| == Min(p.poolSize, 18) && Distinct(pool)
  {
    Take(SourcePool(Animals), p.poolSize)
  }

  /** One sampled level: its symbols, then 8 slots sampled with replacement. */
  function OldLevel(p: Params, i: nat, draw: nat -> real, u: nat): Drawn<LevelPlan>
    requires Unit(draw) && Usable(p)
  {
    var pool := OldSessionPool(p);
    var symbols := LevelSymbols(p, i, pool, draw, u);
    ChosenSymbols(p, i, pool, draw, u);
    Drawn(LevelPlan(Sampled(symbols.value, draw, symbols.next, 8), symbols.value), symbols.next + 8)
  }

  function OldLevels(p: Params, draw: nat -> real, u: nat, i: nat): Drawn<seq<LevelPlan>>
    requires Unit(draw) && Usable(p)
    decreases p.totalLevels - i
  {
    if i >= p.totalLevels then Drawn([], u)
    else
      var level := OldLevel(p, i, draw, u);
      var rest := OldLevels(p, draw, level.next, i + 1);
      Drawn([level.value] + rest.value, rest.next)
  }

  /** The first remaining level, then the ones after it. */
  lemma OldLevelsUnfold(p: Params, draw: nat -> real, u: nat, i: nat, level: LevelPlan, next: nat)
    requires Unit(draw) && Usable(p) && i < p.totalLevels
    requires OldLevel(p, i, draw, u) == Drawn(level, next)
    ensures OldLevels(p, draw, u, i)
         == Drawn([level] + OldLevels(p, draw, next, i + 1).value, OldLevels(p, draw, next, i + 1).next)
  {
  }

  /** The level loop's invariant survives one more level: the levels built
      so far, followed by the ones still to build, are the whole session. */
  lemma OldLevelsStep(p: Params, draw: nat -> real, u0: nat, done: seq<LevelPlan>, i: nat, u: nat, level: LevelPlan, next: nat)
    requires Unit(draw) && Usable(p) && i < p.totalLevels
    requires OldLevel(p, i, draw, u) == Drawn(level, next)
    requires Drawn(done + OldLevels(p, draw, u, i).value, OldLevels(p, draw, u, i).next) == OldLevels(p, draw, u0, 0)
    ensures Drawn((done + [level]) + OldLevels(p, draw, next, i + 1).value, OldLevels(p, draw, next, i + 1).next)
         == OldLevels(p, draw, u0, 0)
  {
    OldLevelsUnfold(p, draw, u, i, level, next);
    Regroup(done, level, OldLevels(p, draw, next, i + 1).value);
  }

  /** A sampled level: the symbol rule and exactly 8 slots, each holding one
      of the level's symbols. */
  ghost predicate OldPlanOK(p: Params, i: nat, plan: LevelPlan)
    requires Usable(p)
  {
    && SymbolsOK(p, i, OldSessionPool(p), plan)
    && |plan.grid| == 8
    && (forall x :: x in plan.grid ==> x in plan.animals)
  }

  lemma OldLevelShape(p: Params, i: nat, draw: nat -> real, u: nat)
    requires Unit(draw) && Usable(p)
    ensures OldPlanOK(p, i, OldLevel(p, i, draw, u).value)
  {
    ChosenSymbols(p, i, OldSessionPool(p), draw, u);
  }

  lemma {:induction false} OldLevelsShape(p: Params, draw: nat -> real, u: nat, i: nat)
    requires Unit(draw) && Usable(p)
    ensures var levels := OldLevels(p, draw, u, i).value;
      && |levels| == Max(0, p.totalLevels - i)
      && forall k :: 0 <= k < |levels| ==> OldPlanOK(p, i + k, levels[k])
    decreases p.totalLevels - i
  {
    if i < p.totalLevels {
      var level := OldLevel(p, i, draw, u);
      OldLevelShape(p, i, draw, u);
      OldLevelsShape(p, draw, level.next, i + 1);
      var levels := OldLevels(p, draw, u, i).value;
      forall k | 0 <= k < |levels|
        ensures OldPlanOK(p, i + k, levels[k])
      {
        if k > 0 {
          assert levels[k] == OldLevels(p, draw, level.next, i + 1).value[k - 1];
        }
      }
    }
  }

  /** The sampling loop of the earlier `generateLevels`. */
  method FillOldGrid(animals: seq<Symbol>, rng: RandomSource) returns (grid: seq<Symbol>)
    requires rng.Valid() && |animals| > 0
    modifies rng
    ensures grid == Sampled(animals, rng.draw, old(rng.used), 8) && rng.used == old(rng.used) + 8
  {
    ghost var u := rng.used;
    grid := [];
    for j := 0 to 8
      invariant rng.used == u + j
      invariant grid == Sampled(animals, rng.draw, u, j)
    {
      var k := rng.Below(|animals|);
      grid := grid + [animals[k]];
    }
  }

  /** One iteration of the level loop of the earlier `generateLevels`. */
  method MakeOldLevel(p: Params, i: nat, rng: RandomSource) returns (plan: LevelPlan)
    requires rng.Valid() && Usable(p)
    modifies rng
    ensures Drawn(plan, rng.used) == OldLevel(p, i, rng.draw, old(rng.used))
  {
    var pool := OldSessionPool(p);
    ChosenSymbols(p, i, pool, rng.draw, rng.used);
    var animals := ChooseSymbols(p, i, pool, rng);
    var grid := FillOldGrid(animals, rng);
    plan := LevelPlan(grid, animals);
  }

  /** The level loop of the earlier `generateLevels`. */
  method MakeOldLevels(p: Params, rng: RandomSource) returns (levels: seq<LevelPlan>)
    requires rng.Valid() && Usable(p)
    modifies rng
    ensures Drawn(levels, rng.used) == OldLevels(p, rng.draw, old(rng.used), 0)
  {
    ghost var u0 := rng.used;
    ghost var whole := OldLevels(p, rng.draw, u0, 0);
    levels := [];
    var i := 0;
    assert [] + whole.value == whole.value;
    while i < p.totalLevels
      invariant 0 <= i
      invariant var rest := OldLevels(p, rng.draw, rng.used, i);
        Drawn(levels + rest.value, rest.next) == whole
      decreases p.totalLevels - i
    {
      ghost var u := rng.used;
      var level := MakeOldLevel(p, i, rng);
      OldLevelsStep(p, rng.draw, u0, levels, i, u, level, rng.used);
      levels := levels + [level];
      i := i + 1;
    }
    assert levels + [] == levels;
  }
}
