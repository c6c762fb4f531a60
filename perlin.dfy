/** The integer skeleton of the Perlin noise tables: the permutation table
    `p` built by the static initialiser (identity, shuffle by swaps,
    duplication) and the lattice indexing of `noise1`, `noise2` and `noise3`.
    Gradient values and the noise arithmetic are floating point and are not
    modelled. */
module Perlin {

  /** SAMPLE_SIZE: the lattice period. */
  const B: nat := 1024
  /** The mask `B - 1` applied with `&`. */
  const BM: nat := 1023
  /** Length of `p` and of the gradient tables: `B + B + 2`. */
  const TableLength: nat := 2050

  /** The identity prefix `[0, 1, ..., n - 1]`. */
  function Iota(n: nat): (r: seq<int>)
    ensures |r| == n
    ensures forall k :: 0 <= k < n ==> r[k] == k
  {
    if n == 0 then [] else Iota(n - 1) + [n - 1]
  }

  /** `s` with the entries at `i` and `j` exchanged. */
  function Swap(s: seq<int>, i: nat, j: nat): (r: seq<int>)
    requires i < |s| && j < |s|
    ensures |r| == |s|
    ensures r[i] == s[j] && r[j] == s[i]
    ensures forall k :: 0 <= k < |s| && k != i && k != j ==> r[k] == s[k]
  {
    s[i := s[j]][j := s[i]]
  }

  /** The shuffle `while (--i > 0) swap(p[i], p[rng.Next() % B])`, started
      with `i == n + 1`: it swaps at positions n, n - 1, ..., 1, position n
      with the first draw. `draws` are the generator's outputs in the order
      the shuffle consumes them. */
  function Shuffle(s: seq<int>, n: nat, draws: seq<nat>): (r: seq<int>)
    requires n < |s| && |draws| == n
    ensures |r| == |s|
    decreases n
  {
    if n == 0 then s
    else Shuffle(Swap(s, n, draws[0] % |s|), n - 1, draws[1..])
  }

  /** A swap exchanges two entries and keeps the multiset. */
  lemma SwapPermutes(s: seq<int>, i: nat, j: nat)
    requires i < |s| && j < |s|
    ensures multiset(Swap(s, i, j)) == multiset(s)
  {
    var r := Swap(s, i, j);
    if i != j {
      assert s == s[..i] + [s[i]] + s[i+1..];
      assert s[i := s[j]] == s[..i] + [s[j]] + s[i+1..];
    }
  }

  /** The shuffle only swaps, so it permutes its input. */
  lemma {:induction false} ShufflePermutes(s: seq<int>, n: nat, draws: seq<nat>)
    requires n < |s| && |draws| == n
    ensures multiset(Shuffle(s, n, draws)) == multiset(s)
    decreases n
  {
    if n > 0 {
      SwapPermutes(s, n, draws[0] % |s|);
      ShufflePermutes(Swap(s, n, draws[0] % |s|), n - 1, draws[1..]);
    }
  }

  /** Every value of a permutation of `0 .. n - 1` lies in `[0, n)`. */
  lemma PermutationInRange(s: seq<int>, n: nat)
    requires multiset(s) == multiset(Iota(n))
    ensures forall k :: 0 <= k < |s| ==> 0 <= s[k] < n
  {
    forall k | 0 <= k < |s|
      ensures 0 <= s[k] < n
    {
      assert s[k] in multiset(s);
      assert s[k] in multiset(Iota(n));
      assert s[k] in Iota(n);
    }
  }

  /** What the static initialiser guarantees of `p`: its prefix is a
      permutation of `0 .. B - 1`, the rest repeats it with period B. */
  ghost predicate Table(p: seq<int>)
  {
    && |p| == TableLength
    && multiset(p[..B]) == multiset(Iota(B))
    && forall k :: 0 <= k < TableLength ==> p[k] == p[k % B]
  }

  /** Every entry of such a table lies in `[0, B)`. */
  lemma TableEntriesInRange(p: seq<int>)
    requires Table(p)
    ensures forall k :: 0 <= k < |p| ==> 0 <= p[k] < B
  {
    PermutationInRange(p[..B], B);
    forall k | 0 <= k < |p|
      ensures 0 <= p[k] < B
    {
      assert p[k] == p[..B][k % B];
    }
  }

  /** The static initialiser's work on `p`: identity, shuffle, then copy of
      the first B + 2 entries to positions B .. 2B + 1. */
  method BuildPermutation(draws: seq<nat>) returns (p: array<int>)
    requires |draws| == B - 1
    ensures fresh(p) && p.Length == TableLength
    ensures p[..B] == Shuffle(Iota(B), B - 1, draws)
    ensures forall k :: 0 <= k < TableLength ==> p[k] == p[k % B]
    ensures Table(p[..])
  {
    p := new int[TableLength];
    FillIdentity(p);
    ShuffleInPlace(p, draws);
    Duplicate(p);
    ShuffledTable(p[..], draws);
  }

  /** The loop `p[i] = i` for i in [0, B). */
  method FillIdentity(p: array<int>)
    requires p.Length == TableLength
    modifies p
    ensures p[..B] == Iota(B)
  {
    var i := 0;
    while i < B
      invariant 0 <= i <= B
      invariant forall k :: 0 <= k < i ==> p[k] == k
    {
      p[i] := i;
      i := i + 1;
    }
  }

  /** A shuffled identity prefix, repeated with period B, is a table. */
  lemma ShuffledTable(p: seq<int>, draws: seq<nat>)
    requires |p| == TableLength && |draws| == B - 1
    requires p[..B] == Shuffle(Iota(B), B - 1, draws)
    requires forall k :: 0 <= k < TableLength ==> p[k] == p[k % B]
    ensures Table(p)
  {
    ShufflePermutes(Iota(B), B - 1, draws);
  }

  /** The swap loop `while (--i > 0)`, with `j = draw % B`. */
  method ShuffleInPlace(p: array<int>, draws: seq<nat>)
    requires p.Length == TableLength && |draws| == B - 1
    modifies p
    ensures p[..B] == Shuffle(old(p[..B]), B - 1, draws)
    ensures p[B..] == old(p[B..])
  {
    ghost var start := p[..B];
    var i := B - 1;
    while i > 0
      invariant 0 <= i <= B - 1
      invariant Shuffle(p[..B], i, draws[B - 1 - i..]) == Shuffle(start, B - 1, draws)
      invariant p[B..] == old(p[B..])
    {
      var j := draws[B - 1 - i] % B;
      ghost var before := p[..B];
      assert draws[B - 1 - i..][1..] == draws[B - 1 - (i - 1)..];
      SwapEntries(p, i, j);
      assert Shuffle(before, i, draws[B - 1 - i..]) == Shuffle(p[..B], i - 1, draws[B - 1 - (i - 1)..]);
      i := i - 1;
    }
  }

  /** `p[i], p[j] = p[j], p[i]` within the first B entries. */
  method SwapEntries(p: array<int>, i: nat, j: nat)
    requires p.Length == TableLength && i < B && j < B
    modifies p
    ensures p[..B] == Swap(old(p[..B]), i, j)
    ensures p[B..] == old(p[B..])
  {
    p[i], p[j] := p[j], p[i];
  }

  /** The copy loop `p[B + i] = p[i]` for i in [0, B + 2). */
  method Duplicate(p: array<int>)
    requires p.Length == TableLength
    modifies p
    ensures p[..B] == old(p[..B])
    ensures forall k :: 0 <= k < TableLength ==> p[k] == p[k % B]
  {
    var i := 0;
    while i < B + 2
      invariant 0 <= i <= B + 2
      invariant p[..B] == old(p[..B])
      invariant forall k :: 0 <= k < B + i ==> p[k] == p[k % B]
    {
      assert p[i] == p[i % B];
      p[B + i] := p[i];
      assert (B + i) % B == i % B;
      i := i + 1;
    }
  }

  /** `((int)t) & BM` on a 32-bit two's complement int: the low ten bits,
      which is the non-negative remainder modulo B also for negative `t`. */
  function LatticeCell(t: int): (r: nat)
    ensures r <= BM
    ensures (t - r) % B == 0
  {
    t % B
  }

  /** `(b + 1) & BM`: the next lattice cell, wrapping to 0 after BM. */
  function NextCell(b: nat): (r: nat)
    requires b <= BM
    ensures r <= BM
    ensures r == if b == BM then 0 else b + 1
  {
    (b + 1) % B
  }

  /** The four corner hashes `b00, b10, b01, b11` of `noise2` and `noise3`
      for truncated coordinates `tx`, `ty`. */
  datatype Corners = Corners(b00: int, b10: int, b01: int, b11: int)

  function CornerHashes(p: seq<int>, tx: int, ty: int): (c: Corners)
    requires Table(p)
    ensures 0 <= c.b00 < B && 0 <= c.b10 < B && 0 <= c.b01 < B && 0 <= c.b11 < B
  {
    CellCorners(p, LatticeCell(tx), LatticeCell(ty))
  }

  /** The corner hashes of lattice cell (bx0, by0). */
  function CellCorners(p: seq<int>, bx0: nat, by0: nat): (c: Corners)
    requires Table(p) && bx0 <= BM && by0 <= BM
    ensures 0 <= c.b00 < B && 0 <= c.b10 < B && 0 <= c.b01 < B && 0 <= c.b11 < B
  {
    TableEntriesInRange(p);
    var bx1 := NextCell(bx0);
    var by1 := NextCell(by0);
    var i := p[bx0];
    var j := p[bx1];
    Corners(p[i + by0], p[j + by0], p[i + by1], p[j + by1])
  }

  /** Every table lookup `noise2` and `noise3` make is in bounds: the
      second-level lookups `p[i + by]`, the gradient rows `g2[b]` and
      `g3[b + bz]`, and `noise1`'s `g1[p[bx]]`. */
  lemma {:induction false} LatticeLookupsInBounds(p: seq<int>, tx: int, ty: int, tz: int)
    requires Table(p)
    ensures var bx0 := LatticeCell(tx); var by0 := LatticeCell(ty);
            var i := p[bx0]; var j := p[NextCell(bx0)];
            && 0 <= i + by0 < TableLength && 0 <= j + by0 < TableLength
            && 0 <= i + NextCell(by0) < TableLength && 0 <= j + NextCell(by0) < TableLength
    ensures var c := CornerHashes(p, tx, ty);
            var bz0 := LatticeCell(tz); var bz1 := NextCell(bz0);
            && c.b00 + bz0 < TableLength && c.b10 + bz0 < TableLength
            && c.b01 + bz0 < TableLength && c.b11 + bz0 < TableLength
            && c.b00 + bz1 < TableLength && c.b10 + bz1 < TableLength
            && c.b01 + bz1 < TableLength && c.b11 + bz1 < TableLength
    ensures 0 <= p[LatticeCell(tx)] < TableLength && 0 <= p[NextCell(LatticeCell(tx))] < TableLength
  {
    TableEntriesInRange(p);
  }

  /** The table repeats with period B, so the lookup for a lattice cell
      shifted by any multiple of B is the same: the noise is periodic. */
  lemma {:induction false} CornerHashesPeriodic(p: seq<int>, tx: int, ty: int, m: int, n: int)
    requires Table(p)
    ensures CornerHashes(p, tx + m * B, ty + n * B) == CornerHashes(p, tx, ty)
  {
    LatticeCellShift(tx, m);
    LatticeCellShift(ty, n);
  }

  /** Shifting a coordinate by a multiple of B leaves its lattice cell. */
  lemma LatticeCellShift(t: int, m: int)
    ensures LatticeCell(t + m * B) == LatticeCell(t)
  {
    var q, r := t / B, t % B;
    assert t + m * B == (q + m) * B + r;
  }
}
