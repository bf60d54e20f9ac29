/** What a move does to one line of four cells, ordered from the destination
    edge backwards. Two descriptions are given and proved to agree:
    - the reference: drop the empty cells, merge equal neighbours pairwise from
      the edge (each tile takes part in at most one merge), pad with empties;
    - the scan `Board::move` performs (game.rs:136-162) seen on one line: tiles
      arrive one at a time and either double the last placed tile, if it is
      equal and has not yet absorbed a merge, or are placed after it. */
module Slide {

  function Sum(xs: seq<int>): int {
    if xs == [] then 0 else xs[0] + Sum(xs[1..])
  }

  lemma {:induction false} SumAppend(xs: seq<int>, ys: seq<int>)
    ensures Sum(xs + ys) == Sum(xs) + Sum(ys)
  {
    if xs != [] {
      var zs := xs + ys;
      assert zs != [] && zs[0] == xs[0] && zs[1..] == xs[1..] + ys;
      SumAppend(xs[1..], ys);
      assert Sum(zs) == zs[0] + Sum(zs[1..]);
    } else {
      assert xs + ys == ys;
    }
  }

  /** The tiles of a line, in order, without the empty cells. */
  function NonZero(xs: seq<int>): (r: seq<int>)
    ensures |r| <= |xs|
    ensures forall i :: 0 <= i < |r| ==> r[i] != 0
  {
    if xs == [] then []
    else (if xs[0] == 0 then [] else [xs[0]]) + NonZero(xs[1..])
  }

  /** The reference merge: equal neighbours combine pairwise, starting at the
      destination edge; a tile produced by a merge does not merge again. */
  function Merge(xs: seq<int>): seq<int> {
    if |xs| < 2 then xs
    else if xs[0] == xs[1] then [2 * xs[0]] + Merge(xs[2..])
    else [xs[0]] + Merge(xs[1..])
  }

  function Zeros(n: nat): (r: seq<int>)
    ensures |r| == n && forall i :: 0 <= i < n ==> r[i] == 0
  {
    seq(n, _ => 0)
  }

  /** xs followed by empty cells up to length n. */
  function Pad(xs: seq<int>, n: nat): (r: seq<int>)
    requires |xs| <= n
    ensures |r| == n
    ensures forall i :: 0 <= i < |xs| ==> r[i] == xs[i]
    ensures forall i :: |xs| <= i < n ==> r[i] == 0
  {
    xs + Zeros(n - |xs|)
  }

  /** The reference result of moving one line toward its first cell. */
  function SlideLine(line: seq<int>): (r: seq<int>)
    ensures |r| == |line|
  {
    MergeShrinks(NonZero(line));
    Pad(Merge(NonZero(line)), |line|)
  }

  lemma {:induction false} MergeShrinks(xs: seq<int>)
    ensures |Merge(xs)| <= |xs| <= 2 * |Merge(xs)|
  {
    if |xs| >= 2 {
      if xs[0] == xs[1] {
        MergeShrinks(xs[2..]);
      } else {
        MergeShrinks(xs[1..]);
      }
    }
  }

  // ---------------------------------------------------------------------------
  // The scan of Board::move on one line.

  /** Tiles placed so far on the line, from the edge, and whether the last of
      them has already absorbed a merge during this move (the `merged` flag). */
  datatype Pile = Pile(tiles: seq<int>, sealed: bool)

  /** A non-empty tile of value v arrives at the pile. */
  function Push(p: Pile, v: int): (r: Pile)
    ensures |p.tiles| <= |r.tiles| <= |p.tiles| + 1
  {
    var n := |p.tiles|;
    if n > 0 && p.tiles[n - 1] == v && !p.sealed then Pile(p.tiles[..n - 1] + [2 * v], true)
    else Pile(p.tiles + [v], false)
  }

  /** One cell of the line is visited: empty cells are skipped. */
  function Feed(p: Pile, v: int): Pile {
    if v == 0 then p else Push(p, v)
  }

  /** The cells of xs are visited in order. */
  function Gather(p: Pile, xs: seq<int>): Pile
    decreases |xs|
  {
    if xs == [] then p else Gather(Feed(p, xs[0]), xs[1..])
  }

  lemma {:induction false} GatherSnoc(p: Pile, xs: seq<int>, v: int)
    ensures Gather(p, xs + [v]) == Feed(Gather(p, xs), v)
    decreases |xs|
  {
    if xs != [] {
      assert (xs + [v])[1..] == xs[1..] + [v];
      GatherSnoc(Feed(p, xs[0]), xs[1..], v);
    }
  }

  /** Empty cells do not influence the scan. */
  lemma {:induction false} GatherNonZero(p: Pile, xs: seq<int>)
    ensures Gather(p, xs) == Gather(p, NonZero(xs))
    decreases |xs|
  {
    if xs != [] {
      if xs[0] != 0 {
        assert NonZero(xs)[0] == xs[0] && NonZero(xs)[1..] == NonZero(xs[1..]);
        GatherNonZero(Push(p, xs[0]), xs[1..]);
      } else {
        assert NonZero(xs) == NonZero(xs[1..]);
        GatherNonZero(p, xs[1..]);
      }
    }
  }

  /** From a pile whose last tile cannot merge, the scan appends the reference
      merge of the remaining tiles. */
  lemma {:induction false} GatherSealed(t: seq<int>, sealed: bool, zs: seq<int>)
    requires sealed || t == []
    requires forall i :: 0 <= i < |zs| ==> zs[i] != 0
    ensures Gather(Pile(t, sealed), zs).tiles == t + Merge(zs)
    decreases |zs|, 2
  {
    if zs != [] {
      assert Feed(Pile(t, sealed), zs[0]) == Pile(t + [zs[0]], false);
      GatherOpen(t, zs[0], zs[1..]);
      assert [zs[0]] + zs[1..] == zs;
    }
  }

  /** From a pile whose last tile x may still merge, the scan yields the
      reference merge of x followed by the remaining tiles. */
  lemma {:induction false} GatherOpen(t: seq<int>, x: int, zs: seq<int>)
    requires x != 0
    requires forall i :: 0 <= i < |zs| ==> zs[i] != 0
    ensures Gather(Pile(t + [x], false), zs).tiles == t + Merge([x] + zs)
    decreases |zs|, 1
  {
    if zs == [] {
      assert Merge([x]) == [x];
    } else if x == zs[0] {
      GatherOpenMerge(t, x, zs);
    } else {
      GatherOpenKeep(t, x, zs);
    }
  }

  /** The next tile equals the open tile x: they merge and the pile is sealed. */
  lemma {:induction false} GatherOpenMerge(t: seq<int>, x: int, zs: seq<int>)
    requires x != 0 && zs != [] && zs[0] == x
    requires forall i :: 0 <= i < |zs| ==> zs[i] != 0
    ensures Gather(Pile(t + [x], false), zs).tiles == t + Merge([x] + zs)
    decreases |zs|, 0
  {
    var p, rest := Pile(t + [x], false), zs[1..];
    assert Gather(p, zs) == Gather(Feed(p, x), rest);
    assert (t + [x])[..|t|] == t;
    assert Feed(p, x) == Pile(t + [2 * x], true);
    GatherSealed(t + [2 * x], true, rest);
    assert ([x] + zs)[0] == x && ([x] + zs)[1] == x && ([x] + zs)[2..] == rest;
    assert Merge([x] + zs) == [2 * x] + Merge(rest);
    assert (t + [2 * x]) + Merge(rest) == t + ([2 * x] + Merge(rest));
  }

  /** The next tile y differs from the open tile x: x is final, y is open. */
  lemma {:induction false} GatherOpenKeep(t: seq<int>, x: int, zs: seq<int>)
    requires x != 0 && zs != [] && zs[0] != x
    requires forall i :: 0 <= i < |zs| ==> zs[i] != 0
    ensures Gather(Pile(t + [x], false), zs).tiles == t + Merge([x] + zs)
    decreases |zs|, 0
  {
    var p, y, rest := Pile(t + [x], false), zs[0], zs[1..];
    assert Gather(p, zs) == Gather(Feed(p, y), rest);
    assert Feed(p, y) == Pile((t + [x]) + [y], false);
    GatherOpen(t + [x], y, rest);
    assert [y] + rest == zs;
    assert ([x] + zs)[0] == x && ([x] + zs)[1] == y && ([x] + zs)[1..] == zs;
    assert Merge([x] + zs) == [x] + Merge(zs);
    assert (t + [x]) + Merge(zs) == t + ([x] + Merge(zs));
  }

  /** The scan and the reference agree on every line. */
  lemma GatherIsMerge(xs: seq<int>)
    ensures Gather(Pile([], false), xs).tiles == Merge(NonZero(xs))
  {
    GatherNonZero(Pile([], false), xs);
    GatherSealed([], false, NonZero(xs));
  }

  // ---------------------------------------------------------------------------
  // Properties of the reference.

  lemma {:induction false} SumNonZero(xs: seq<int>)
    ensures Sum(NonZero(xs)) == Sum(xs)
  {
    if xs != [] {
      SumNonZero(xs[1..]);
      SumAppend(if xs[0] == 0 then [] else [xs[0]], NonZero(xs[1..]));
    }
  }

  lemma {:induction false} SumMerge(xs: seq<int>)
    ensures Sum(Merge(xs)) == Sum(xs)
  {
    if |xs| >= 2 {
      assert xs == [xs[0]] + xs[1..];
      if xs[0] == xs[1] {
        SumMerge(xs[2..]);
        assert xs[1..] == [xs[1]] + xs[2..];
      } else {
        SumMerge(xs[1..]);
      }
    }
  }

  lemma {:induction false} SumZeros(n: nat)
    ensures Sum(Zeros(n)) == 0
  {
    if n > 0 {
      assert Zeros(n)[1..] == Zeros(n - 1);
      SumZeros(n - 1);
    }
  }

  /** Moving a line neither creates nor destroys value. */
  lemma SlideLineSum(line: seq<int>)
    ensures Sum(SlideLine(line)) == Sum(line)
  {
    var m := Merge(NonZero(line));
    MergeShrinks(NonZero(line));
    SumAppend(m, Zeros(|line| - |m|));
    SumZeros(|line| - |m|);
    SumMerge(NonZero(line));
    SumNonZero(line);
  }

  function Repeat(v: int, k: nat): (r: seq<int>)
    ensures |r| == k && forall i :: 0 <= i < k ==> r[i] == v
  {
    seq(k, _ => v)
  }

  /** Merge once: a run of k equal tiles v becomes k/2 tiles 2v, followed by
      one v when k is odd; never a cascaded merge into 4v. */
  lemma {:induction false} MergeRun(v: int, k: nat)
    ensures Merge(Repeat(v, k)) == Repeat(2 * v, k / 2) + Repeat(v, k % 2)
  {
    if k >= 2 {
      var xs := Repeat(v, k);
      assert xs[0] == xs[1] == v && xs[2..] == Repeat(v, k - 2);
      assert Merge(xs) == [2 * v] + Merge(Repeat(v, k - 2));
      MergeRun(v, k - 2);
      assert (k - 2) / 2 == k / 2 - 1 && (k - 2) % 2 == k % 2;
      assert Repeat(2 * v, k / 2) == [2 * v] + Repeat(2 * v, k / 2 - 1);
    } else if k == 1 {
      assert Repeat(v, 1) == [v];
    }
  }

  /** A line is settled when its tiles are packed against the edge and no two
      neighbouring tiles are equal. */
  predicate Settled(line: seq<int>) {
    && (forall i, j :: 0 <= i < j < |line| && line[i] == 0 ==> line[j] == 0)
    && (forall i :: 0 <= i < |line| - 1 && line[i] != 0 ==> line[i] != line[i + 1])
  }

  /** Merging tiles yields tiles. */
  lemma {:induction false} MergeNonZero(xs: seq<int>)
    requires forall i :: 0 <= i < |xs| ==> xs[i] != 0
    ensures forall i :: 0 <= i < |Merge(xs)| ==> Merge(xs)[i] != 0
  {
    if |xs| >= 2 {
      var rest := if xs[0] == xs[1] then xs[2..] else xs[1..];
      MergeNonZero(rest);
      var head := if xs[0] == xs[1] then 2 * xs[0] else xs[0];
      assert Merge(xs) == [head] + Merge(rest);
    }
  }

  /** Merge changes nothing exactly when no two neighbours are equal. */
  lemma {:induction false} MergeFixed(xs: seq<int>)
    ensures Merge(xs) == xs <==> forall i :: 0 <= i < |xs| - 1 ==> xs[i] != xs[i + 1]
  {
    if |xs| >= 2 {
      MergeFixed(xs[1..]);
      if xs[0] == xs[1] {
        MergeShrinks(xs[2..]);
        assert |Merge(xs)| < |xs|;
      } else {
        assert Merge(xs) == [xs[0]] + Merge(xs[1..]);
        assert xs == [xs[0]] + xs[1..];
        assert forall i :: 1 <= i < |xs| - 1 ==> xs[i] == xs[1..][i - 1] && xs[i + 1] == xs[1..][i];
      }
    }
  }

  /** The tiles of a line packed against the edge are its prefix. */
  lemma {:induction false} NonZeroPacked(t: seq<int>, k: nat)
    requires forall i :: 0 <= i < |t| ==> t[i] != 0
    ensures NonZero(t + Zeros(k)) == t
  {
    if t == [] {
      assert t + Zeros(k) == Zeros(k);
      NonZeroZeros(k);
    } else {
      assert (t + Zeros(k))[1..] == t[1..] + Zeros(k);
      NonZeroPacked(t[1..], k);
    }
  }

  lemma {:induction false} NonZeroZeros(k: nat)
    ensures NonZero(Zeros(k)) == []
  {
    if k > 0 {
      assert Zeros(k)[1..] == Zeros(k - 1);
      NonZeroZeros(k - 1);
    }
  }

  /** A line without tiles after position |NonZero(line)| is its tiles
      followed by empties. */
  lemma {:induction false} PackedSplit(line: seq<int>, t: seq<int>)
    requires forall i :: 0 <= i < |t| ==> t[i] != 0
    requires |t| <= |line| && line == Pad(t, |line|)
    ensures NonZero(line) == t
  {
    NonZeroPacked(t, |line| - |t|);
  }

  /** Moving a line leaves it unchanged exactly when it is settled. */
  lemma SlideFixed(line: seq<int>)
    ensures SlideLine(line) == line <==> Settled(line)
  {
    var nz := NonZero(line);
    var m := Merge(nz);
    MergeShrinks(nz);
    if SlideLine(line) == line {
      MergeNonZero(nz);
      PackedSplit(line, m);
      MergeFixed(nz);
      forall i | 0 <= i < |line| - 1 && line[i] != 0
        ensures line[i] != line[i + 1]
      {
        if i + 1 < |m| {
          assert nz[i] == line[i] && nz[i + 1] == line[i + 1];
        }
      }
    }
    if Settled(line) {
      var n := |line|;
      var k := PackedPrefix(line, 0);
      var t := line[..k];
      assert line == Pad(t, n);
      PackedSplit(line, t);
      MergeFixed(t);
    }
  }

  /** In a settled line the tiles form a prefix, of length m. */
  lemma {:induction false} PackedPrefix(line: seq<int>, k: nat) returns (m: nat)
    requires Settled(line) && k <= |line|
    requires forall i :: 0 <= i < k ==> line[i] != 0
    ensures k <= m <= |line|
    ensures forall i :: 0 <= i < m ==> line[i] != 0
    ensures forall i :: m <= i < |line| ==> line[i] == 0
    decreases |line| - k
  {
    if k < |line| && line[k] != 0 {
      m := PackedPrefix(line, k + 1);
    } else {
      m := k;
    }
  }
}
