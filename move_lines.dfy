/** What `Board::move` (game.rs:136-162) means: each of the four lines of the
    board, read from the destination edge backwards, becomes the reference
    slide of that line (module Slide). From this follow the conservation of
    the tile sum and the meaning of "an action is legal". */
module MoveLines {
  import opened Coords
  import opened Boards
  import opened Slide
  import opened Moves

  /** The vector position of the cell at distance q on line l, that is
      Index(Along(a, l, q)) (lemma CellIndex). It is written in closed form,
      one linear expression per direction, because the concrete board
      lemmas unfold it many times and the composition through Along and Index
      makes those proofs several times more expensive. */
  function Cell(a: Action, l: int, q: int): (i: int)
    requires 0 <= l < 4 && 0 <= q < 4
    ensures 0 <= i < 16
  {
    match a
    case Up => l + 4 * q
    case Down => (3 - l) + 4 * (3 - q)
    case Left => q + 4 * l
    case Right => (3 - q) + 4 * (3 - l)
  }

  /** The closed form agrees with the vector index of the line coordinates. */
  lemma CellIndex(a: Action, l: int, q: int)
    requires 0 <= l < 4 && 0 <= q < 4
    ensures Cell(a, l, q) == Index(Along(a, l, q))
  {
  }

  /** Line l of s for direction a, from the destination edge backwards. */
  function LineView(s: Board, a: Action, l: int): (r: seq<int>)
    requires 0 <= l < 4
    ensures |r| == 4 && forall j :: 0 <= j < 4 ==> r[j] == s[Cell(a, l, j)]
  {
    seq(4, j requires 0 <= j < 4 => s[Cell(a, l, j)])
  }

  /** Different line coordinates name different cells. */
  lemma CellInjective(a: Action, l: int, i: int, m: int, j: int)
    requires 0 <= l < 4 && 0 <= i < 4 && 0 <= m < 4 && 0 <= j < 4
    ensures Cell(a, l, i) == Cell(a, m, j) ==> l == m && i == j
  {
  }

  /** Every cell is on some line at some distance. */
  lemma CellOnto(a: Action, i: int) returns (l: int, q: int)
    requires 0 <= i < 16
    ensures 0 <= l < 4 && 0 <= q < 4 && Cell(a, l, q) == i
  {
    var y, x := Split(i);
    var c := Cord(x, y);
    AlongRoundTrip(a, c, 0, 0);
    l, q := LineOf(a, c), DistOf(a, c);
    CellIndex(a, l, q);
  }

  /** Writing one cell changes only the line that holds it, at that cell. */
  lemma LineViewUpdate(s: Board, a: Action, l: int, j: int, v: int, m: int)
    requires 0 <= l < 4 && 0 <= j < 4 && 0 <= m < 4
    ensures LineView(s[Cell(a, l, j) := v], a, m) == if m == l then LineView(s, a, m)[j := v] else LineView(s, a, m)
  {
    forall i | 0 <= i < 4 {
      CellInjective(a, l, j, m, i);
    }
  }

  /** Two boards with the same four lines are the same board. */
  lemma {:induction false} BoardFromLines(x: Board, y: Board, a: Action)
    requires forall l :: 0 <= l < 4 ==> LineView(x, a, l) == LineView(y, a, l)
    ensures x == y
  {
    forall i | 0 <= i < 16
      ensures x[i] == y[i]
    {
      var l, q := CellOnto(a, i);
      assert LineView(x, a, l)[q] == LineView(y, a, l)[q];
    }
  }

  // ---------------------------------------------------------------------------
  // The sweep, line by line.

  /** The state of line l of the scratch boards after the scan has visited its
      first q cells, whose tiles the pile p summarises. */
  predicate Partial(cells: seq<int>, flags: seq<int>, p: Pile, q: int)
    requires |cells| == 4 && |flags| == 4
  {
    && |p.tiles| <= q && |p.tiles| <= 4
    && (forall i :: 0 <= i < |p.tiles| ==> p.tiles[i] != 0)
    && cells == Pad(p.tiles, 4)
    && (forall j :: |p.tiles| <= j < 4 ==> flags[j] == 0)
    && (|p.tiles| > 0 ==> (flags[|p.tiles| - 1] == 0 <==> !p.sealed))
  }

  /** The scratch boards after the sweep has visited lines 0..l-1 entirely and
      the first q cells of line l. */
  predicate SweptTo(s: Scratch, b: Board, a: Action, l: int, q: int)
    requires 0 <= l < 4 && 0 <= q <= 4
  {
    && (forall m :: 0 <= m < l ==> LineView(s.cells, a, m) == SlideLine(LineView(b, a, m)))
    && (forall m :: l < m < 4 ==> LineView(s.cells, a, m) == Zeros(4) && LineView(s.merged, a, m) == Zeros(4))
    && Partial(LineView(s.cells, a, l), LineView(s.merged, a, l), Gather(Pile([], false), LineView(b, a, l)[..q]), q)
  }

  lemma SweepStart(b: Board, a: Action)
    ensures SweptTo(Sweep(b, a, []), b, a, 0, 0)
  {
    BlankSwept(Sweep(b, a, []), b, a);
  }

  lemma BlankSwept(s: Scratch, b: Board, a: Action)
    requires s == Scratch(Empty(), Empty())
    ensures SweptTo(s, b, a, 0, 0)
  {
    forall m | 0 <= m < 4
      ensures LineView(s.cells, a, m) == Zeros(4) && LineView(s.merged, a, m) == Zeros(4)
    {
    }
    assert LineView(b, a, 0)[..0] == [];
    assert Gather(Pile([], false), []) == Pile([], false);
    assert Pad([], 4) == Zeros(4);
  }

  /** A line whose cells have all been visited holds the reference slide. */
  lemma LineDone(s: Scratch, b: Board, a: Action, l: int)
    requires 0 <= l < 4 && SweptTo(s, b, a, l, 4)
    ensures LineView(s.cells, a, l) == SlideLine(LineView(b, a, l))
  {
    var line := LineView(b, a, l);
    assert line[..4] == line;
    GatherIsMerge(line);
  }

  lemma NextLine(s: Scratch, b: Board, a: Action, l: int)
    requires 0 <= l < 3 && SweptTo(s, b, a, l, 4)
    ensures SweptTo(s, b, a, l + 1, 0)
  {
    LineDone(s, b, a, l);
    forall m | 0 <= m < l + 1
      ensures LineView(s.cells, a, m) == SlideLine(LineView(b, a, m))
    {
    }
    assert LineView(b, a, l + 1)[..0] == [];
    assert Gather(Pile([], false), []) == Pile([], false);
    assert LineView(s.cells, a, l + 1) == Zeros(4) == Pad([], 4);
  }

  /** The first free cell seen from the cell at distance q of line l is at
      distance n, the number of tiles already placed on that line. */
  lemma FirstFreeOnLine(cells: Board, a: Action, l: int, q: int, tiles: seq<int>)
    requires 0 <= l < 4 && 0 <= q < 4 && |tiles| <= q
    requires forall i :: 0 <= i < |tiles| ==> tiles[i] != 0
    requires LineView(cells, a, l) == Pad(tiles, 4)
    ensures FirstFree(cells, Along(a, l, q), a) == Along(a, l, |tiles|)
  {
    var start, n := Along(a, l, q), |tiles|;
    forall j | 0 <= j < 4
      ensures (Get(cells, Along(a, l, j)) == 0) == (j >= n)
    {
      AlongRoundTrip(a, start, l, j);
      CellIndex(a, l, j);
      assert Get(cells, Along(a, l, j)) == LineView(cells, a, l)[j];
    }
    AlongRoundTrip(a, start, l, q);
    FirstFreeNearest(cells, start, a);
    var r := FirstFree(cells, start, a);
    var d := DistOf(a, r);
    AlongRoundTrip(a, r, l, d);
    assert r == Along(a, l, d) && (d < q ==> r != start);
  }

  /** One iteration of the loop of `move` on line l, when the visited cell
      holds a tile: it doubles the last placed tile when that is equal and not
      yet merged, and otherwise lands on the next free cell of the line. */
  lemma PlaceOnLine(s: Scratch, b: Board, a: Action, l: int, q: int, p: Pile)
    requires 0 <= l < 4 && 0 <= q < 4
    requires Partial(LineView(s.cells, a, l), LineView(s.merged, a, l), p, q)
    requires Get(b, Along(a, l, q)) != 0
    ensures var v, n := Get(b, Along(a, l, q)), |p.tiles|;
      Place(s, b, a, Along(a, l, q)) ==
        if n > 0 && p.tiles[n - 1] == v && !p.sealed
        then Scratch(s.cells[Cell(a, l, n - 1) := 2 * v], s.merged[Cell(a, l, n - 1) := 1])
        else Scratch(s.cells[Cell(a, l, n) := v], s.merged)
  {
    var n := |p.tiles|;
    FirstFreeOnLine(s.cells, a, l, q, p.tiles);
    AlongRoundTrip(a, Cord(0, 0), l, n);
    ArriveAt(s, a, l, n, Get(b, Along(a, l, q)));
    if n > 0 {
      assert s.cells[Cell(a, l, n - 1)] == LineView(s.cells, a, l)[n - 1];
      assert s.merged[Cell(a, l, n - 1)] == LineView(s.merged, a, l)[n - 1];
    }
  }

  /** A tile of value v that slid to distance n on line l. */
  lemma ArriveAt(s: Scratch, a: Action, l: int, n: int, v: int)
    requires 0 <= l < 4 && 0 <= n < 4 && IsValid(Along(a, l, n))
    ensures Arrive(s, v, Along(a, l, n), a) ==
        if n > 0 && s.cells[Cell(a, l, n - 1)] == v && s.merged[Cell(a, l, n - 1)] == 0
        then Scratch(s.cells[Cell(a, l, n - 1) := 2 * v], s.merged[Cell(a, l, n - 1) := 1])
        else Scratch(s.cells[Cell(a, l, n) := v], s.merged)
  {
    AlongRoundTrip(a, Cord(0, 0), l, n);
    AlongOver(a, l, n);
    CellIndex(a, l, n);
    if n > 0 {
      AlongRoundTrip(a, Cord(0, 0), l, n - 1);
      CellIndex(a, l, n - 1);
    }
  }

  /** The same step on the line alone: the pile after one more tile. */
  lemma PartialPush(cells: seq<int>, flags: seq<int>, p: Pile, q: int, v: int)
    requires |cells| == 4 && |flags| == 4 && 0 <= q < 4 && v != 0
    requires Partial(cells, flags, p, q)
    ensures var n := |p.tiles|;
      if n > 0 && p.tiles[n - 1] == v && !p.sealed
      then Partial(cells[n - 1 := 2 * v], flags[n - 1 := 1], Push(p, v), q + 1)
      else Partial(cells[n := v], flags, Push(p, v), q + 1)
  {
    var n := |p.tiles|;
    if n > 0 && p.tiles[n - 1] == v && !p.sealed {
      assert cells[n - 1 := 2 * v] == Pad(p.tiles[..n - 1] + [2 * v], 4);
    } else {
      assert cells[n := v] == Pad(p.tiles + [v], 4);
    }
  }

  /** Writing a cell of line l leaves the scratch state of the other lines. */
  lemma WriteLine(s: Scratch, next: Scratch, b: Board, a: Action, l: int, q: int, p: Pile)
    requires 0 <= l < 4 && 0 <= q < 4 && SweptTo(s, b, a, l, q)
    requires forall m :: 0 <= m < 4 && m != l ==>
      LineView(next.cells, a, m) == LineView(s.cells, a, m) && LineView(next.merged, a, m) == LineView(s.merged, a, m)
    requires p == Gather(Pile([], false), LineView(b, a, l)[..q + 1])
    requires Partial(LineView(next.cells, a, l), LineView(next.merged, a, l), p, q + 1)
    ensures SweptTo(next, b, a, l, q + 1)
  {
  }

  /** One iteration of the sweep on line l. */
  lemma SweepStep(s: Scratch, b: Board, a: Action, l: int, q: int)
    requires 0 <= l < 4 && 0 <= q < 4 && SweptTo(s, b, a, l, q)
    ensures SweptTo(Place(s, b, a, Along(a, l, q)), b, a, l, q + 1)
  {
    var line := LineView(b, a, l);
    var p := Gather(Pile([], false), line[..q]);
    var v := line[q];
    assert line[..q + 1] == line[..q] + [v];
    GatherSnoc(Pile([], false), line[..q], v);
    AlongRoundTrip(a, Cord(0, 0), l, q);
    CellIndex(a, l, q);
    assert Get(b, Along(a, l, q)) == v;
    if v != 0 {
      SweepTile(s, b, a, l, q, p);
    } else {
      assert Place(s, b, a, Along(a, l, q)) == s;
    }
  }

  /** The step when the visited cell holds a tile. */
  lemma SweepTile(s: Scratch, b: Board, a: Action, l: int, q: int, p: Pile)
    requires 0 <= l < 4 && 0 <= q < 4 && SweptTo(s, b, a, l, q)
    requires p == Gather(Pile([], false), LineView(b, a, l)[..q])
    requires Get(b, Along(a, l, q)) != 0
    requires Gather(Pile([], false), LineView(b, a, l)[..q + 1]) == Push(p, Get(b, Along(a, l, q)))
    ensures SweptTo(Place(s, b, a, Along(a, l, q)), b, a, l, q + 1)
  {
    var v, n := Get(b, Along(a, l, q)), |p.tiles|;
    PlaceOnLine(s, b, a, l, q, p);
    if n > 0 && p.tiles[n - 1] == v && !p.sealed {
      MergeStep(s, Place(s, b, a, Along(a, l, q)), b, a, l, q, p, v);
    } else {
      LandStep(s, Place(s, b, a, Along(a, l, q)), b, a, l, q, p, v);
    }
  }

  /** The tile doubles the last placed tile of the line. */
  lemma MergeStep(s: Scratch, next: Scratch, b: Board, a: Action, l: int, q: int, p: Pile, v: int)
    requires 0 <= l < 4 && 0 <= q < 4 && SweptTo(s, b, a, l, q)
    requires p == Gather(Pile([], false), LineView(b, a, l)[..q])
    requires v != 0 && Gather(Pile([], false), LineView(b, a, l)[..q + 1]) == Push(p, v)
    requires |p.tiles| > 0 && p.tiles[|p.tiles| - 1] == v && !p.sealed
    requires next == Scratch(s.cells[Cell(a, l, |p.tiles| - 1) := 2 * v], s.merged[Cell(a, l, |p.tiles| - 1) := 1])
    ensures SweptTo(next, b, a, l, q + 1)
  {
    PartialPush(LineView(s.cells, a, l), LineView(s.merged, a, l), p, q, v);
    MergeOnLine(s, next, a, l, |p.tiles| - 1, 2 * v);
    WriteLine(s, next, b, a, l, q, Push(p, v));
  }

  /** The tile lands on the next free cell of the line. */
  lemma LandStep(s: Scratch, next: Scratch, b: Board, a: Action, l: int, q: int, p: Pile, v: int)
    requires 0 <= l < 4 && 0 <= q < 4 && SweptTo(s, b, a, l, q)
    requires p == Gather(Pile([], false), LineView(b, a, l)[..q])
    requires v != 0 && Gather(Pile([], false), LineView(b, a, l)[..q + 1]) == Push(p, v)
    requires !(|p.tiles| > 0 && p.tiles[|p.tiles| - 1] == v && !p.sealed)
    requires next == Scratch(s.cells[Cell(a, l, |p.tiles|) := v], s.merged)
    ensures SweptTo(next, b, a, l, q + 1)
  {
    PartialPush(LineView(s.cells, a, l), LineView(s.merged, a, l), p, q, v);
    LandOnLine(s, next, a, l, |p.tiles|, v);
    WriteLine(s, next, b, a, l, q, Push(p, v));
  }

  /** A merge writes the doubled tile and its flag on line l only. */
  lemma MergeOnLine(s: Scratch, next: Scratch, a: Action, l: int, j: int, w: int)
    requires 0 <= l < 4 && 0 <= j < 4
    requires next == Scratch(s.cells[Cell(a, l, j) := w], s.merged[Cell(a, l, j) := 1])
    ensures forall m :: 0 <= m < 4 ==>
      LineView(next.cells, a, m) == (if m == l then LineView(s.cells, a, m)[j := w] else LineView(s.cells, a, m))
      && LineView(next.merged, a, m) == (if m == l then LineView(s.merged, a, m)[j := 1] else LineView(s.merged, a, m))
  {
    forall m | 0 <= m < 4
      ensures LineView(next.cells, a, m) == (if m == l then LineView(s.cells, a, m)[j := w] else LineView(s.cells, a, m))
      ensures LineView(next.merged, a, m) == (if m == l then LineView(s.merged, a, m)[j := 1] else LineView(s.merged, a, m))
    {
      LineViewUpdate(s.cells, a, l, j, w, m);
      LineViewUpdate(s.merged, a, l, j, 1, m);
    }
  }

  /** A landing tile is written on line l only. */
  lemma LandOnLine(s: Scratch, next: Scratch, a: Action, l: int, j: int, v: int)
    requires 0 <= l < 4 && 0 <= j < 4
    requires next == Scratch(s.cells[Cell(a, l, j) := v], s.merged)
    ensures forall m :: 0 <= m < 4 ==>
      LineView(next.cells, a, m) == (if m == l then LineView(s.cells, a, m)[j := v] else LineView(s.cells, a, m))
      && LineView(next.merged, a, m) == LineView(s.merged, a, m)
  {
    forall m | 0 <= m < 4
      ensures LineView(next.cells, a, m) == (if m == l then LineView(s.cells, a, m)[j := v] else LineView(s.cells, a, m))
    {
      LineViewUpdate(s.cells, a, l, j, v, m);
    }
  }

  /** t lists the cells line after line, each from the destination edge
      backwards. */
  predicate LineOrder(a: Action, t: seq<Cord>) {
    && |t| == 16
    && (forall i :: 0 <= i < 16 ==> IsValid(t[i]))
    && (forall l, q :: 0 <= l < 4 && 0 <= q < 4 ==> t[4 * l + q] == Along(a, l, q))
  }

  /** The sweep after k = 4l + q cells is in the state SweptTo describes. */
  lemma {:induction false} SweepInvariant(b: Board, a: Action, t: seq<Cord>, l: int, q: int, k: nat)
    requires LineOrder(a, t)
    requires 0 <= l < 4 && 0 <= q <= 4 && k == 4 * l + q
    ensures SweptTo(Sweep(b, a, t[..k]), b, a, l, q)
    decreases l, q
  {
    if q > 0 {
      SweepInvariant(b, a, t, l, q - 1, k - 1);
      SweepUnfold(b, a, t, l, q - 1, k - 1);
      SweepStep(Sweep(b, a, t[..k - 1]), b, a, l, q - 1);
    } else if l > 0 {
      SweepInvariant(b, a, t, l - 1, 4, k);
      NextLine(Sweep(b, a, t[..k]), b, a, l - 1);
    } else {
      assert t[..0] == [];
      SweepStart(b, a);
    }
  }

  /** The cell visited at step k = 4l + q is the cell at distance q on line l. */
  lemma SweepUnfold(b: Board, a: Action, t: seq<Cord>, l: int, q: int, k: nat)
    requires LineOrder(a, t)
    requires 0 <= l < 4 && 0 <= q < 4 && k == 4 * l + q
    ensures Sweep(b, a, t[..k + 1]) == Place(Sweep(b, a, t[..k]), b, a, Along(a, l, q))
  {
    SweepSnoc(b, a, t, k);
  }

  /** The traversal of `get_traversal` visits the cells in line order. */
  lemma TraversalLineOrder(a: Action)
    ensures LineOrder(a, Traversal(a))
  {
    forall l, q | 0 <= l < 4 && 0 <= q < 4
      ensures Traversal(a)[4 * l + q] == Along(a, l, q)
    {
      TraversalOrder(a, l, q);
    }
  }

  /** The reference result of a move: r is b with every line, read from the
      destination edge of a, slid independently (module Slide). */
  predicate SlidTo(b: Board, a: Action, r: Board) {
    forall l :: 0 <= l < 4 ==> LineView(r, a, l) == SlideLine(LineView(b, a, l))
  }

  /** A sweep over the cells in line order slides every line independently. */
  lemma SweepByLines(b: Board, a: Action, t: seq<Cord>)
    requires LineOrder(a, t)
    ensures SlidTo(b, a, Sweep(b, a, t).cells)
  {
    SweepInvariant(b, a, t, 3, 4, 16);
    assert t[..16] == t;
    LineDone(Sweep(b, a, t), b, a, 3);
  }

  // ---------------------------------------------------------------------------
  // Consequences.

  /** Moving in direction a slides every line of the board independently. */
  lemma MovedByLines(b: Board, a: Action)
    ensures SlidTo(b, a, Moved(b, a))
  {
    TraversalLineOrder(a);
    SweepByLines(b, a, Traversal(a));
  }

  /** The lines determine the board, so the reference result is unique. */
  lemma SlidUnique(b: Board, a: Action, m: Board, r: Board)
    requires SlidTo(b, a, m)
    ensures m == r <==> SlidTo(b, a, r)
  {
    if SlidTo(b, a, r) {
      BoardFromLines(m, r, a);
    }
  }

  /** `Board::move` computes the reference result, on every board and in
      every direction, and nothing else. */
  lemma MoveIsSlide(b: Board, a: Action, r: Board)
    ensures Moved(b, a) == r <==> SlidTo(b, a, r)
  {
    MovedByLines(b, a);
    SlidUnique(b, a, Moved(b, a), r);
  }

  lemma Sum4(s: seq<int>)
    requires |s| == 4
    ensures Sum(s) == s[0] + s[1] + s[2] + s[3]
  {
    assert s[3..][1..] == [];
    assert Sum(s[3..]) == s[3];
    assert s[2..][1..] == s[3..];
    assert Sum(s[2..]) == s[2] + s[3];
    assert s[1..][1..] == s[2..];
    assert Sum(s[1..]) == s[1] + s[2] + s[3];
  }

  /** The sum of a board, cell by cell. */
  lemma Sum16(x: Board)
    ensures Sum(x) == x[0] + x[1] + x[2] + x[3] + x[4] + x[5] + x[6] + x[7]
      + x[8] + x[9] + x[10] + x[11] + x[12] + x[13] + x[14] + x[15]
  {
    var p, q, r, t := x[..4], x[4..8], x[8..12], x[12..];
    assert x == p + (q + (r + t));
    SumAppend(p, q + (r + t));
    SumAppend(q, r + t);
    SumAppend(r, t);
    Sum4(p);
    Sum4(q);
    Sum4(r);
    Sum4(t);
  }

  lemma LineSum(x: Board, a: Action, l: int)
    requires 0 <= l < 4
    ensures Sum(LineView(x, a, l)) == x[Cell(a, l, 0)] + x[Cell(a, l, 1)] + x[Cell(a, l, 2)] + x[Cell(a, l, 3)]
  {
    Sum4(LineView(x, a, l));
  }

  /** The four lines of a direction partition the board. */
  lemma SumByLines(x: Board, a: Action)
    ensures Sum(x) == Sum(LineView(x, a, 0)) + Sum(LineView(x, a, 1)) + Sum(LineView(x, a, 2)) + Sum(LineView(x, a, 3))
  {
    Sum16(x);
    LineSum(x, a, 0);
    LineSum(x, a, 1);
    LineSum(x, a, 2);
    LineSum(x, a, 3);
  }

  /** A move neither creates nor destroys value: merging two tiles v yields
      one tile 2v. */
  lemma MoveKeepsSum(b: Board, a: Action)
    ensures Sum(Moved(b, a)) == Sum(b)
  {
    MoveIsSlide(b, a, Moved(b, a));
    SlidKeepsSum(b, a, Moved(b, a));
  }

  lemma SlidKeepsSum(b: Board, a: Action, r: Board)
    requires SlidTo(b, a, r)
    ensures Sum(r) == Sum(b)
  {
    SumByLines(b, a);
    SumByLines(r, a);
    forall l | 0 <= l < 4
      ensures Sum(LineView(r, a, l)) == Sum(LineView(b, a, l))
    {
      SlideLineSum(LineView(b, a, l));
    }
  }

  /** A move leaves the board unchanged exactly when every line, read from
      the destination edge, is settled: packed against the edge with no two
      equal neighbouring tiles. */
  lemma StuckIffSettled(b: Board, a: Action)
    ensures Moved(b, a) == b <==> forall l :: 0 <= l < 4 ==> Settled(LineView(b, a, l))
  {
    MoveIsSlide(b, a, b);
    forall l | 0 <= l < 4
      ensures LineView(b, a, l) == SlideLine(LineView(b, a, l)) <==> Settled(LineView(b, a, l))
    {
      SlideFixed(LineView(b, a, l));
    }
  }

  /** `get_actions` offers an action exactly when some line can still slide
      or merge in its direction. */
  lemma LegalIffUnsettled(b: Board, a: Action)
    ensures a in Actions(b) <==> exists l :: 0 <= l < 4 && !Settled(LineView(b, a, l))
  {
    StuckIffSettled(b, a);
    ActionIn(b, a);
  }
}
