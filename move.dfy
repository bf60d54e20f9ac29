/** Sliding and merging (game.rs `get_first_free`, `Board::move`,
    `Board::get_actions`). The functions here state, step by step, what the
    methods compute; module MoveLines proves what a move means. */
module Moves {
  import opened Coords
  import opened Boards

  /** The first distance d in q..p whose cell on line l is empty, or p when
      there is none. */
  function ScanLine(cells: Board, a: Action, l: int, q: int, p: int): (d: int)
    requires 0 <= l < 4 && 0 <= q <= p < 4
    ensures q <= d <= p
    decreases p - q
  {
    AlongRoundTrip(a, Cord(0, 0), l, q);
    if q == p then p
    else if Get(cells, Along(a, l, q)) == 0 then q
    else ScanLine(cells, a, l, q + 1, p)
  }

  /** One step of the scan: stop at an empty cell, otherwise go on. */
  lemma ScanStep(cells: Board, a: Action, l: int, q: int, p: int)
    requires 0 <= l < 4 && 0 <= q < p < 4 && IsValid(Along(a, l, q))
    ensures ScanLine(cells, a, l, q, p) == if Get(cells, Along(a, l, q)) == 0 then q else ScanLine(cells, a, l, q + 1, p)
  {
  }

  /** The scan stops at an empty cell, or at p, and skips only tiles. */
  lemma {:induction false} ScanLineStops(cells: Board, a: Action, l: int, q: int, p: int)
    requires 0 <= l < 4 && 0 <= q <= p < 4
    ensures var d := ScanLine(cells, a, l, q, p);
      && (d < p ==> Get(cells, Along(a, l, d)) == 0)
      && forall j :: q <= j < d ==> Get(cells, Along(a, l, j)) != 0
    decreases p - q
  {
    AlongRoundTrip(a, Cord(0, 0), l, q);
    if q < p && Get(cells, Along(a, l, q)) != 0 {
      ScanLineStops(cells, a, l, q + 1, p);
      assert ScanLine(cells, a, l, q, p) == ScanLine(cells, a, l, q + 1, p);
    }
  }

  /** Where a tile at start lands when moved in direction a: the empty cell
      nearest the destination edge among the cells strictly between that edge
      (inclusive) and start, or start itself when all of them are occupied. */
  function FirstFree(cells: Board, start: Cord, a: Action): (r: Cord)
    requires IsValid(start)
    ensures IsValid(r)
  {
    AlongRoundTrip(a, start, 0, 0);
    var l := LineOf(a, start);
    var d := ScanLine(cells, a, l, 0, DistOf(a, start));
    AlongRoundTrip(a, start, l, d);
    Along(a, l, d)
  }

  /** The first free cell lies on start's line, no farther from the edge than
      start; it is empty unless it is start; and every cell between it and the
      edge holds a tile. */
  lemma FirstFreeNearest(cells: Board, start: Cord, a: Action)
    requires IsValid(start)
    ensures var r := FirstFree(cells, start, a);
      && LineOf(a, r) == LineOf(a, start) && DistOf(a, r) <= DistOf(a, start)
      && (r != start ==> Get(cells, r) == 0)
      && forall j :: 0 <= j < DistOf(a, r) ==> Get(cells, Along(a, LineOf(a, start), j)) != 0
  {
    AlongRoundTrip(a, start, 0, 0);
    var l := LineOf(a, start);
    var d := ScanLine(cells, a, l, 0, DistOf(a, start));
    ScanLineStops(cells, a, l, 0, DistOf(a, start));
    AlongRoundTrip(a, start, l, d);
  }

  /** The cursor walk of `get_first_free`: from the edge cell of start's line
      back toward start, stopping at the first empty cell. */
  method GetFirstFree(start: Cord, a: Action, board: array<int>) returns (r: Cord)
    requires board.Length == 16 && IsValid(start)
    ensures r == FirstFree(board[..], start, a)
  {
    ghost var cells := board[..];
    var (dx, dy) := Dir(a);
    AlongRoundTrip(a, start, 0, 0);
    ghost var l, p := LineOf(a, start), DistOf(a, start);
    var onCord := MinCord(a, start);
    AlongOver(a, l, p);
    r := start;
    ghost var q := 0;
    while onCord != start
      invariant 0 <= q <= p && onCord == Along(a, l, q)
      invariant ScanLine(cells, a, l, q, p) == ScanLine(cells, a, l, 0, p)
      invariant r == start
      decreases p - q
    {
      AlongRoundTrip(a, start, l, q);
      ScanStep(cells, a, l, q, p);
      if board[Index(onCord)] == 0 {
        r := onCord;
        break;
      }
      AlongOver(a, l, q);
      onCord := Cord(onCord.x - dx, onCord.y - dy);
      q := q + 1;
    }
    AlongRoundTrip(a, start, l, q);
  }

  /** The two scratch boards of `move`: the board being built and the flags of
      the cells that have absorbed a merge (1) during this move. */
  datatype Scratch = Scratch(cells: Board, merged: Board)

  /** One iteration of the loop of `move`: the tile at c (if any) lands or merges. */
  function Place(s: Scratch, b: Board, a: Action, c: Cord): Scratch
    requires IsValid(c)
  {
    var value := Get(b, c);
    if value == 0 then s else Arrive(s, value, FirstFree(s.cells, c, a), a)
  }

  /** A tile of the given value that slid to firstFree either doubles the equal,
      not yet merged tile just beyond it or is written at firstFree. */
  function Arrive(s: Scratch, value: int, firstFree: Cord, a: Action): Scratch
    requires IsValid(firstFree)
  {
    match Over(firstFree, a)
    case None => s.(cells := s.cells[Index(firstFree) := value])
    case Some(over) =>
      if Get(s.cells, over) == value && Get(s.merged, over) == 0 then
        Scratch(s.cells[Index(over) := value * 2], s.merged[Index(over) := 1])
      else
        s.(cells := s.cells[Index(firstFree) := value])
  }

  /** The scratch boards after visiting the cells of cords in order. */
  function Sweep(b: Board, a: Action, cords: seq<Cord>): Scratch
    requires forall i :: 0 <= i < |cords| ==> IsValid(cords[i])
    decreases |cords|
  {
    if cords == [] then Scratch(Empty(), Empty())
    else Place(Sweep(b, a, cords[..|cords| - 1]), b, a, cords[|cords| - 1])
  }

  /** Visiting one more cell places its tile on the scratch boards. */
  lemma SweepSnoc(b: Board, a: Action, cords: seq<Cord>, k: int)
    requires forall i :: 0 <= i < |cords| ==> IsValid(cords[i])
    requires 0 <= k < |cords|
    ensures Sweep(b, a, cords[..k + 1]) == Place(Sweep(b, a, cords[..k]), b, a, cords[k])
  {
    assert cords[..k + 1][..k] == cords[..k];
  }

  /** The board after moving b in direction a: the sweep over all its cells
      in the order of the traversal of a. */
  function Moved(b: Board, a: Action): Board {
    Sweep(b, a, Traversal(a)).cells
  }

  /** One iteration of the loop of `Board::move`: the tile at cord, if any,
      lands on its first free cell or doubles the equal tile just beyond it. */
  method PlaceTile(next: array<int>, merged: array<int>, b: Board, a: Action, cord: Cord)
    requires next.Length == 16 && merged.Length == 16 && next != merged
    requires IsValid(cord)
    modifies next, merged
    ensures Scratch(next[..], merged[..]) == Place(Scratch(old(next[..]), old(merged[..])), b, a, cord)
  {
    var value := Get(b, cord);
    if value != 0 {
      var firstFree := GetFirstFree(cord, a, next);
      ArriveTile(next, merged, value, firstFree, a);
    }
  }

  /** The tile that slid to firstFree merges into the cell beyond it or is
      written at firstFree. */
  method ArriveTile(next: array<int>, merged: array<int>, value: int, firstFree: Cord, a: Action)
    requires next.Length == 16 && merged.Length == 16 && next != merged
    requires IsValid(firstFree)
    modifies next, merged
    ensures Scratch(next[..], merged[..]) == Arrive(Scratch(old(next[..]), old(merged[..])), value, firstFree, a)
  {
    match Over(firstFree, a)
    case None =>
      next[Index(firstFree)] := value;
    case Some(over) =>
      if next[Index(over)] == value && merged[Index(over)] == 0 {
        next[Index(over)] := value * 2;
        merged[Index(over)] := 1;
      } else {
        next[Index(firstFree)] := value;
      }
  }

  /** `Board::move`: builds the new board cell by cell in two scratch arrays,
      visiting the cells in the order of the traversal of a. */
  method Move(b: Board, a: Action) returns (r: Board)
    ensures r == Moved(b, a)
  {
    r := SweepCells(b, a, Traversal(a));
  }

  /** The loop of `Board::move` over a list of cells. */
  method SweepCells(b: Board, a: Action, cords: seq<Cord>) returns (r: Board)
    requires forall i :: 0 <= i < |cords| ==> IsValid(cords[i])
    ensures r == Sweep(b, a, cords).cells
  {
    var next := new int[16](_ => 0);
    var merged := new int[16](_ => 0);
    assert next[..] == Empty() && merged[..] == Empty();
    for k := 0 to |cords|
      invariant Scratch(next[..], merged[..]) == Sweep(b, a, cords[..k])
    {
      SweepSnoc(b, a, cords, k);
      PlaceTile(next, merged, b, a, cords[k]);
    }
    assert cords[..|cords|] == cords;
    r := next[..];
  }

  /** Position of an action in the enumeration order Up, Down, Left, Right. */
  function Rank(a: Action): int {
    match a
    case Up => 0
    case Down => 1
    case Left => 2
    case Right => 3
  }

  /** The filter of get_actions over the list Up, Down, Left, Right, given
      for each action whether it is kept. */
  function Keep(up: bool, down: bool, left: bool, right: bool): (r: seq<Action>)
    ensures (Up in r <==> up) && (Down in r <==> down) && (Left in r <==> left) && (Right in r <==> right)
    ensures forall i, j :: 0 <= i < j < |r| ==> Rank(r[i]) < Rank(r[j])
  {
    (if up then [Up] else []) + (if down then [Down] else [])
    + (if left then [Left] else []) + (if right then [Right] else [])
  }

  /** The legal actions: those whose move changes the board, in the order
      Up, Down, Left, Right. No legal action means the game is over. */
  function Actions(b: Board): (r: seq<Action>)
    ensures Up in r <==> Moved(b, Up) != b
    ensures Down in r <==> Moved(b, Down) != b
    ensures Left in r <==> Moved(b, Left) != b
    ensures Right in r <==> Moved(b, Right) != b
    ensures forall i, j :: 0 <= i < j < |r| ==> Rank(r[i]) < Rank(r[j])
  {
    Keep(Moved(b, Up) != b, Moved(b, Down) != b, Moved(b, Left) != b, Moved(b, Right) != b)
  }

  /** An action is offered exactly when its move changes the board. */
  lemma ActionIn(b: Board, a: Action)
    ensures a in Actions(b) <==> Moved(b, a) != b
  {
    var r := Actions(b);
    var changed := Moved(b, a) != b;
    if a == Up {
      assert Up in r <==> changed;
    } else if a == Down {
      assert Down in r <==> changed;
    } else if a == Left {
      assert Left in r <==> changed;
    } else {
      assert Right in r <==> changed;
    }
  }

  /** The game is over (no action is offered) exactly when no move changes
      the board. */
  lemma NoActionsIffStuck(b: Board)
    ensures Actions(b) == [] <==> forall a: Action :: Moved(b, a) == b
  {
    var r := Actions(b);
    if r == [] {
      forall a: Action
        ensures Moved(b, a) == b
      {
        ActionIn(b, a);
      }
    } else {
      ActionIn(b, r[0]);
    }
  }
}
