/** Directions, grid coordinates and the order in which a move visits the cells
    of the 4x4 board (game.rs, `Action`, `Cord` and `get_traversal`). */
module Coords {

  datatype Option<T> = None | Some(value: T)

  /** The four moves a player can make. */
  datatype Action = Up | Down | Left | Right

  /** A grid coordinate: x is the column, y the row, row 0 at the top. */
  datatype Cord = Cord(x: int, y: int)

  /** The unit step a tile takes when the board is moved in direction a. */
  function Dir(a: Action): (d: (int, int))
    ensures d.0 * d.0 + d.1 * d.1 == 1
  {
    match a
    case Down => (0, 1)
    case Up => (0, -1)
    case Right => (1, 0)
    case Left => (-1, 0)
  }

  predicate IsValid(c: Cord) {
    0 <= c.x < 4 && 0 <= c.y < 4
  }

  /** The neighbour of c one step in direction a, when it is on the board. */
  function Over(c: Cord, a: Action): (r: Option<Cord>)
    ensures r.Some? <==> IsValid(Cord(c.x + Dir(a).0, c.y + Dir(a).1))
    ensures r.Some? ==> IsValid(r.value) && r.value == Cord(c.x + Dir(a).0, c.y + Dir(a).1)
  {
    var (dx, dy) := Dir(a);
    var over := Cord(c.x + dx, c.y + dy);
    if IsValid(over) then Some(over) else None
  }

  /** The cell on the destination edge of a that lies on start's line. */
  function MinCord(a: Action, start: Cord): (r: Cord)
    ensures IsValid(start) ==> IsValid(r) && Over(r, a) == None
    ensures Dir(a).0 == 0 ==> r.x == start.x
    ensures Dir(a).1 == 0 ==> r.y == start.y
  {
    match a
    case Up => Cord(start.x, 0)
    case Down => Cord(start.x, 3)
    case Left => Cord(0, start.y)
    case Right => Cord(3, start.y)
  }

  /** Position of a cell in the board vector, row-major. */
  function Index(c: Cord): int {
    c.x + c.y * 4
  }

  /** The coordinate stored at position i of the board vector. */
  function CordOf(i: int): Cord {
    Cord(i % 4, i / 4)
  }

  /** Index is a bijection between the valid coordinates and 0..15. */
  lemma IndexRoundTrip(c: Cord, i: int)
    ensures IsValid(c) ==> 0 <= Index(c) < 16 && CordOf(Index(c)) == c
    ensures 0 <= i < 16 ==> IsValid(CordOf(i)) && Index(CordOf(i)) == i
  {
  }

  /** Line coordinates. A move in direction a handles the board as four lines of
      four cells; Along(a, l, q) is the cell at distance q from a's destination
      edge on the l-th line that a move in direction a processes. */
  function Along(a: Action, l: int, q: int): Cord {
    match a
    case Up => Cord(l, q)
    case Down => Cord(3 - l, 3 - q)
    case Left => Cord(q, l)
    case Right => Cord(3 - q, 3 - l)
  }

  /** The line of c, in the numbering of Along. */
  function LineOf(a: Action, c: Cord): int {
    match a
    case Up => c.x
    case Down => 3 - c.x
    case Left => c.y
    case Right => 3 - c.y
  }

  /** The distance of c from the destination edge of a. */
  function DistOf(a: Action, c: Cord): int {
    match a
    case Up => c.y
    case Down => 3 - c.y
    case Left => c.x
    case Right => 3 - c.x
  }

  /** Line coordinates name every valid cell exactly once. */
  lemma AlongRoundTrip(a: Action, c: Cord, l: int, q: int)
    ensures IsValid(c) ==> 0 <= LineOf(a, c) < 4 && 0 <= DistOf(a, c) < 4 && Along(a, LineOf(a, c), DistOf(a, c)) == c
    ensures (0 <= l < 4 && 0 <= q < 4) <==> IsValid(Along(a, l, q))
    ensures LineOf(a, Along(a, l, q)) == l && DistOf(a, Along(a, l, q)) == q
  {
  }

  /** One step in direction a moves one cell closer to the destination edge
      along the same line; at the edge there is no neighbour. */
  lemma AlongOver(a: Action, l: int, q: int)
    requires 0 <= l < 4 && 0 <= q < 4
    ensures Over(Along(a, l, q), a) == if q == 0 then None else Some(Along(a, l, q - 1))
    ensures MinCord(a, Along(a, l, q)) == Along(a, l, 0)
    ensures var (dx, dy) := Dir(a); Cord(Along(a, l, q).x - dx, Along(a, l, q).y - dy) == Along(a, l, q + 1)
  {
  }

  /** s in reverse order (`Vec::reverse`). */
  function Reversed(s: seq<Cord>): seq<Cord> {
    seq(|s|, i requires 0 <= i < |s| => s[|s| - 1 - i])
  }

  /** The order in which a move in direction a visits the cells. */
  function Traversal(a: Action): (t: seq<Cord>)
    decreases if a == Down || a == Right then 1 else 0
    ensures |t| == 16
    ensures forall i :: 0 <= i < 16 ==> IsValid(t[i])
  {
    match a
    case Up => seq(16, i => Cord(i / 4, i % 4))
    case Down => Reversed(Traversal(Up))
    case Left => seq(16, i => Cord(i % 4, i / 4))
    case Right => Reversed(Traversal(Left))
  }

  /** A move visits the lines one after the other, and each line from the
      destination edge backwards. */
  lemma TraversalOrder(a: Action, l: int, q: int)
    requires 0 <= l < 4 && 0 <= q < 4
    ensures Traversal(a)[4 * l + q] == Along(a, l, q)
  {
    match a
    case Up => ForwardOrder(l, q);
    case Left => ForwardOrder(l, q);
    case Down => BackwardOrder(Up, l, q);
    case Right => BackwardOrder(Left, l, q);
  }

  /** Down and Right visit the cells of Up and Left in reverse. */
  lemma BackwardOrder(a: Action, l: int, q: int)
    requires a == Up || a == Left
    requires 0 <= l < 4 && 0 <= q < 4
    ensures Traversal(if a == Up then Down else Right)[4 * l + q] == Along(if a == Up then Down else Right, l, q)
  {
    ForwardOrder(3 - l, 3 - q);
    assert 15 - (4 * l + q) == 4 * (3 - l) + (3 - q);
  }

  lemma ForwardOrder(l: int, q: int)
    requires 0 <= l < 4 && 0 <= q < 4
    ensures Traversal(Up)[4 * l + q] == Cord(l, q)
    ensures Traversal(Left)[4 * l + q] == Cord(q, l)
  {
    assert (4 * l + q) / 4 == l && (4 * l + q) % 4 == q;
  }

  /** Every position of the traversal is 4l + q for one line l and one
      distance q. */
  lemma Split(i: int) returns (l: int, q: int)
    requires 0 <= i < 16
    ensures 0 <= l < 4 && 0 <= q < 4 && i == 4 * l + q
  {
    l, q := i / 4, i % 4;
  }

  /** Every valid coordinate is visited exactly once. */
  lemma TraversalCoversBoard(a: Action)
    ensures forall i, j :: 0 <= i < j < 16 ==> Traversal(a)[i] != Traversal(a)[j]
    ensures forall c :: IsValid(c) ==> c in Traversal(a)
  {
    var t := Traversal(a);
    forall i, j | 0 <= i < j < 16
      ensures t[i] != t[j]
    {
      var l1, q1 := Split(i);
      var l2, q2 := Split(j);
      TraversalOrder(a, l1, q1);
      TraversalOrder(a, l2, q2);
      AlongRoundTrip(a, t[i], l1, q1);
      AlongRoundTrip(a, t[j], l2, q2);
    }
    forall c | IsValid(c)
      ensures c in t
    {
      AlongRoundTrip(a, c, 0, 0);
      TraversalOrder(a, LineOf(a, c), DistOf(a, c));
    }
  }
}
