/** The board value and its queries and spawns (game.rs, `impl Board` apart
    from `move` and `get_actions`, which live in module Moves). */
module Boards {
  import opened Coords

  /** Sixteen cells, row-major (index x + 4y); 0 marks an empty cell. */
  type Board = s: seq<int> | |s| == 16 witness seq(16, _ => 0)

  /** The value of the cell at c; an invalid coordinate is a fatal error. */
  function Get(b: Board, c: Cord): int
    requires IsValid(c)
  {
    b[Index(c)]
  }

  /** The indices below k whose cell is empty, in increasing order. */
  function EmptyBelow(b: Board, k: nat): (r: seq<nat>)
    requires k <= 16
    ensures |r| <= k
  {
    if k == 0 then [] else EmptyBelow(b, k - 1) + (if b[k - 1] == 0 then [k - 1] else [])
  }

  /** EmptyBelow lists exactly the empty cells below k, each once, in order. */
  lemma {:induction false} EmptyBelowExact(b: Board, k: nat)
    requires k <= 16
    ensures forall i :: 0 <= i < |EmptyBelow(b, k)| ==> EmptyBelow(b, k)[i] < k && b[EmptyBelow(b, k)[i]] == 0
    ensures forall i, j :: 0 <= i < j < |EmptyBelow(b, k)| ==> EmptyBelow(b, k)[i] < EmptyBelow(b, k)[j]
    ensures forall i :: 0 <= i < k && b[i] == 0 ==> i in EmptyBelow(b, k)
  {
    if k > 0 {
      var r, r' := EmptyBelow(b, k), EmptyBelow(b, k - 1);
      EmptyBelowExact(b, k - 1);
      assert r == r' + (if b[k - 1] == 0 then [k - 1] else []);
      assert forall i :: 0 <= i < |r'| ==> r[i] == r'[i];
      assert forall i :: 0 <= i < k - 1 && b[i] == 0 ==> i in r;
    }
  }

  /** The indices of the empty cells, in increasing order. */
  function GetEmpty(b: Board): (r: seq<nat>)
    ensures forall i :: 0 <= i < |r| ==> r[i] < 16 && b[r[i]] == 0
    ensures forall i, j :: 0 <= i < j < |r| ==> r[i] < r[j]
    ensures forall i: int :: i in r <==> 0 <= i < 16 && b[i] == 0
  {
    EmptyBelowExact(b, 16);
    EmptyBelow(b, 16)
  }

  /** An all-empty board has every index below k empty, in order. */
  lemma {:induction false} AllEmptyBelow(b: Board, k: nat)
    requires k <= 16
    requires forall i :: 0 <= i < k ==> b[i] == 0
    ensures |EmptyBelow(b, k)| == k
  {
    if k > 0 {
      AllEmptyBelow(b, k - 1);
    }
  }

  /** The board with no tiles. */
  function Empty(): (r: Board)
    ensures forall i :: 0 <= i < 16 ==> r[i] == 0
  {
    seq(16, _ => 0)
  }

  /** Every cell of the empty board is free. */
  lemma EmptyAllFree()
    ensures |GetEmpty(Empty())| == 16
  {
    AllEmptyBelow(Empty(), 16);
  }

  /** Counts the empty cells in one pass over the board. */
  method CountEmpty(b: Board) returns (n: int)
    ensures n == |GetEmpty(b)|
  {
    n := 0;
    for i := 0 to 16
      invariant n == |EmptyBelow(b, i)|
    {
      if b[i] == 0 {
        n := n + 1;
      }
    }
  }

  lemma EmptyBelowStep(b: Board, k: nat)
    requires 0 < k <= 16
    ensures |EmptyBelow(b, k)| == |EmptyBelow(b, k - 1)| + (if b[k - 1] == 0 then 1 else 0)
  {
  }

  /** Overwriting one cell changes the empty list only at that cell: filling an
      empty cell shortens it by one, clearing a tile lengthens it by one. */
  lemma {:induction false} OverwriteBelow(b: Board, index: nat, value: int, k: nat)
    requires index < 16 && k <= 16
    ensures |EmptyBelow(b[index := value], k)| ==
      |EmptyBelow(b, k)|
      - (if index < k && b[index] == 0 && value != 0 then 1 else 0)
      + (if index < k && b[index] != 0 && value == 0 then 1 else 0)
  {
    if k > 0 {
      var c := b[index := value];
      OverwriteBelow(b, index, value, k - 1);
      EmptyBelowStep(c, k);
      EmptyBelowStep(b, k);
      if k - 1 != index {
        assert c[k - 1] == b[k - 1];
      }
    }
  }

  /** Writes value into cell index (the probability part of the spawn tuple is
      ignored by the source and not modelled). */
  function AddSpace(b: Board, index: nat, value: int): (r: Board)
    requires index < 16
    ensures r[index] == value
    ensures forall i :: 0 <= i < 16 && i != index ==> r[i] == b[i]
    ensures b[index] == 0 && value != 0 ==> |GetEmpty(r)| == |GetEmpty(b)| - 1
  {
    OverwriteBelow(b, index, value, 16);
    b[index := value]
  }

  /** Spawns a tile: `pick` stands for the random choice among the empty cells
      and `four` for the random draw that yields 4 rather than 2. A full board
      has nothing to choose from, which the source treats as a fatal error. */
  function AddRandom(b: Board, pick: nat, four: bool): (r: Board)
    requires pick < |GetEmpty(b)|
    ensures var i := GetEmpty(b)[pick];
      b[i] == 0 && (r[i] == 2 || r[i] == 4) && forall j :: 0 <= j < 16 && j != i ==> r[j] == b[j]
    ensures |GetEmpty(r)| == |GetEmpty(b)| - 1
  {
    var value := if four then 4 else 2;
    var index := GetEmpty(b)[pick];
    OverwriteBelow(b, index, value, 16);
    b[index := value]
  }

  /** The opening position: two spawns on the empty board. */
  function New(pick1: nat, four1: bool, pick2: nat, four2: bool): (r: Board)
    requires pick1 < 16 && pick2 < 15
    ensures |GetEmpty(r)| == 14
  {
    var empty := Empty();
    EmptyAllFree();
    var first := AddRandom(empty, pick1, four1);
    AddRandom(first, pick2, four2)
  }

  /** The largest value in s, or 0 when no value is positive. */
  function MaxTile(s: seq<int>): (m: int)
    ensures m >= 0
    ensures forall i :: 0 <= i < |s| ==> s[i] <= m
    ensures m == 0 || m in s
  {
    if s == [] then 0
    else
      var m := MaxTile(s[..|s| - 1]);
      if s[|s| - 1] > m then s[|s| - 1] else m
  }

  /** Scans the board keeping the largest value seen, starting from 0. */
  method GetBestTile(b: Board) returns (max: int)
    ensures max == MaxTile(b)
  {
    max := 0;
    for i := 0 to 16
      invariant max == MaxTile(b[..i])
    {
      assert b[..i + 1][..i] == b[..i];
      if b[i] > max {
        max := b[i];
      }
    }
    assert b[..16] == b;
  }

  /** The per-game report. */
  datatype Summary = Summary(bestTile: int)

  function Summarize(b: Board): (r: Summary)
    ensures r.bestTile >= 0
    ensures forall i :: 0 <= i < 16 ==> b[i] <= r.bestTile
    ensures r.bestTile == 0 || r.bestTile in b
  {
    Summary(MaxTile(b))
  }
}
