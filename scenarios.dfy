/** The unit tests of game.rs (lines 246-361), stated as lemmas about the
    model, plus one extra example (CornerRight) that is not among those
    tests. A board built by the tests from `Board::empty()` and `get_mut`
    writes is written here as Empty() with sequence updates. Each move is
    established through MoveLines.MoveIsSlide: the expected board is shown to
    be the line-by-line slide of the start board. */
module Scenarios {
  import opened Coords
  import opened Boards
  import opened Slide
  import opened Moves
  import opened MoveLines

  /** The four cells of line l, read from the destination edge of a. */
  lemma LineIs(s: Board, a: Action, l: int, w: int, x: int, y: int, z: int)
    requires 0 <= l < 4
    requires s[Cell(a, l, 0)] == w && s[Cell(a, l, 1)] == x && s[Cell(a, l, 2)] == y && s[Cell(a, l, 3)] == z
    ensures LineView(s, a, l) == [w, x, y, z]
  {
  }

  // ---------------------------------------------------------------------------
  // test_Board_get_empty

  /** A strictly increasing sequence is determined by its elements. */
  lemma {:induction false} IncreasingUnique(r: seq<nat>, s: seq<nat>)
    requires forall i, j :: 0 <= i < j < |r| ==> r[i] < r[j]
    requires forall i, j :: 0 <= i < j < |s| ==> s[i] < s[j]
    requires forall x :: x in r <==> x in s
    ensures r == s
    decreases |r|
  {
    if r != [] {
      assert r[0] in s;
    }
    if s != [] {
      assert s[0] in r;
    }
    if r != [] {
      assert r[0] == s[0];
      forall x
        ensures x in r[1..] <==> x in s[1..]
      {
        if x in r[1..] {
          var i :| 0 <= i < |r| - 1 && r[1..][i] == x;
          assert r[0] < r[i + 1] && x in s;
          var j :| 0 <= j < |s| && s[j] == x;
          assert j != 0 && s[1..][j - 1] == x;
        }
        if x in s[1..] {
          var j :| 0 <= j < |s| - 1 && s[1..][j] == x;
          assert s[0] < s[j + 1] && x in r;
          var i :| 0 <= i < |r| && r[i] == x;
          assert i != 0 && r[1..][i - 1] == x;
        }
      }
      IncreasingUnique(r[1..], s[1..]);
      assert r == [r[0]] + r[1..] && s == [s[0]] + s[1..];
    }
  }

  /** Two tiles at indices 2 and 5 leave the fourteen other indices, in order. */
  lemma GetEmptyExample()
    ensures GetEmpty(Empty()[2 := 16][5 := 16]) == [0, 1, 3, 4, 6, 7, 8, 9, 10, 11, 12, 13, 14, 15]
  {
    var b := Empty()[2 := 16][5 := 16];
    var e: seq<nat> := [0, 1, 3, 4, 6, 7, 8, 9, 10, 11, 12, 13, 14, 15];
    forall x: nat
      ensures x in GetEmpty(b) <==> x in e
    {
      if x < 16 && x != 2 && x != 5 {
        assert x == e[if x < 2 then x else if x < 5 then x - 1 else x - 2];
      }
    }
    IncreasingUnique(GetEmpty(b), e);
  }

  // ---------------------------------------------------------------------------
  // test_first_free
  // The board holds tiles 2 at indices 2 and 5, and in the last case also at 6.

  /** A tile at (2,0) moved Left reaches the corner (0,0). */
  lemma FirstFreeLeftTop()
    ensures FirstFree(Empty()[2 := 2][5 := 2], Cord(2, 0), Left) == Cord(0, 0)
  {
    var b := Empty()[2 := 2][5 := 2];
    assert b[0] == 0;
    assert ScanLine(b, Left, 0, 0, 2) == 0;
  }

  /** A tile at (1,1) moved Left reaches (0,1). */
  lemma FirstFreeLeftSecond()
    ensures FirstFree(Empty()[2 := 2][5 := 2], Cord(1, 1), Left) == Cord(0, 1)
  {
    var b := Empty()[2 := 2][5 := 2];
    assert ScanLine(b, Left, 1, 0, 1) == 0;
  }

  /** A tile already on the top edge stays where it is when moved Up. */
  lemma FirstFreeUpEdge()
    ensures FirstFree(Empty()[2 := 2][5 := 2], Cord(2, 0), Up) == Cord(2, 0)
  {
  }

  /** A tile at (1,1) moved Down reaches the bottom cell (1,3). */
  lemma FirstFreeDown()
    ensures FirstFree(Empty()[2 := 2][5 := 2], Cord(1, 1), Down) == Cord(1, 3)
  {
    var b := Empty()[2 := 2][5 := 2];
    assert ScanLine(b, Down, 2, 0, 2) == 0;
  }

  /** A tile at (2,1) below an occupied (2,0) stays where it is when moved Up. */
  lemma FirstFreeUpBlocked()
    ensures FirstFree(Empty()[2 := 2][5 := 2][6 := 2], Cord(2, 1), Up) == Cord(2, 1)
  {
    var b := Empty()[2 := 2][5 := 2][6 := 2];
    assert ScanLine(b, Up, 2, 1, 1) == 1;
    assert ScanLine(b, Up, 2, 0, 1) == 1;
  }

  /** The legal actions, given the board each move produces. */
  lemma ActionsOf(b: Board, up: Board, down: Board, left: Board, right: Board, r: seq<Action>)
    requires SlidTo(b, Up, up) && SlidTo(b, Down, down)
    requires SlidTo(b, Left, left) && SlidTo(b, Right, right)
    requires r == Keep(up != b, down != b, left != b, right != b)
    ensures Actions(b) == r
  {
    MoveIsSlide(b, Up, up);
    MoveIsSlide(b, Down, down);
    MoveIsSlide(b, Left, left);
    MoveIsSlide(b, Right, right);
  }

  /** A move whose slide changes cell i changes the board. */
  lemma MovesAway(b: Board, a: Action, r: Board, i: int)
    requires 0 <= i < 16 && r[i] != b[i]
    requires SlidTo(b, a, r)
    ensures Moved(b, a) == r && Moved(b, a) != b
  {
    MoveIsSlide(b, a, r);
  }

  // ---------------------------------------------------------------------------
  // test_Board_get_actions
  // Column 1 holds 2, 4, 8, 16 from the top; then column 0 gets 3, 5, 9, 17.

  lemma ColumnUpLines(b: Board)
    requires b == Empty()[1 := 2][5 := 4][9 := 8][13 := 16]
    ensures SlidTo(b, Up, b)
  {
    forall l | 0 <= l < 4
      ensures LineView(b, Up, l) == SlideLine(LineView(b, Up, l))
    {
      if l == 1 {
        LineIs(b, Up, 1, 2, 4, 8, 16);
        assert SlideLine([2, 4, 8, 16]) == [2, 4, 8, 16];
      } else {
        LineIs(b, Up, l, 0, 0, 0, 0);
        assert NonZero([0, 0, 0, 0]) == [];
      }
    }
  }

  /** The full column does not move Up. */
  lemma ColumnUp()
    ensures Moved(Empty()[1 := 2][5 := 4][9 := 8][13 := 16], Up) == Empty()[1 := 2][5 := 4][9 := 8][13 := 16]
  {
    var b := Empty()[1 := 2][5 := 4][9 := 8][13 := 16];
    ColumnUpLines(b);
    MoveIsSlide(b, Up, b);
  }

  lemma ColumnDownLines(b: Board)
    requires b == Empty()[1 := 2][5 := 4][9 := 8][13 := 16]
    ensures SlidTo(b, Down, b)
  {
    forall l | 0 <= l < 4
      ensures LineView(b, Down, l) == SlideLine(LineView(b, Down, l))
    {
      if l == 2 {
        LineIs(b, Down, 2, 16, 8, 4, 2);
        assert SlideLine([16, 8, 4, 2]) == [16, 8, 4, 2];
      } else {
        LineIs(b, Down, l, 0, 0, 0, 0);
        assert NonZero([0, 0, 0, 0]) == [];
      }
    }
  }

  /** The full column does not move Down. */
  lemma ColumnDown()
    ensures Moved(Empty()[1 := 2][5 := 4][9 := 8][13 := 16], Down) == Empty()[1 := 2][5 := 4][9 := 8][13 := 16]
  {
    var b := Empty()[1 := 2][5 := 4][9 := 8][13 := 16];
    ColumnDownLines(b);
    MoveIsSlide(b, Down, b);
  }

  lemma ColumnLeftLines(b: Board, r: Board)
    requires b == Empty()[1 := 2][5 := 4][9 := 8][13 := 16]
    requires r == Empty()[0 := 2][4 := 4][8 := 8][12 := 16]
    ensures SlidTo(b, Left, r)
  {
    forall l | 0 <= l < 4
      ensures LineView(r, Left, l) == SlideLine(LineView(b, Left, l))
    {
      if l == 0 {
        LineIs(b, Left, 0, 0, 2, 0, 0);
        LineIs(r, Left, 0, 2, 0, 0, 0);
        assert SlideLine([0, 2, 0, 0]) == [2, 0, 0, 0];
      } else if l == 1 {
        LineIs(b, Left, 1, 0, 4, 0, 0);
        LineIs(r, Left, 1, 4, 0, 0, 0);
        assert SlideLine([0, 4, 0, 0]) == [4, 0, 0, 0];
      } else if l == 2 {
        LineIs(b, Left, 2, 0, 8, 0, 0);
        LineIs(r, Left, 2, 8, 0, 0, 0);
        assert SlideLine([0, 8, 0, 0]) == [8, 0, 0, 0];
      } else if l == 3 {
        LineIs(b, Left, 3, 0, 16, 0, 0);
        LineIs(r, Left, 3, 16, 0, 0, 0);
        assert SlideLine([0, 16, 0, 0]) == [16, 0, 0, 0];
      }
    }
  }

  /** Moved Left, the column reaches the left edge. */
  lemma ColumnLeft()
    ensures Moved(Empty()[1 := 2][5 := 4][9 := 8][13 := 16], Left) == Empty()[0 := 2][4 := 4][8 := 8][12 := 16]
    ensures Moved(Empty()[1 := 2][5 := 4][9 := 8][13 := 16], Left) != Empty()[1 := 2][5 := 4][9 := 8][13 := 16]
  {
    var b := Empty()[1 := 2][5 := 4][9 := 8][13 := 16];
    var r := Empty()[0 := 2][4 := 4][8 := 8][12 := 16];
    ColumnLeftLines(b, r);
    MovesAway(b, Left, r, 0);
  }

  lemma ColumnRightLines(b: Board, r: Board)
    requires b == Empty()[1 := 2][5 := 4][9 := 8][13 := 16]
    requires r == Empty()[3 := 2][7 := 4][11 := 8][15 := 16]
    ensures SlidTo(b, Right, r)
  {
    forall l | 0 <= l < 4
      ensures LineView(r, Right, l) == SlideLine(LineView(b, Right, l))
    {
      if l == 0 {
        LineIs(b, Right, 0, 0, 0, 16, 0);
        LineIs(r, Right, 0, 16, 0, 0, 0);
        assert SlideLine([0, 0, 16, 0]) == [16, 0, 0, 0];
      } else if l == 1 {
        LineIs(b, Right, 1, 0, 0, 8, 0);
        LineIs(r, Right, 1, 8, 0, 0, 0);
        assert SlideLine([0, 0, 8, 0]) == [8, 0, 0, 0];
      } else if l == 2 {
        LineIs(b, Right, 2, 0, 0, 4, 0);
        LineIs(r, Right, 2, 4, 0, 0, 0);
        assert SlideLine([0, 0, 4, 0]) == [4, 0, 0, 0];
      } else if l == 3 {
        LineIs(b, Right, 3, 0, 0, 2, 0);
        LineIs(r, Right, 3, 2, 0, 0, 0);
        assert SlideLine([0, 0, 2, 0]) == [2, 0, 0, 0];
      }
    }
  }

  /** Moved Right, the column reaches the right edge. */
  lemma ColumnRight()
    ensures Moved(Empty()[1 := 2][5 := 4][9 := 8][13 := 16], Right) == Empty()[3 := 2][7 := 4][11 := 8][15 := 16]
    ensures Moved(Empty()[1 := 2][5 := 4][9 := 8][13 := 16], Right) != Empty()[1 := 2][5 := 4][9 := 8][13 := 16]
  {
    var b := Empty()[1 := 2][5 := 4][9 := 8][13 := 16];
    var r := Empty()[3 := 2][7 := 4][11 := 8][15 := 16];
    ColumnRightLines(b, r);
    MovesAway(b, Right, r, 3);
  }

  /** A single full column can only move sideways: the legal actions are
      Left and Right, in that order. */
  lemma ColumnActions()
    ensures Actions(Empty()[1 := 2][5 := 4][9 := 8][13 := 16]) == [Left, Right]
  {
    var b := Empty()[1 := 2][5 := 4][9 := 8][13 := 16];
    var left := Empty()[0 := 2][4 := 4][8 := 8][12 := 16];
    var right := Empty()[3 := 2][7 := 4][11 := 8][15 := 16];
    ColumnUpLines(b);
    ColumnDownLines(b);
    ColumnLeftLines(b, left);
    ColumnRightLines(b, right);
    assert left[0] != b[0] && right[3] != b[3];
    ActionsOf(b, b, b, left, right, [Left, Right]);
  }

  lemma TwoColumnsUpLines(b: Board)
    requires b == Empty()[1 := 2][5 := 4][9 := 8][13 := 16][0 := 3][4 := 5][8 := 9][12 := 17]
    ensures SlidTo(b, Up, b)
  {
    forall l | 0 <= l < 4
      ensures LineView(b, Up, l) == SlideLine(LineView(b, Up, l))
    {
      if l == 0 {
        LineIs(b, Up, 0, 3, 5, 9, 17);
        assert SlideLine([3, 5, 9, 17]) == [3, 5, 9, 17];
      } else if l == 1 {
        LineIs(b, Up, 1, 2, 4, 8, 16);
        assert SlideLine([2, 4, 8, 16]) == [2, 4, 8, 16];
      } else {
        LineIs(b, Up, l, 0, 0, 0, 0);
        assert NonZero([0, 0, 0, 0]) == [];
      }
    }
  }

  /** The two full columns do not move Up. */
  lemma TwoColumnsUp()
    ensures Moved(Empty()[1 := 2][5 := 4][9 := 8][13 := 16][0 := 3][4 := 5][8 := 9][12 := 17], Up) == Empty()[1 := 2][5 := 4][9 := 8][13 := 16][0 := 3][4 := 5][8 := 9][12 := 17]
  {
    var b := Empty()[1 := 2][5 := 4][9 := 8][13 := 16][0 := 3][4 := 5][8 := 9][12 := 17];
    TwoColumnsUpLines(b);
    MoveIsSlide(b, Up, b);
  }

  lemma TwoColumnsDownLines(b: Board)
    requires b == Empty()[1 := 2][5 := 4][9 := 8][13 := 16][0 := 3][4 := 5][8 := 9][12 := 17]
    ensures SlidTo(b, Down, b)
  {
    forall l | 0 <= l < 4
      ensures LineView(b, Down, l) == SlideLine(LineView(b, Down, l))
    {
      if l == 2 {
        LineIs(b, Down, 2, 16, 8, 4, 2);
        assert SlideLine([16, 8, 4, 2]) == [16, 8, 4, 2];
      } else if l == 3 {
        LineIs(b, Down, 3, 17, 9, 5, 3);
        assert SlideLine([17, 9, 5, 3]) == [17, 9, 5, 3];
      } else {
        LineIs(b, Down, l, 0, 0, 0, 0);
        assert NonZero([0, 0, 0, 0]) == [];
      }
    }
  }

  /** The two full columns do not move Down. */
  lemma TwoColumnsDown()
    ensures Moved(Empty()[1 := 2][5 := 4][9 := 8][13 := 16][0 := 3][4 := 5][8 := 9][12 := 17], Down) == Empty()[1 := 2][5 := 4][9 := 8][13 := 16][0 := 3][4 := 5][8 := 9][12 := 17]
  {
    var b := Empty()[1 := 2][5 := 4][9 := 8][13 := 16][0 := 3][4 := 5][8 := 9][12 := 17];
    TwoColumnsDownLines(b);
    MoveIsSlide(b, Down, b);
  }

  lemma TwoColumnsLeftLines(b: Board)
    requires b == Empty()[1 := 2][5 := 4][9 := 8][13 := 16][0 := 3][4 := 5][8 := 9][12 := 17]
    ensures SlidTo(b, Left, b)
  {
    forall l | 0 <= l < 4
      ensures LineView(b, Left, l) == SlideLine(LineView(b, Left, l))
    {
      if l == 0 {
        LineIs(b, Left, 0, 3, 2, 0, 0);
        assert SlideLine([3, 2, 0, 0]) == [3, 2, 0, 0];
      } else if l == 1 {
        LineIs(b, Left, 1, 5, 4, 0, 0);
        assert SlideLine([5, 4, 0, 0]) == [5, 4, 0, 0];
      } else if l == 2 {
        LineIs(b, Left, 2, 9, 8, 0, 0);
        assert SlideLine([9, 8, 0, 0]) == [9, 8, 0, 0];
      } else if l == 3 {
        LineIs(b, Left, 3, 17, 16, 0, 0);
        assert SlideLine([17, 16, 0, 0]) == [17, 16, 0, 0];
      }
    }
  }

  /** The two columns already lie against the left edge and no two neighbours are equal. */
  lemma TwoColumnsLeft()
    ensures Moved(Empty()[1 := 2][5 := 4][9 := 8][13 := 16][0 := 3][4 := 5][8 := 9][12 := 17], Left) == Empty()[1 := 2][5 := 4][9 := 8][13 := 16][0 := 3][4 := 5][8 := 9][12 := 17]
  {
    var b := Empty()[1 := 2][5 := 4][9 := 8][13 := 16][0 := 3][4 := 5][8 := 9][12 := 17];
    TwoColumnsLeftLines(b);
    MoveIsSlide(b, Left, b);
  }

  lemma TwoColumnsRightLines(b: Board, r: Board)
    requires b == Empty()[1 := 2][5 := 4][9 := 8][13 := 16][0 := 3][4 := 5][8 := 9][12 := 17]
    requires r == Empty()[3 := 2][7 := 4][11 := 8][15 := 16][2 := 3][6 := 5][10 := 9][14 := 17]
    ensures SlidTo(b, Right, r)
  {
    forall l | 0 <= l < 4
      ensures LineView(r, Right, l) == SlideLine(LineView(b, Right, l))
    {
      if l == 0 {
        LineIs(b, Right, 0, 0, 0, 16, 17);
        LineIs(r, Right, 0, 16, 17, 0, 0);
        assert SlideLine([0, 0, 16, 17]) == [16, 17, 0, 0];
      } else if l == 1 {
        LineIs(b, Right, 1, 0, 0, 8, 9);
        LineIs(r, Right, 1, 8, 9, 0, 0);
        assert SlideLine([0, 0, 8, 9]) == [8, 9, 0, 0];
      } else if l == 2 {
        LineIs(b, Right, 2, 0, 0, 4, 5);
        LineIs(r, Right, 2, 4, 5, 0, 0);
        assert SlideLine([0, 0, 4, 5]) == [4, 5, 0, 0];
      } else if l == 3 {
        LineIs(b, Right, 3, 0, 0, 2, 3);
        LineIs(r, Right, 3, 2, 3, 0, 0);
        assert SlideLine([0, 0, 2, 3]) == [2, 3, 0, 0];
      }
    }
  }

  /** Moved Right, both columns reach the right edge. */
  lemma TwoColumnsRight()
    ensures Moved(Empty()[1 := 2][5 := 4][9 := 8][13 := 16][0 := 3][4 := 5][8 := 9][12 := 17], Right) == Empty()[3 := 2][7 := 4][11 := 8][15 := 16][2 := 3][6 := 5][10 := 9][14 := 17]
    ensures Moved(Empty()[1 := 2][5 := 4][9 := 8][13 := 16][0 := 3][4 := 5][8 := 9][12 := 17], Right) != Empty()[1 := 2][5 := 4][9 := 8][13 := 16][0 := 3][4 := 5][8 := 9][12 := 17]
  {
    var b := Empty()[1 := 2][5 := 4][9 := 8][13 := 16][0 := 3][4 := 5][8 := 9][12 := 17];
    var r := Empty()[3 := 2][7 := 4][11 := 8][15 := 16][2 := 3][6 := 5][10 := 9][14 := 17];
    TwoColumnsRightLines(b, r);
    MovesAway(b, Right, r, 3);
  }

  /** With two different full columns on the left edge, only Right moves. */
  lemma TwoColumnsActions()
    ensures Actions(Empty()[1 := 2][5 := 4][9 := 8][13 := 16][0 := 3][4 := 5][8 := 9][12 := 17]) == [Right]
  {
    var b := Empty()[1 := 2][5 := 4][9 := 8][13 := 16][0 := 3][4 := 5][8 := 9][12 := 17];
    var right := Empty()[3 := 2][7 := 4][11 := 8][15 := 16][2 := 3][6 := 5][10 := 9][14 := 17];
    TwoColumnsUpLines(b);
    TwoColumnsDownLines(b);
    TwoColumnsLeftLines(b);
    TwoColumnsRightLines(b, right);
    assert right[3] != b[3];
    ActionsOf(b, b, b, b, right, [Right]);
  }

  // ---------------------------------------------------------------------------
  // test_simple_move

  lemma SimpleMoveLeftLines(b: Board, r: Board)
    requires b == Empty()[2 := 4][5 := 2] && r == Empty()[0 := 4][4 := 2]
    ensures SlidTo(b, Left, r)
  {
    forall l | 0 <= l < 4
      ensures LineView(r, Left, l) == SlideLine(LineView(b, Left, l))
    {
      if l == 0 {
        LineIs(b, Left, 0, 0, 0, 4, 0);
        LineIs(r, Left, 0, 4, 0, 0, 0);
        assert SlideLine([0, 0, 4, 0]) == [4, 0, 0, 0];
      } else if l == 1 {
        LineIs(b, Left, 1, 0, 2, 0, 0);
        LineIs(r, Left, 1, 2, 0, 0, 0);
        assert SlideLine([0, 2, 0, 0]) == [2, 0, 0, 0];
      } else {
        LineIs(b, Left, l, 0, 0, 0, 0);
        LineIs(r, Left, l, 0, 0, 0, 0);
        assert NonZero([0, 0, 0, 0]) == [];
      }
    }
  }

  /** A 4 at index 2 and a 2 at index 5 slide Left to the first column. */
  lemma SimpleMoveLeft()
    ensures Moved(Empty()[2 := 4][5 := 2], Left) == Empty()[0 := 4][4 := 2]
  {
    var b, r := Empty()[2 := 4][5 := 2], Empty()[0 := 4][4 := 2];
    SimpleMoveLeftLines(b, r);
    MoveIsSlide(b, Left, r);
  }

  lemma SimpleMoveDownLines(b: Board, r: Board)
    requires b == Empty()[2 := 4][5 := 2] && r == Empty()[13 := 2][14 := 4]
    ensures SlidTo(b, Down, r)
  {
    forall l | 0 <= l < 4
      ensures LineView(r, Down, l) == SlideLine(LineView(b, Down, l))
    {
      if l == 1 {
        LineIs(b, Down, 1, 0, 0, 0, 4);
        LineIs(r, Down, 1, 4, 0, 0, 0);
        assert SlideLine([0, 0, 0, 4]) == [4, 0, 0, 0];
      } else if l == 2 {
        LineIs(b, Down, 2, 0, 0, 2, 0);
        LineIs(r, Down, 2, 2, 0, 0, 0);
        assert SlideLine([0, 0, 2, 0]) == [2, 0, 0, 0];
      } else {
        LineIs(b, Down, l, 0, 0, 0, 0);
        LineIs(r, Down, l, 0, 0, 0, 0);
        assert NonZero([0, 0, 0, 0]) == [];
      }
    }
  }

  /** The same board moved Down: both tiles reach the bottom row. */
  lemma SimpleMoveDown()
    ensures Moved(Empty()[2 := 4][5 := 2], Down) == Empty()[13 := 2][14 := 4]
  {
    var b, r := Empty()[2 := 4][5 := 2], Empty()[13 := 2][14 := 4];
    SimpleMoveDownLines(b, r);
    MoveIsSlide(b, Down, r);
  }

  // ---------------------------------------------------------------------------
  // A single spawned tile moved Right.

  lemma CornerRightLines(b: Board, r: Board)
    requires b == Empty()[0 := 2] && r == Empty()[3 := 2]
    ensures SlidTo(b, Right, r)
  {
    forall l | 0 <= l < 4
      ensures LineView(r, Right, l) == SlideLine(LineView(b, Right, l))
    {
      if l == 3 {
        LineIs(b, Right, 3, 0, 0, 0, 2);
        LineIs(r, Right, 3, 2, 0, 0, 0);
        assert SlideLine([0, 0, 0, 2]) == [2, 0, 0, 0];
      } else {
        LineIs(b, Right, l, 0, 0, 0, 0);
        LineIs(r, Right, l, 0, 0, 0, 0);
        assert NonZero([0, 0, 0, 0]) == [];
      }
    }
  }

  /** A 2 written at index 0 of the empty board (as `add_space` does) and
      moved Right lands at index 3, the right end of row 0. */
  lemma CornerRight()
    ensures Moved(Empty()[0 := 2], Right) == Empty()[3 := 2]
  {
    var b, r := Empty()[0 := 2], Empty()[3 := 2];
    CornerRightLines(b, r);
    MoveIsSlide(b, Right, r);
  }

  // ---------------------------------------------------------------------------
  // test_simple_merge

  lemma SimpleMergeLines(b: Board, r: Board)
    requires b == Empty()[5 := 2][9 := 2] && r == Empty()[1 := 4]
    ensures SlidTo(b, Up, r)
  {
    forall l | 0 <= l < 4
      ensures LineView(r, Up, l) == SlideLine(LineView(b, Up, l))
    {
      if l == 1 {
        LineIs(b, Up, 1, 0, 2, 2, 0);
        LineIs(r, Up, 1, 4, 0, 0, 0);
        assert SlideLine([0, 2, 2, 0]) == [4, 0, 0, 0];
      } else {
        LineIs(b, Up, l, 0, 0, 0, 0);
        LineIs(r, Up, l, 0, 0, 0, 0);
        assert NonZero([0, 0, 0, 0]) == [];
      }
    }
  }

  /** Two 2s at (1,1) and (1,2) moved Up merge into one 4 at (1,0). */
  lemma SimpleMerge()
    ensures Moved(Empty()[5 := 2][9 := 2], Up) == Empty()[1 := 4]
  {
    var b, r := Empty()[5 := 2][9 := 2], Empty()[1 := 4];
    SimpleMergeLines(b, r);
    MoveIsSlide(b, Up, r);
  }

  // ---------------------------------------------------------------------------
  // test_simple_merge_crash1

  lemma MergeAcrossGapLines(b: Board, r: Board)
    requires b == Empty()[15 := 2][12 := 2] && r == Empty()[12 := 4]
    ensures SlidTo(b, Left, r)
  {
    forall l | 0 <= l < 4
      ensures LineView(r, Left, l) == SlideLine(LineView(b, Left, l))
    {
      if l == 3 {
        LineIs(b, Left, 3, 2, 0, 0, 2);
        LineIs(r, Left, 3, 4, 0, 0, 0);
        assert SlideLine([2, 0, 0, 2]) == [4, 0, 0, 0];
      } else {
        LineIs(b, Left, l, 0, 0, 0, 0);
        LineIs(r, Left, l, 0, 0, 0, 0);
        assert NonZero([0, 0, 0, 0]) == [];
      }
    }
  }

  /** Two 2s at the ends of the bottom row, moved Left, merge across the gap. */
  lemma MergeAcrossGap()
    ensures Moved(Empty()[15 := 2][12 := 2], Left) == Empty()[12 := 4]
  {
    var b, r := Empty()[15 := 2][12 := 2], Empty()[12 := 4];
    MergeAcrossGapLines(b, r);
    MoveIsSlide(b, Left, r);
  }

  // ---------------------------------------------------------------------------
  // test_multi_merge

  lemma MultiMergeLines(b: Board, r: Board)
    requires b == Empty()[5 := 2][9 := 2][13 := 4] && r == Empty()[1 := 4][5 := 4]
    ensures SlidTo(b, Up, r)
  {
    forall l | 0 <= l < 4
      ensures LineView(r, Up, l) == SlideLine(LineView(b, Up, l))
    {
      if l == 1 {
        LineIs(b, Up, 1, 0, 2, 2, 4);
        LineIs(r, Up, 1, 4, 4, 0, 0);
        assert SlideLine([0, 2, 2, 4]) == [4, 4, 0, 0];
      } else {
        LineIs(b, Up, l, 0, 0, 0, 0);
        LineIs(r, Up, l, 0, 0, 0, 0);
        assert NonZero([0, 0, 0, 0]) == [];
      }
    }
  }

  /** Merge once: 2, 2, 4 moved Up gives 4, 4 and not 8; the 4 produced by
      the merge does not absorb the 4 behind it. */
  lemma MultiMerge()
    ensures Moved(Empty()[5 := 2][9 := 2][13 := 4], Up) == Empty()[1 := 4][5 := 4]
  {
    var b, r := Empty()[5 := 2][9 := 2][13 := 4], Empty()[1 := 4][5 := 4];
    MultiMergeLines(b, r);
    MoveIsSlide(b, Up, r);
  }
}
