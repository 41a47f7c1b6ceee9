/** The brick grid of a level: build_bricks and its closed form. */
module Bricks {
  import opened Config
  import opened Geometry

  datatype Color = Color(red: int, green: int, blue: int)

  /** The five brick colours, in the order the grid cycles through them. */
  const PALETTE: seq<Color> := [
    Color(255, 99, 71), Color(255, 215, 0), Color(135, 206, 235),
    Color(218, 112, 214), Color(144, 238, 144)
  ]

  /** A brick never changes once built: a rectangle and a colour. */
  datatype Brick = Brick(rect: Rect, color: Color)

  /** Width of one grid cell: (640 - 20) // 8. */
  const CELL_W: int := (SCREEN_W - 20) / BRICK_COLS

  /** Height of one grid row, brick plus gap. */
  const ROW_H: int := BRICK_H + BRICK_GAP

  /** range(3 + level) has 3 + level rows, or none when that is not positive. */
  function Rows(level: int): nat
  {
    if 3 + level > 0 then 3 + level else 0
  }

  /** The brick in row r and column c of the grid. */
  function BrickAt(r: int, c: int): Brick
  {
    Brick(Rect(10 + c * CELL_W, BRICK_TOP + r * ROW_H, CELL_W - BRICK_GAP, BRICK_H),
          PALETTE[(r + c) % 5])
  }

  /** The grid of a level as a sequence: row by row, left to right within a row. */
  function Layout(level: int): seq<Brick>
  {
    seq(Rows(level) * BRICK_COLS, i requires 0 <= i < Rows(level) * BRICK_COLS =>
      BrickAt(i / BRICK_COLS, i % BRICK_COLS))
  }

  /** build_bricks: the two nested loops append the grid row by row. */
  method BuildBricks(level: int) returns (bricks: seq<Brick>)
    ensures bricks == Layout(level)
  {
    bricks := [];
    var rows := 3 + level;
    var r := 0;
    while r < rows
      invariant 0 <= r <= Rows(level)
      invariant |bricks| == r * BRICK_COLS
      invariant forall i :: 0 <= i < |bricks| ==> bricks[i] == BrickAt(i / BRICK_COLS, i % BRICK_COLS)
    {
      var c := 0;
      while c < BRICK_COLS
        invariant 0 <= c <= BRICK_COLS
        invariant |bricks| == r * BRICK_COLS + c
        invariant forall i :: 0 <= i < |bricks| ==> bricks[i] == BrickAt(i / BRICK_COLS, i % BRICK_COLS)
      {
        var x := 10 + c * CELL_W;
        var y := BRICK_TOP + r * ROW_H;
        assert (r * BRICK_COLS + c) / BRICK_COLS == r && (r * BRICK_COLS + c) % BRICK_COLS == c;
        bricks := bricks + [Brick(Rect(x, y, CELL_W - BRICK_GAP, BRICK_H), PALETTE[(r + c) % 5])];
        c := c + 1;
      }
      r := r + 1;
    }
  }

  /** The brick at index r * 8 + c, written out with the grid's numbers. */
  lemma LayoutAt(level: int, r: int, c: int)
    requires 0 <= r < Rows(level) && 0 <= c < BRICK_COLS
    ensures |Layout(level)| == Rows(level) * 8
    ensures r * 8 + c < |Layout(level)|
    ensures Layout(level)[r * 8 + c] == Brick(Rect(10 + 77 * c, 60 + 26 * r, 73, 22), PALETTE[(r + c) % 5])
  {
    assert (r * 8 + c) / 8 == r && (r * 8 + c) % 8 == c;
  }

  /** Row and column of index i are recovered by division by the column count. */
  lemma Position(i: int)
    requires 0 <= i
    ensures i == (i / 8) * 8 + i % 8 && 0 <= i % 8 < 8 && 0 <= i / 8
  {
  }

  /** Two distinct bricks of a grid never overlap. */
  lemma LayoutDisjoint(level: int, i: int, j: int)
    requires 0 <= i < |Layout(level)| && 0 <= j < |Layout(level)| && i != j
    ensures !Overlap(Layout(level)[i].rect, Layout(level)[j].rect)
  {
    var a, b := Layout(level)[i].rect, Layout(level)[j].rect;
    Position(i);
    Position(j);
    var ri, ci, rj, cj := i / 8, i % 8, j / 8, j % 8;
    assert a == Rect(10 + 77 * ci, 60 + 26 * ri, 73, 22);
    assert b == Rect(10 + 77 * cj, 60 + 26 * rj, 73, 22);
    if ri < rj {
      assert a.Bottom() <= b.top;
    } else if rj < ri {
      assert b.Bottom() <= a.top;
    } else if ci < cj {
      assert a.Right() <= b.left;
    } else {
      assert ci > cj;
      assert b.Right() <= a.left;
    }
  }

  /** Every brick lies within x in [10, 622] and within the rows of its level, below BRICK_TOP. */
  lemma LayoutInside(level: int, i: int)
    requires 0 <= i < |Layout(level)|
    ensures var rect := Layout(level)[i].rect;
      && 10 <= rect.left && rect.Right() <= 622 && rect.Right() <= SCREEN_W
      && rect.w == 73 && rect.h == 22
      && BRICK_TOP <= rect.top && rect.Bottom() <= BRICK_TOP + Rows(level) * ROW_H - BRICK_GAP
  {
    Position(i);
    var r, c := i / 8, i % 8;
    assert r < Rows(level);
    assert Layout(level)[i].rect == Rect(10 + 77 * c, 60 + 26 * r, 73, 22);
  }
}
