/** The board of the game: a grid of `height` rows (row 0 at the top) and
    `width` columns, each cell empty or holding a player's name. */
module Board {
  import opened Optional

  /** A cell: `undefined` in the source, or the name of the player whose piece is there. */
  datatype Cell = Empty | Mark(name: string)

  type Grid = seq<seq<Cell>>

  /** The board has `h` rows of `w` cells each. */
  ghost predicate Shape(b: Grid, h: nat, w: nat)
  {
    |b| == h && forall y :: 0 <= y < h ==> |b[y]| == w
  }

  /** The board `makeBoard` builds: `h` rows of `w` empty cells. */
  function EmptyBoard(h: nat, w: nat): (b: Grid)
    ensures Shape(b, h, w)
    ensures forall y, x :: 0 <= y < h && 0 <= x < w ==> b[y][x] == Empty
  {
    seq(h, _ => seq(w, _ => Empty))
  }

  /** The tie test: every cell of every row holds a piece. */
  predicate EveryCellFilled(b: Grid)
  {
    forall y :: 0 <= y < |b| ==> forall x :: 0 <= x < |b[y]| ==> b[y][x] != Empty
  }

  /** Gravity: in every column, a filled cell has only filled cells below it,
      so the pieces of a column form one block resting on the bottom row. */
  ghost predicate Settled(b: Grid, h: nat, w: nat)
    requires Shape(b, h, w)
  {
    forall y1, y2, x :: 0 <= y1 <= y2 < h && 0 <= x < w && b[y1][x] != Empty ==> b[y2][x] != Empty
  }

  /** The scan of `findSpotForCol` from row `y` upwards: the first empty cell of
      column `x` among rows `y, y - 1, ..., 0`, or `None`. */
  function LowestEmptyFrom(b: Grid, h: nat, w: nat, x: nat, y: int): (r: Option<nat>)
    requires Shape(b, h, w) && x < w && -1 <= y < h
    ensures r.Some? ==> r.value <= y && b[r.value][x] == Empty
    ensures r.Some? ==> forall y' :: r.value < y' <= y ==> b[y'][x] != Empty
    ensures r.None? <==> forall y' :: 0 <= y' <= y ==> b[y'][x] != Empty
    decreases y + 1
  {
    if y < 0 then None
    else if b[y][x] == Empty then Some(y)
    else LowestEmptyFrom(b, h, w, x, y - 1)
  }

  /** The row a piece dropped into column `x` lands in, or `None` when the column is full. */
  function LowestEmptyRow(b: Grid, h: nat, w: nat, x: nat): (r: Option<nat>)
    requires Shape(b, h, w) && x < w
    ensures r.Some? ==> r.value < h && b[r.value][x] == Empty
    ensures r.Some? ==> forall y :: r.value < y < h ==> b[y][x] != Empty
    ensures r.None? <==> forall y :: 0 <= y < h ==> b[y][x] != Empty
  {
    LowestEmptyFrom(b, h, w, x, h - 1)
  }

  /** `board[y][x] = c`: the board with one cell replaced. */
  function Place(b: Grid, h: nat, w: nat, y: nat, x: nat, c: Cell): (r: Grid)
    requires Shape(b, h, w) && y < h && x < w
    ensures Shape(r, h, w)
    ensures r[y][x] == c
    ensures forall y', x' :: 0 <= y' < h && 0 <= x' < w && (y', x') != (y, x) ==> r[y'][x'] == b[y'][x']
  {
    b[y := b[y][x := c]]
  }

  /** The empty board satisfies gravity. */
  lemma EmptyBoardSettled(h: nat, w: nat)
    ensures Settled(EmptyBoard(h, w), h, w)
  {
  }

  /** A piece placed in the lowest empty row of a settled column keeps the board settled. */
  lemma DropKeepsSettled(b: Grid, h: nat, w: nat, x: nat, c: Cell)
    requires Shape(b, h, w) && Settled(b, h, w) && x < w
    requires LowestEmptyRow(b, h, w, x).Some?
    ensures Settled(Place(b, h, w, LowestEmptyRow(b, h, w, x).value, x, c), h, w)
  {
  }

  /** On a settled board it is enough to look at the top row to detect a full board. */
  lemma FullIffTopRowFilled(b: Grid, h: nat, w: nat)
    requires Shape(b, h, w) && Settled(b, h, w) && h > 0
    ensures EveryCellFilled(b) <==> forall x :: 0 <= x < w ==> b[0][x] != Empty
  {
    if forall x :: 0 <= x < w ==> b[0][x] != Empty {
      forall y, x | 0 <= y < h && 0 <= x < w ensures b[y][x] != Empty {
        assert b[0][x] != Empty;
      }
    }
  }
}
