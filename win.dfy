/** Win detection: four cells in a line, all holding the current player's name.

    The source's cell test reads `this.board[y, x] !== undefined`; JavaScript's
    comma operator makes that `this.board[x] !== undefined`, which holds exactly
    when `x` is a row index, `0 <= x < height`. `Rule` selects whether that extra
    conjunct is applied (`AsWritten`, what the game runs) or not (`Intended`, what
    the doc comment of `checkForWin` describes). */
module Win {
  import opened Board

  datatype Rule = AsWritten | Intended

  /** The four win templates of `checkForWin`, all starting at (y, x). */
  datatype Direction = Horiz | Vert | DiagDR | DiagDL

  /** The "check list" of four (y, x) cells for one template. */
  function Template(y: int, x: int, d: Direction): (cells: seq<(int, int)>)
    ensures |cells| == 4 && cells[0] == (y, x)
  {
    match d
    case Horiz => [(y, x), (y, x + 1), (y, x + 2), (y, x + 3)]
    case Vert => [(y, x), (y + 1, x), (y + 2, x), (y + 3, x)]
    case DiagDR => [(y, x), (y + 1, x + 1), (y + 2, x + 2), (y + 3, x + 3)]
    case DiagDL => [(y, x), (y + 1, x - 1), (y + 2, x - 2), (y + 3, x - 3)]
  }

  /** One cell test of `_win`: (y, x) is on the board and holds `name`;
      under `AsWritten`, also `x` is below the board's height. */
  predicate Matches(rule: Rule, b: Grid, h: nat, w: nat, name: string, y: int, x: int)
    requires Shape(b, h, w)
  {
    (rule == AsWritten ==> 0 <= x < h) &&
    0 <= y < h && 0 <= x < w && b[y][x] == Mark(name)
  }

  /** `_win(cells)`: every cell of the list passes the cell test. */
  predicate LineWins(rule: Rule, b: Grid, h: nat, w: nat, name: string, cells: seq<(int, int)>)
    requires Shape(b, h, w)
  {
    forall i :: 0 <= i < |cells| ==> Matches(rule, b, h, w, name, cells[i].0, cells[i].1)
  }

  predicate WinAt(rule: Rule, b: Grid, h: nat, w: nat, name: string, y: int, x: int, d: Direction)
    requires Shape(b, h, w)
  {
    LineWins(rule, b, h, w, name, Template(y, x, d))
  }

  /** The test made for one origin cell: one of the four templates wins. */
  predicate WinFrom(rule: Rule, b: Grid, h: nat, w: nat, name: string, y: int, x: int)
    requires Shape(b, h, w)
  {
    WinAt(rule, b, h, w, name, y, x, Horiz) || WinAt(rule, b, h, w, name, y, x, Vert) ||
    WinAt(rule, b, h, w, name, y, x, DiagDR) || WinAt(rule, b, h, w, name, y, x, DiagDL)
  }

  /** What `checkForWin` decides: some origin cell of the board starts a winning template. */
  ghost predicate Wins(rule: Rule, b: Grid, h: nat, w: nat, name: string)
    requires Shape(b, h, w)
  {
    exists y, x :: 0 <= y < h && 0 <= x < w && WinFrom(rule, b, h, w, name, y, x)
  }

  lemma OriginGivesWins(rule: Rule, b: Grid, h: nat, w: nat, name: string, y: int, x: int)
    requires Shape(b, h, w) && 0 <= y < h && 0 <= x < w && WinFrom(rule, b, h, w, name, y, x)
    ensures Wins(rule, b, h, w, name)
  {
  }

  lemma NoOriginNoWins(rule: Rule, b: Grid, h: nat, w: nat, name: string)
    requires Shape(b, h, w)
    requires forall y, x :: 0 <= y < h && 0 <= x < w ==> !WinFrom(rule, b, h, w, name, y, x)
    ensures !Wins(rule, b, h, w, name)
  {
  }

  /** A unit step in one of the eight compass directions. */
  predicate IsStep(dy: int, dx: int)
  {
    -1 <= dy <= 1 && -1 <= dx <= 1 && (dy != 0 || dx != 0)
  }

  /** Reference definition: four consecutive cells from (y, x) in direction (dy, dx)
      all pass the cell test. */
  ghost predicate Run(rule: Rule, b: Grid, h: nat, w: nat, name: string, y: int, x: int, dy: int, dx: int)
    requires Shape(b, h, w)
  {
    Matches(rule, b, h, w, name, y, x) &&
    Matches(rule, b, h, w, name, y + dy, x + dx) &&
    Matches(rule, b, h, w, name, y + 2 * dy, x + 2 * dx) &&
    Matches(rule, b, h, w, name, y + 3 * dy, x + 3 * dx)
  }

  ghost predicate SomeRun(rule: Rule, b: Grid, h: nat, w: nat, name: string)
    requires Shape(b, h, w)
  {
    exists y, x, dy, dx :: IsStep(dy, dx) && Run(rule, b, h, w, name, y, x, dy, dx)
  }

  /** The template that makes an origin cell win. */
  lemma WinningDirection(rule: Rule, b: Grid, h: nat, w: nat, name: string, y: int, x: int)
    returns (d: Direction)
    requires Shape(b, h, w) && WinFrom(rule, b, h, w, name, y, x)
    ensures WinAt(rule, b, h, w, name, y, x, d)
  {
    if WinAt(rule, b, h, w, name, y, x, Horiz) {
      d := Horiz;
    } else if WinAt(rule, b, h, w, name, y, x, Vert) {
      d := Vert;
    } else if WinAt(rule, b, h, w, name, y, x, DiagDR) {
      d := DiagDR;
    } else {
      d := DiagDL;
    }
  }

  /** A winning template is a run in the template's own direction. */
  lemma WinAtIsRun(rule: Rule, b: Grid, h: nat, w: nat, name: string, y: int, x: int, d: Direction)
    returns (dy: int, dx: int)
    requires Shape(b, h, w) && WinAt(rule, b, h, w, name, y, x, d)
    ensures IsStep(dy, dx) && Run(rule, b, h, w, name, y, x, dy, dx)
  {
    var t := Template(y, x, d);
    assert Matches(rule, b, h, w, name, t[1].0, t[1].1);
    assert Matches(rule, b, h, w, name, t[2].0, t[2].1);
    assert Matches(rule, b, h, w, name, t[3].0, t[3].1);
    match d
    case Horiz => dy, dx := 0, 1;
    case Vert => dy, dx := 1, 0;
    case DiagDR => dy, dx := 1, 1;
    case DiagDL => dy, dx := 1, -1;
  }

  /** A run in any of the eight directions is found by one of the four templates,
      started at whichever end of the run the template reads from. */
  lemma RunIsWinAt(rule: Rule, b: Grid, h: nat, w: nat, name: string, y: int, x: int, dy: int, dx: int)
    returns (oy: int, ox: int, d: Direction)
    requires Shape(b, h, w) && IsStep(dy, dx) && Run(rule, b, h, w, name, y, x, dy, dx)
    ensures 0 <= oy < h && 0 <= ox < w && WinAt(rule, b, h, w, name, oy, ox, d)
  {
    if dy == 0 {
      d := Horiz;
      oy, ox := y, if dx == 1 then x else x - 3;
    } else if dx == 0 {
      d := Vert;
      oy, ox := if dy == 1 then y else y - 3, x;
    } else if dy == dx {
      d := DiagDR;
      oy, ox := if dy == 1 then y else y - 3, if dy == 1 then x else x - 3;
    } else {
      d := DiagDL;
      oy, ox := if dy == 1 then y else y - 3, if dy == 1 then x else x + 3;
    }
    TemplateOfRun(rule, b, h, w, name, y, x, dy, dx, oy, ox, d);
  }

  /** The chosen template covers the run's four cells, in one order or the other. */
  lemma TemplateOfRun(rule: Rule, b: Grid, h: nat, w: nat, name: string, y: int, x: int, dy: int, dx: int,
                      oy: int, ox: int, d: Direction)
    requires Shape(b, h, w) && Run(rule, b, h, w, name, y, x, dy, dx)
    requires forall i :: 0 <= i < 4 ==>
               Template(oy, ox, d)[i] in [(y, x), (y + dy, x + dx), (y + 2 * dy, x + 2 * dx), (y + 3 * dy, x + 3 * dx)]
    ensures 0 <= oy < h && 0 <= ox < w && WinAt(rule, b, h, w, name, oy, ox, d)
  {
    var t := Template(oy, ox, d);
    forall i | 0 <= i < 4 ensures Matches(rule, b, h, w, name, t[i].0, t[i].1) {
      assert t[i] in [(y, x), (y + dy, x + dx), (y + 2 * dy, x + 2 * dx), (y + 3 * dy, x + 3 * dx)];
    }
    assert Matches(rule, b, h, w, name, t[0].0, t[0].1);
  }

  /** `checkForWin` detects exactly the boards holding a run of four in some
      direction: horizontal, vertical or either diagonal, read either way. */
  lemma WinsIffRun(rule: Rule, b: Grid, h: nat, w: nat, name: string)
    requires Shape(b, h, w)
    ensures Wins(rule, b, h, w, name) <==> SomeRun(rule, b, h, w, name)
  {
    WinsGivesRun(rule, b, h, w, name);
    RunGivesWins(rule, b, h, w, name);
  }

  lemma WinsGivesRun(rule: Rule, b: Grid, h: nat, w: nat, name: string)
    requires Shape(b, h, w)
    ensures Wins(rule, b, h, w, name) ==> SomeRun(rule, b, h, w, name)
  {
    if Wins(rule, b, h, w, name) {
      var y, x :| 0 <= y < h && 0 <= x < w && WinFrom(rule, b, h, w, name, y, x);
      var d := WinningDirection(rule, b, h, w, name, y, x);
      var dy, dx := WinAtIsRun(rule, b, h, w, name, y, x, d);
    }
  }

  lemma RunGivesWins(rule: Rule, b: Grid, h: nat, w: nat, name: string)
    requires Shape(b, h, w)
    ensures SomeRun(rule, b, h, w, name) ==> Wins(rule, b, h, w, name)
  {
    if SomeRun(rule, b, h, w, name) {
      var y, x, dy, dx :| IsStep(dy, dx) && Run(rule, b, h, w, name, y, x, dy, dx);
      var oy, ox, d := RunIsWinAt(rule, b, h, w, name, y, x, dy, dx);
      WinAtGivesWins(rule, b, h, w, name, oy, ox, d);
    }
  }

  lemma WinAtGivesWins(rule: Rule, b: Grid, h: nat, w: nat, name: string, y: int, x: int, d: Direction)
    requires Shape(b, h, w) && 0 <= y < h && 0 <= x < w && WinAt(rule, b, h, w, name, y, x, d)
    ensures Wins(rule, b, h, w, name)
  {
    assert WinFrom(rule, b, h, w, name, y, x);
  }

  /** Every win the source reports is a win of the intended rule. */
  lemma AsWrittenImpliesIntended(b: Grid, h: nat, w: nat, name: string)
    requires Shape(b, h, w)
    ensures Wins(AsWritten, b, h, w, name) ==> Wins(Intended, b, h, w, name)
  {
    if Wins(AsWritten, b, h, w, name) {
      var y, x :| 0 <= y < h && 0 <= x < w && WinFrom(AsWritten, b, h, w, name, y, x);
      var d := WinningDirection(AsWritten, b, h, w, name, y, x);
      WinAtChangeRule(AsWritten, Intended, b, h, w, name, y, x, d);
      WinAtGivesWins(Intended, b, h, w, name, y, x, d);
    }
  }

  /** When the board is at least as tall as it is wide, the extra conjunct never
      excludes an on-board cell, so the source decides wins as intended. */
  lemma AsWrittenAgreesWhenNotWider(b: Grid, h: nat, w: nat, name: string)
    requires Shape(b, h, w) && w <= h
    ensures Wins(AsWritten, b, h, w, name) <==> Wins(Intended, b, h, w, name)
  {
    AsWrittenImpliesIntended(b, h, w, name);
    if Wins(Intended, b, h, w, name) {
      var y, x :| 0 <= y < h && 0 <= x < w && WinFrom(Intended, b, h, w, name, y, x);
      var d := WinningDirection(Intended, b, h, w, name, y, x);
      WinAtChangeRule(Intended, AsWritten, b, h, w, name, y, x, d);
      WinAtGivesWins(AsWritten, b, h, w, name, y, x, d);
    }
  }

  /** A template winning by one rule wins by another when the other rule's
      cell test is implied: always for `Intended`, and for `AsWritten` when
      the board is no wider than it is tall. */
  lemma WinAtChangeRule(from: Rule, to: Rule, b: Grid, h: nat, w: nat, name: string, y: int, x: int, d: Direction)
    requires Shape(b, h, w) && WinAt(from, b, h, w, name, y, x, d)
    requires to == Intended || w <= h
    ensures WinAt(to, b, h, w, name, y, x, d)
  {
  }

  /** The default 6 x 7 board with "p1" in rows 2 to 5 of the rightmost column. */
  function RightColumnBoard(): (b: Grid)
    ensures Shape(b, 6, 7)
  {
    seq(6, y => seq(7, x => if x == 6 && y >= 2 then Mark("p1") else Empty))
  }

  /** Counterexample: four in a row in column 6 of the default board is a win by the
      intended rule, but the source's cell test rejects every cell of column 6. */
  lemma RightColumnMissed()
    ensures Wins(Intended, RightColumnBoard(), 6, 7, "p1")
    ensures !Wins(AsWritten, RightColumnBoard(), 6, 7, "p1")
  {
    var b := RightColumnBoard();
    assert WinAt(Intended, b, 6, 7, "p1", 2, 6, Vert) by {
      var t := Template(2, 6, Vert);
      forall i | 0 <= i < 4 ensures Matches(Intended, b, 6, 7, "p1", t[i].0, t[i].1) {
      }
    }
    assert WinFrom(Intended, b, 6, 7, "p1", 2, 6);
    forall y, x | 0 <= y < 6 && 0 <= x < 7 ensures !WinFrom(AsWritten, b, 6, 7, "p1", y, x) {
      assert !Matches(AsWritten, b, 6, 7, "p1", y, x);
      forall d ensures !WinAt(AsWritten, b, 6, 7, "p1", y, x, d) {
        assert Template(y, x, d)[0] == (y, x);
      }
    }
  }

  /** A board with no win that gains one from a single placement gains it on a
      line through the placed cell, so a check anchored at the last move suffices. */
  lemma NewWinThroughPlacedCell(rule: Rule, b: Grid, h: nat, w: nat, name: string, y: nat, x: nat, c: Cell)
    requires Shape(b, h, w) && y < h && x < w
    requires !Wins(rule, b, h, w, name)
    requires Wins(rule, Place(b, h, w, y, x, c), h, w, name)
    ensures exists oy, ox, d :: 0 <= oy < h && 0 <= ox < w &&
              WinAt(rule, Place(b, h, w, y, x, c), h, w, name, oy, ox, d) && (y, x) in Template(oy, ox, d)
  {
    var r := Place(b, h, w, y, x, c);
    var oy, ox :| 0 <= oy < h && 0 <= ox < w && WinFrom(rule, r, h, w, name, oy, ox);
    var d := WinningDirection(rule, r, h, w, name, oy, ox);
    if (y, x) !in Template(oy, ox, d) {
      WinAtAwayFromPlacedCell(rule, b, h, w, name, y, x, c, oy, ox, d);
      WinAtGivesWins(rule, b, h, w, name, oy, ox, d);
      assert false;
    }
  }

  /** A template not covering the placed cell wins after the placement only if it won before. */
  lemma WinAtAwayFromPlacedCell(rule: Rule, b: Grid, h: nat, w: nat, name: string, y: nat, x: nat, c: Cell,
                                oy: int, ox: int, d: Direction)
    requires Shape(b, h, w) && y < h && x < w
    requires WinAt(rule, Place(b, h, w, y, x, c), h, w, name, oy, ox, d) && (y, x) !in Template(oy, ox, d)
    ensures WinAt(rule, b, h, w, name, oy, ox, d)
  {
  }
}
